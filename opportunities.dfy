/**
 * The opportunities table component: the full row list, the filter and sort
 * settings, and the derived filtered list and current page, updated by the
 * component's event handlers. Each reactive signal is a plain field.
 */
module Opportunities {
  import opened Wrappers
  import opened Text
  import opened Seqs
  import opened OpportunityTable

  /** The sort header's event: the column clicked and 'asc', 'desc' or '' when sorting is cleared. */
  datatype SortEvent = SortEvent(active: string, direction: string)

  /** The paginator's event. */
  datatype PageEvent = PageEvent(pageIndex: int, pageSize: int, length: int)

  /**
   * The filtering half of `applyFilters`: each filter that is switched on
   * narrows the list in turn, and the result is exactly the rows that pass
   * all four, in their original order.
   */
  method FilterRows(items: seq<SkinOpportunity>, f: Filters) returns (filtered: seq<SkinOpportunity>)
    ensures filtered == Visible(items, f)
  {
    filtered := items;
    var search := Lower(f.searchTerm);
    if search != "" {
      filtered := Filter(filtered, SearchStep(f));
    } else {
      FilterTrue(filtered, SearchStep(f));
    }
    ghost var afterSearch := filtered;
    assert afterSearch == Filter(items, SearchStep(f));

    if f.rarity != "all" {
      filtered := Filter(filtered, RarityStep(f));
    } else {
      FilterTrue(filtered, RarityStep(f));
    }
    ghost var afterRarity := filtered;
    assert afterRarity == Filter(afterSearch, RarityStep(f));

    if f.market != "all" {
      filtered := Filter(filtered, MarketStep(f));
    } else {
      FilterTrue(filtered, MarketStep(f));
    }
    ghost var afterMarket := filtered;
    assert afterMarket == Filter(afterRarity, MarketStep(f));

    if f.minProfit > 0.0 {
      filtered := Filter(filtered, ProfitStep(f));
    } else {
      FilterTrue(filtered, ProfitStep(f));
    }
    assert filtered == Filter(afterMarket, ProfitStep(f));
    VisibleStepwise(items, f);
  }

  class OpportunitiesComponent {
    var allOpportunities: seq<SkinOpportunity>
    var filteredOpportunities: seq<SkinOpportunity>
    var paginatedOpportunities: seq<SkinOpportunity>
    var searchTerm: string
    var selectedRarity: string
    var selectedMarket: string
    var minProfit: real
    var pageSize: int
    var pageIndex: int
    var sortColumn: string
    var sortDirection: string

    function CurrentFilters(): Filters
      reads this
    {
      Filters(searchTerm, selectedRarity, selectedMarket, minProfit)
    }

    /** `totalItems`, the count the paginator shows. */
    function TotalItems(): nat
      reads this
    {
      |filteredOpportunities|
    }

    /** The filtered list is the sorted visible rows, and the page is the current slice of it. */
    ghost predicate Consistent()
      reads this
    {
      && filteredOpportunities == SortData(sortColumn, sortDirection, Visible(allOpportunities, CurrentFilters()))
      && paginatedOpportunities == Page(filteredOpportunities, pageIndex, pageSize)
    }

    constructor ()
      ensures allOpportunities == [] && filteredOpportunities == [] && paginatedOpportunities == []
      ensures CurrentFilters() == DEFAULT_FILTERS
      ensures pageSize == 10 && pageIndex == 0
      ensures sortColumn == "profitPercent" && sortDirection == "desc"
      ensures Consistent()
    {
      allOpportunities := [];
      filteredOpportunities := [];
      paginatedOpportunities := [];
      searchTerm := "";
      selectedRarity := "all";
      selectedMarket := "all";
      minProfit := 0.0;
      pageSize := 10;
      pageIndex := 0;
      sortColumn := "profitPercent";
      sortDirection := "desc";
    }

    /** `ngOnInit`, with the rows to show passed in instead of the built-in sample list. */
    method NgOnInit(data: seq<SkinOpportunity>)
      modifies this
      ensures allOpportunities == data
      ensures CurrentFilters() == old(CurrentFilters()) && pageSize == old(pageSize)
      ensures sortColumn == old(sortColumn) && sortDirection == old(sortDirection)
      ensures pageIndex == 0 && Consistent()
    {
      allOpportunities := data;
      ApplyFilters();
    }

    /**
     * `applyFilters`: the four filters one after another, then the sort, then
     * back to the first page.
     */
    method ApplyFilters()
      modifies this
      ensures allOpportunities == old(allOpportunities)
      ensures CurrentFilters() == old(CurrentFilters()) && pageSize == old(pageSize)
      ensures sortColumn == old(sortColumn) && sortDirection == old(sortDirection)
      ensures filteredOpportunities == SortData(sortColumn, sortDirection, Visible(allOpportunities, CurrentFilters()))
      ensures pageIndex == 0
      ensures pageSize >= 0 ==>
        paginatedOpportunities == filteredOpportunities[..if pageSize < |filteredOpportunities| then pageSize else |filteredOpportunities|]
      ensures Consistent()
    {
      var filtered := FilterRows(allOpportunities, CurrentFilters());
      filtered := SortData(sortColumn, sortDirection, filtered);

      filteredOpportunities := filtered;
      pageIndex := 0;
      ghost var before := CurrentFilters();
      UpdatePaginatedData();
      assert CurrentFilters() == before && filteredOpportunities == filtered;
      if pageSize >= 0 {
        FirstPage(filteredOpportunities, pageSize);
      }
    }

    /** `updatePaginatedData`: the slice of the filtered list for the current page. */
    method UpdatePaginatedData()
      modifies this`paginatedOpportunities
      ensures paginatedOpportunities == Page(filteredOpportunities, pageIndex, pageSize)
    {
      var startIndex := pageIndex * pageSize;
      var endIndex := startIndex + pageSize;
      paginatedOpportunities := Slice(filteredOpportunities, startIndex, endIndex);
    }

    /** `onSortChange`: re-sorts by the event's column and direction, and ignores an event missing either. */
    method OnSortChange(sort: SortEvent)
      modifies this
      ensures sort.active == "" || sort.direction == "" ==> unchanged(this)
      ensures sort.active != "" && sort.direction != "" ==>
        && sortColumn == sort.active && sortDirection == sort.direction
        && allOpportunities == old(allOpportunities)
        && CurrentFilters() == old(CurrentFilters()) && pageSize == old(pageSize)
        && pageIndex == 0 && Consistent()
    {
      if sort.active != "" && sort.direction != "" {
        sortColumn := sort.active;
        sortDirection := sort.direction;
        ApplyFilters();
      }
    }

    /** `onPageChange`: takes the paginator's page and page size, leaving the filtered list as it is. */
    method OnPageChange(event: PageEvent)
      modifies this
      ensures pageSize == event.pageSize && pageIndex == event.pageIndex
      ensures allOpportunities == old(allOpportunities) && filteredOpportunities == old(filteredOpportunities)
      ensures CurrentFilters() == old(CurrentFilters())
      ensures sortColumn == old(sortColumn) && sortDirection == old(sortDirection)
      ensures paginatedOpportunities == Page(filteredOpportunities, pageIndex, pageSize)
      ensures old(Consistent()) ==> Consistent()
    {
      pageSize := event.pageSize;
      pageIndex := event.pageIndex;
      UpdatePaginatedData();
    }

    /** `clearFilters`: back to the default filters, which show every row, sorted. */
    method ClearFilters()
      modifies this
      ensures CurrentFilters() == DEFAULT_FILTERS
      ensures allOpportunities == old(allOpportunities) && pageSize == old(pageSize)
      ensures sortColumn == old(sortColumn) && sortDirection == old(sortDirection)
      ensures filteredOpportunities == SortData(sortColumn, sortDirection, allOpportunities)
      ensures pageIndex == 0 && Consistent()
    {
      searchTerm := "";
      selectedRarity := "all";
      selectedMarket := "all";
      minProfit := 0.0;
      ApplyFilters();
      DefaultFiltersShowAll(allOpportunities);
    }

    /** `onSearchChange`, given the input's text. */
    method OnSearchChange(value: string)
      modifies this
      ensures CurrentFilters() == old(CurrentFilters()).(searchTerm := value)
      ensures allOpportunities == old(allOpportunities) && pageSize == old(pageSize)
      ensures sortColumn == old(sortColumn) && sortDirection == old(sortDirection)
      ensures pageIndex == 0 && Consistent()
    {
      searchTerm := value;
      ApplyFilters();
    }

    method OnRarityChange(value: string)
      modifies this
      ensures CurrentFilters() == old(CurrentFilters()).(rarity := value)
      ensures allOpportunities == old(allOpportunities) && pageSize == old(pageSize)
      ensures sortColumn == old(sortColumn) && sortDirection == old(sortDirection)
      ensures pageIndex == 0 && Consistent()
    {
      selectedRarity := value;
      ApplyFilters();
    }

    method OnMarketChange(value: string)
      modifies this
      ensures CurrentFilters() == old(CurrentFilters()).(market := value)
      ensures allOpportunities == old(allOpportunities) && pageSize == old(pageSize)
      ensures sortColumn == old(sortColumn) && sortDirection == old(sortDirection)
      ensures pageIndex == 0 && Consistent()
    {
      selectedMarket := value;
      ApplyFilters();
    }

    /**
     * `onMinProfitChange`, given the number parsed from the input (None when
     * it does not parse); a missing or zero number sets the minimum to 0.
     */
    method OnMinProfitChange(parsed: Option<real>)
      modifies this
      ensures minProfit == (if parsed.Some? then parsed.value else 0.0)
      ensures searchTerm == old(searchTerm) && selectedRarity == old(selectedRarity)
      ensures selectedMarket == old(selectedMarket)
      ensures allOpportunities == old(allOpportunities) && pageSize == old(pageSize)
      ensures sortColumn == old(sortColumn) && sortDirection == old(sortDirection)
      ensures pageIndex == 0 && Consistent()
    {
      minProfit := Or(parsed, Some(0.0)).value;
      ApplyFilters();
    }
  }
}
