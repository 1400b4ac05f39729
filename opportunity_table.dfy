/**
 * The pure parts of the opportunities table: the row record, the column
 * comparator and the sort built on it, the four filters, the page slice, and
 * the colour and icon lookups.
 */
module OpportunityTable {
  import opened Text
  import opened Seqs

  datatype Trend = Up | Down | Stable

  function TrendName(t: Trend): string
  {
    match t
    case Up => "up"
    case Down => "down"
    case Stable => "stable"
  }

  datatype SkinOpportunity = SkinOpportunity(
    id: int,
    name: string,
    quality: string,
    buyMarket: string,
    buyPrice: real,
    sellMarket: string,
    sellPrice: real,
    profit: real,
    profitPercent: real,
    rarity: string,
    trend: Trend)

  const DISPLAYED_COLUMNS: seq<string> := [
    "name", "quality", "rarity", "buyMarket", "buyPrice",
    "sellMarket", "sellPrice", "profit", "profitPercent", "trend"
  ]
  const RARITIES: seq<string> :=
    ["all", "Consumer Grade", "Industrial Grade", "Mil-Spec", "Restricted", "Classified", "Covert"]

  // ---------------------------------------------------------------------------
  // Sorting

  /** The value `item[column]`: a string, a number, or `undefined` for a name that is not a field. */
  datatype Key = Str(s: string) | Num(x: real) | Absent

  function KeyOf(column: string, item: SkinOpportunity): Key
  {
    if column == "id" then Num(item.id as real)
    else if column == "buyPrice" then Num(item.buyPrice)
    else if column == "sellPrice" then Num(item.sellPrice)
    else if column == "profit" then Num(item.profit)
    else if column == "profitPercent" then Num(item.profitPercent)
    else if column == "name" then Str(item.name)
    else if column == "quality" then Str(item.quality)
    else if column == "buyMarket" then Str(item.buyMarket)
    else if column == "sellMarket" then Str(item.sellMarket)
    else if column == "rarity" then Str(item.rarity)
    else if column == "trend" then Str(TrendName(item.trend))
    else Absent
  }

  /** Every displayed column names a field of the row, and all rows give it a key of the same kind. */
  lemma DisplayedColumnsSortable(a: SkinOpportunity, b: SkinOpportunity)
    ensures forall i :: 0 <= i < |DISPLAYED_COLUMNS| ==>
      !KeyOf(DISPLAYED_COLUMNS[i], a).Absent? && SameKind(KeyOf(DISPLAYED_COLUMNS[i], a), KeyOf(DISPLAYED_COLUMNS[i], b))
  {
  }

  /** The comparator's ascending result: strings lower-cased first, then `<` and `>`; -1, 1 or 0. */
  function CompareKeys(a: Key, b: Key): int
  {
    if a.Str? && b.Str? then
      var x, y := Lower(a.s), Lower(b.s);
      if StrLess(x, y) then -1 else if StrLess(y, x) then 1 else 0
    else if a.Num? && b.Num? then
      if a.x < b.x then -1 else if a.x > b.x then 1 else 0
    else 0
  }

  /** The comparator `sortData` hands to `Array.prototype.sort`: negated unless the direction is 'asc'. */
  function Comparison(column: string, direction: string, a: SkinOpportunity, b: SkinOpportunity): int
  {
    var c := CompareKeys(KeyOf(column, a), KeyOf(column, b));
    if direction == "asc" then c else -c
  }

  predicate SameKind(a: Key, b: Key)
  {
    a.Str? == b.Str? && a.Num? == b.Num?
  }

  lemma CompareKeysAntisymmetric(a: Key, b: Key)
    ensures CompareKeys(a, b) == -CompareKeys(b, a)
  {
    if a.Str? && b.Str? {
      var x, y := Lower(a.s), Lower(b.s);
      if StrLess(x, y) {
        StrLessAsymmetric(x, y);
      }
    }
  }

  lemma CompareKeysTransitive(a: Key, b: Key, c: Key)
    requires SameKind(a, b) && SameKind(b, c)
    requires CompareKeys(a, b) <= 0 && CompareKeys(b, c) <= 0
    ensures CompareKeys(a, c) <= 0
  {
    if a.Str? {
      var x, y, z := Lower(a.s), Lower(b.s), Lower(c.s);
      assert CompareKeys(a, b) == if StrLess(x, y) then -1 else if StrLess(y, x) then 1 else 0;
      assert CompareKeys(b, c) == if StrLess(y, z) then -1 else if StrLess(z, y) then 1 else 0;
      assert CompareKeys(a, c) == if StrLess(x, z) then -1 else if StrLess(z, x) then 1 else 0;
      if StrLess(x, y) {
        StrLessAsymmetric(x, y);
      }
      if StrLess(y, z) {
        StrLessAsymmetric(y, z);
      }
      if StrLess(z, x) {
        StrLessTotal(x, y);
        if StrLess(x, y) {
          StrLessTransitive(z, x, y);
        }
      }
    }
  }

  lemma ComparisonAntisymmetric(column: string, direction: string, a: SkinOpportunity, b: SkinOpportunity)
    ensures Comparison(column, direction, a, b) == -Comparison(column, direction, b, a)
  {
    CompareKeysAntisymmetric(KeyOf(column, a), KeyOf(column, b));
  }

  lemma ComparisonTransitive(column: string, direction: string, a: SkinOpportunity, b: SkinOpportunity, c: SkinOpportunity)
    requires Comparison(column, direction, a, b) <= 0 && Comparison(column, direction, b, c) <= 0
    ensures Comparison(column, direction, a, c) <= 0
  {
    var ka, kb, kc := KeyOf(column, a), KeyOf(column, b), KeyOf(column, c);
    if direction == "asc" {
      CompareKeysTransitive(ka, kb, kc);
    } else {
      CompareKeysAntisymmetric(ka, kb);
      CompareKeysAntisymmetric(kb, kc);
      CompareKeysAntisymmetric(ka, kc);
      CompareKeysTransitive(kc, kb, ka);
    }
  }

  /** Two rows the comparator cannot tell apart. */
  predicate Tied(column: string, a: SkinOpportunity, b: SkinOpportunity)
  {
    CompareKeys(KeyOf(column, a), KeyOf(column, b)) == 0
  }

  lemma TiedTransitive(column: string, a: SkinOpportunity, b: SkinOpportunity, c: SkinOpportunity)
    requires Tied(column, a, b) && Tied(column, b, c)
    ensures Tied(column, a, c)
  {
    var ka, kb, kc := KeyOf(column, a), KeyOf(column, b), KeyOf(column, c);
    CompareKeysAntisymmetric(ka, kb);
    CompareKeysAntisymmetric(kb, kc);
    CompareKeysAntisymmetric(ka, kc);
    CompareKeysTransitive(ka, kb, kc);
    CompareKeysTransitive(kc, kb, ka);
  }

  /** Every earlier row compares at most equal to every later one. */
  predicate Ordered(column: string, direction: string, s: seq<SkinOpportunity>)
  {
    forall i, j :: 0 <= i < j < |s| ==> Comparison(column, direction, s[i], s[j]) <= 0
  }

  /** Puts `x` before the first row it does not compare greater than. */
  function Insert(column: string, direction: string, x: SkinOpportunity, s: seq<SkinOpportunity>)
    : (r: seq<SkinOpportunity>)
    ensures multiset(r) == multiset(s) + multiset{x}
  {
    if s == [] || Comparison(column, direction, x, s[0]) <= 0 then [x] + s
    else
      assert s == [s[0]] + s[1..];
      [s[0]] + Insert(column, direction, x, s[1..])
  }

  /**
   * `sortData`: a sorted copy of `data`. `Array.prototype.sort` is stable, and
   * for a comparator that is a total preorder a stable sort has exactly one
   * possible result, which this insertion sort produces.
   */
  function SortData(column: string, direction: string, data: seq<SkinOpportunity>): (r: seq<SkinOpportunity>)
    ensures multiset(r) == multiset(data)
  {
    if data == [] then []
    else
      assert data == [data[0]] + data[1..];
      Insert(column, direction, data[0], SortData(column, direction, data[1..]))
  }

  /** `y` compares at most equal to every row of `s`. */
  predicate AtMostAll(column: string, direction: string, y: SkinOpportunity, s: seq<SkinOpportunity>)
  {
    forall j :: 0 <= j < |s| ==> Comparison(column, direction, y, s[j]) <= 0
  }

  lemma OrderedCons(column: string, direction: string, y: SkinOpportunity, s: seq<SkinOpportunity>)
    requires AtMostAll(column, direction, y, s) && Ordered(column, direction, s)
    ensures Ordered(column, direction, [y] + s)
  {
    var r := [y] + s;
    forall i, j | 0 <= i < j < |r| ensures Comparison(column, direction, r[i], r[j]) <= 0 {
      assert r[j] == s[j - 1];
      if i > 0 {
        assert r[i] == s[i - 1];
      }
    }
  }

  lemma InsertElements(column: string, direction: string, x: SkinOpportunity, s: seq<SkinOpportunity>, y: SkinOpportunity)
    requires y in Insert(column, direction, x, s)
    ensures y == x || y in s
  {
    assert y in multiset(Insert(column, direction, x, s));
  }

  lemma {:induction false} InsertOrdered(column: string, direction: string, x: SkinOpportunity, s: seq<SkinOpportunity>)
    requires Ordered(column, direction, s)
    ensures Ordered(column, direction, Insert(column, direction, x, s))
  {
    if s == [] {
    } else if Comparison(column, direction, x, s[0]) <= 0 {
      forall j | 0 <= j < |s| ensures Comparison(column, direction, x, s[j]) <= 0 {
        if j > 0 {
          ComparisonTransitive(column, direction, x, s[0], s[j]);
        }
      }
      OrderedCons(column, direction, x, s);
    } else {
      var t := s[1..];
      assert Ordered(column, direction, t) by {
        forall i, j | 0 <= i < j < |t| ensures Comparison(column, direction, t[i], t[j]) <= 0 {
          assert t[i] == s[i + 1] && t[j] == s[j + 1];
        }
      }
      InsertOrdered(column, direction, x, t);
      var rest := Insert(column, direction, x, t);
      ComparisonAntisymmetric(column, direction, x, s[0]);
      forall j | 0 <= j < |rest| ensures Comparison(column, direction, s[0], rest[j]) <= 0 {
        InsertElements(column, direction, x, t, rest[j]);
        if rest[j] != x {
          var m :| 0 <= m < |t| && t[m] == rest[j];
          assert s[m + 1] == t[m];
        }
      }
      OrderedCons(column, direction, s[0], rest);
    }
  }

  lemma {:induction false} SortDataOrdered(column: string, direction: string, data: seq<SkinOpportunity>)
    ensures Ordered(column, direction, SortData(column, direction, data))
  {
    if data != [] {
      SortDataOrdered(column, direction, data[1..]);
      InsertOrdered(column, direction, data[0], SortData(column, direction, data[1..]));
    }
  }

  /** The rows of `s` tied with `k`, in their order in `s`. */
  function TiedWith(column: string, k: SkinOpportunity, s: seq<SkinOpportunity>): seq<SkinOpportunity>
  {
    if s == [] then []
    else (if Tied(column, s[0], k) then [s[0]] else []) + TiedWith(column, k, s[1..])
  }

  lemma TiedWithCons(column: string, k: SkinOpportunity, y: SkinOpportunity, s: seq<SkinOpportunity>)
    ensures TiedWith(column, k, [y] + s) == (if Tied(column, y, k) then [y] else []) + TiedWith(column, k, s)
  {
    assert ([y] + s)[0] == y && ([y] + s)[1..] == s;
  }

  /** Two rows tied with the same row are tied with each other, so the comparator returns 0 for them. */
  lemma TiesCompareEqual(column: string, direction: string, x: SkinOpportunity, y: SkinOpportunity, k: SkinOpportunity)
    requires Tied(column, x, k) && Tied(column, y, k)
    ensures Comparison(column, direction, x, y) == 0
  {
    CompareKeysAntisymmetric(KeyOf(column, y), KeyOf(column, k));
    TiedTransitive(column, x, k, y);
  }

  lemma {:induction false} InsertKeepsTies(column: string, direction: string, k: SkinOpportunity,
                                           x: SkinOpportunity, s: seq<SkinOpportunity>)
    ensures TiedWith(column, k, Insert(column, direction, x, s))
         == (if Tied(column, x, k) then [x] else []) + TiedWith(column, k, s)
  {
    if s == [] || Comparison(column, direction, x, s[0]) <= 0 {
      TiedWithCons(column, k, x, s);
    } else {
      var t := s[1..];
      var rest := Insert(column, direction, x, t);
      InsertKeepsTies(column, direction, k, x, t);
      TiedWithCons(column, k, s[0], rest);
      assert s == [s[0]] + t;
      TiedWithCons(column, k, s[0], t);
      if Tied(column, x, k) && Tied(column, s[0], k) {
        TiesCompareEqual(column, direction, x, s[0], k);
      }
    }
  }

  /**
   * `sortData` returns a permutation of its input, ordered by the column:
   * ascending keys for 'asc', descending for any other direction; rows with
   * equal keys keep their input order (the sort is stable).
   */
  lemma SortDataSpec(column: string, direction: string, data: seq<SkinOpportunity>, k: SkinOpportunity)
    ensures var r := SortData(column, direction, data);
      && multiset(r) == multiset(data)
      && (forall i, j :: 0 <= i < j < |r| ==>
            if direction == "asc" then CompareKeys(KeyOf(column, r[i]), KeyOf(column, r[j])) <= 0
            else CompareKeys(KeyOf(column, r[i]), KeyOf(column, r[j])) >= 0)
      && TiedWith(column, k, r) == TiedWith(column, k, data)
  {
    SortDataOrdered(column, direction, data);
    SortDataStable(column, direction, data, k);
  }

  lemma {:induction false} SortDataStable(column: string, direction: string, data: seq<SkinOpportunity>, k: SkinOpportunity)
    ensures TiedWith(column, k, SortData(column, direction, data)) == TiedWith(column, k, data)
  {
    if data != [] {
      SortDataStable(column, direction, data[1..], k);
      InsertKeepsTies(column, direction, k, data[0], SortData(column, direction, data[1..]));
    }
  }

  // ---------------------------------------------------------------------------
  // Filtering

  datatype Filters = Filters(searchTerm: string, rarity: string, market: string, minProfit: real)

  const DEFAULT_FILTERS: Filters := Filters("", "all", "all", 0.0)

  /** Case-insensitive search on name or quality; an empty search term keeps every row. */
  predicate SearchOk(f: Filters, item: SkinOpportunity)
  {
    var search := Lower(f.searchTerm);
    search == "" || Contains(Lower(item.name), search) || Contains(Lower(item.quality), search)
  }

  predicate RarityOk(f: Filters, item: SkinOpportunity)
  {
    f.rarity == "all" || item.rarity == f.rarity
  }

  predicate MarketOk(f: Filters, item: SkinOpportunity)
  {
    f.market == "all" || item.buyMarket == f.market || item.sellMarket == f.market
  }

  /** The minimum-profit filter applies only to a positive minimum. */
  predicate ProfitOk(f: Filters, item: SkinOpportunity)
  {
    f.minProfit <= 0.0 || item.profitPercent >= f.minProfit
  }

  predicate Passes(f: Filters, item: SkinOpportunity)
  {
    SearchOk(f, item) && RarityOk(f, item) && MarketOk(f, item) && ProfitOk(f, item)
  }

  function SearchStep(f: Filters): SkinOpportunity -> bool { item => SearchOk(f, item) }
  function RarityStep(f: Filters): SkinOpportunity -> bool { item => RarityOk(f, item) }
  function MarketStep(f: Filters): SkinOpportunity -> bool { item => MarketOk(f, item) }
  function ProfitStep(f: Filters): SkinOpportunity -> bool { item => ProfitOk(f, item) }
  function PassesStep(f: Filters): SkinOpportunity -> bool { item => Passes(f, item) }

  /** The rows that pass every filter, in their original order. */
  function Visible(items: seq<SkinOpportunity>, f: Filters): (r: seq<SkinOpportunity>)
    ensures forall x :: x in r <==> x in items && Passes(f, x)
    ensures multiset(r) <= multiset(items)
  {
    Filter(items, PassesStep(f))
  }

  /** A row occurs in the visible rows exactly as often as in the input when it passes, and never otherwise. */
  lemma VisibleCounts(items: seq<SkinOpportunity>, f: Filters)
    ensures forall x :: multiset(Visible(items, f))[x] == if Passes(f, x) then multiset(items)[x] else 0
  {
    FilterCounts(items, PassesStep(f));
  }

  /** Filtering keeps the input order: the visible rows of a concatenation are those of each part, in turn. */
  lemma VisibleAppend(a: seq<SkinOpportunity>, b: seq<SkinOpportunity>, f: Filters)
    ensures Visible(a + b, f) == Visible(a, f) + Visible(b, f)
  {
    FilterAppend(a, b, PassesStep(f));
  }

  /** The visible rows tied with `k` are the input rows tied with `k` that pass, in their input order. */
  lemma {:induction false} VisibleTies(column: string, k: SkinOpportunity, items: seq<SkinOpportunity>, f: Filters)
    ensures TiedWith(column, k, Visible(items, f)) == Filter(TiedWith(column, k, items), PassesStep(f))
  {
    if items != [] {
      var h, t := items[0], items[1..];
      assert items == [h] + t;
      VisibleTies(column, k, t, f);
      FilterCons(h, t, PassesStep(f));
      TiedWithCons(column, k, h, t);
      if Passes(f, h) {
        TiedWithCons(column, k, h, Visible(t, f));
      } else {
        assert Visible(items, f) == Visible(t, f);
      }
      if Tied(column, h, k) {
        FilterCons(h, TiedWith(column, k, t), PassesStep(f));
      } else {
        assert TiedWith(column, k, items) == TiedWith(column, k, t);
      }
    }
  }

  /**
   * Filtering then sorting keeps each group of tied rows in input order:
   * the rows tied with `k` in the displayed table are the passing input rows tied with `k`, in input order.
   */
  lemma FilterThenSortStable(column: string, direction: string, k: SkinOpportunity,
                             items: seq<SkinOpportunity>, f: Filters)
    ensures TiedWith(column, k, SortData(column, direction, Visible(items, f)))
         == Filter(TiedWith(column, k, items), PassesStep(f))
  {
    SortDataStable(column, direction, Visible(items, f), k);
    VisibleTies(column, k, items, f);
  }

  function SearchRarityStep(f: Filters): SkinOpportunity -> bool
  {
    item => SearchOk(f, item) && RarityOk(f, item)
  }

  function SearchRarityMarketStep(f: Filters): SkinOpportunity -> bool
  {
    item => SearchOk(f, item) && RarityOk(f, item) && MarketOk(f, item)
  }

  /** Applying the four filters one after another is the same as keeping the rows that pass all four. */
  lemma VisibleStepwise(items: seq<SkinOpportunity>, f: Filters)
    ensures Filter(Filter(Filter(Filter(items, SearchStep(f)), RarityStep(f)), MarketStep(f)), ProfitStep(f))
         == Visible(items, f)
  {
    var sr, srm := SearchRarityStep(f), SearchRarityMarketStep(f);
    FilterFilter(items, SearchStep(f), RarityStep(f), sr);
    FilterFilter(items, sr, MarketStep(f), srm);
    FilterFilter(items, srm, ProfitStep(f), PassesStep(f));
  }

  /** The default filters keep every row, in order. */
  lemma DefaultFiltersShowAll(items: seq<SkinOpportunity>)
    ensures Visible(items, DEFAULT_FILTERS) == items
  {
    assert Lower("") == "";
    FilterTrue(items, PassesStep(DEFAULT_FILTERS));
  }

  // ---------------------------------------------------------------------------
  // Pagination

  /** `filtered.slice(pageIndex * pageSize, pageIndex * pageSize + pageSize)` */
  function Page(items: seq<SkinOpportunity>, pageIndex: int, pageSize: int): seq<SkinOpportunity>
  {
    Slice(items, pageIndex * pageSize, pageIndex * pageSize + pageSize)
  }

  /**
   * A page holds at most `pageSize` rows, the rows starting at
   * `pageIndex * pageSize`, and is full unless it reaches the end of the list.
   */
  lemma PageBounds(items: seq<SkinOpportunity>, pageIndex: int, pageSize: int)
    requires pageIndex >= 0 && pageSize >= 0
    ensures var page, start := Page(items, pageIndex, pageSize), pageIndex * pageSize;
      && |page| <= pageSize
      && (start + pageSize <= |items| ==> |page| == pageSize)
      && forall k :: 0 <= k < |page| ==> page[k] == items[start + k]
  {
    var start := pageIndex * pageSize;
    assert start >= 0;
    SliceWithin(items, start, start + pageSize);
  }

  /** The first page is the first `pageSize` rows, or all of them when there are fewer. */
  lemma FirstPage(items: seq<SkinOpportunity>, pageSize: int)
    requires pageSize >= 0
    ensures Page(items, 0, pageSize) == items[..if pageSize < |items| then pageSize else |items|]
  {
  }

  // ---------------------------------------------------------------------------
  // Lookups

  const RARITY_COLORS: map<string, string> := map[
    "Consumer Grade" := "#b0c3d9",
    "Industrial Grade" := "#5e98d9",
    "Mil-Spec" := "#4b69ff",
    "Restricted" := "#8847ff",
    "Classified" := "#d32ce6",
    "Covert" := "#eb4b4b"
  ]

  /** `getRarityColor`: the grade's colour, white for anything else. */
  function GetRarityColor(rarity: string): (color: string)
    ensures color == "#ffffff" <==> rarity !in RARITY_COLORS
    ensures rarity in RARITY_COLORS ==> color == RARITY_COLORS[rarity]
  {
    if rarity in RARITY_COLORS then RARITY_COLORS[rarity] else "#ffffff"
  }

  /** Every grade the rarity selector offers has its own colour; the 'all' entry falls back to white. */
  lemma RarityColorsCoverSelector()
    ensures GetRarityColor(RARITIES[0]) == "#ffffff"
    ensures forall i :: 1 <= i < |RARITIES| ==> GetRarityColor(RARITIES[i]) != "#ffffff"
    ensures forall i, j :: 1 <= i < j < |RARITIES| ==> GetRarityColor(RARITIES[i]) != GetRarityColor(RARITIES[j])
  {
  }

  /** `getTrendIcon` */
  function GetTrendIcon(trend: string): (icon: string)
    ensures icon in {"trending_up", "trending_down", "trending_flat"}
    ensures icon == "trending_up" <==> trend == "up"
    ensures icon == "trending_down" <==> trend == "down"
  {
    if trend == "up" then "trending_up" else if trend == "down" then "trending_down" else "trending_flat"
  }

  /** `getTrendColor` */
  function GetTrendColor(trend: string): (color: string)
    ensures color in {"#4caf50", "#f44336", "#ff9800"}
    ensures color == "#4caf50" <==> trend == "up"
    ensures color == "#f44336" <==> trend == "down"
  {
    if trend == "up" then "#4caf50" else if trend == "down" then "#f44336" else "#ff9800"
  }

  /** Icon and colour classify a trend the same way, and the three trends of a row get three different icons. */
  lemma TrendIconAndColorAgree(trend: string)
    ensures GetTrendIcon(trend) == "trending_up" <==> GetTrendColor(trend) == "#4caf50"
    ensures GetTrendIcon(trend) == "trending_down" <==> GetTrendColor(trend) == "#f44336"
    ensures GetTrendIcon(trend) == "trending_flat" <==> GetTrendColor(trend) == "#ff9800"
    ensures forall t, u :: t != u ==> GetTrendIcon(TrendName(t)) != GetTrendIcon(TrendName(u))
  {
  }
}
