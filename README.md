# CS2 skin arbitrage dashboard — verified model of the core

This project models, in Dafny, the two pieces of logic at the heart of a
dashboard that compares Counter-Strike 2 skin prices between the Buff163 and
CSFloat marketplaces:

* **The arbitrage calculator** (`PriceService`). It joins the two price feeds
  by item name, skips items without a usable price on both platforms, and for
  each remaining item computes:
  * the price differences and the price ratio;
  * the fee-adjusted buy cost, sale proceeds, net profit and ROI for buying on
    Buff163 and selling on CSFloat ("B→C"), and for the reverse ("C→B");
  * the better direction;
  * a profitability flag;
  * a reliability label derived from the CSFloat listing count.
  
  It also reads category, wear, StatTrak and Souvenir details off the item
  name.
* **The opportunities table** (`OpportunitiesComponent`). It keeps the full
  row list, four filters, a sort column and direction, and a page index and
  size. It derives the filtered, sorted list and the visible page from them,
  and updates these in response to filter, sort and paginator events.

Prices, fees and profits are exact reals; the fees are 1/40 (Buff163) and
1/50 (CSFloat).

Files and modules:

| file | module | contents |
|---|---|---|
| `wrappers.dfy` | `Wrappers` | `Option`, and `Or` for JavaScript's `a \|\| b` on numbers |
| `text.dfy` | `Text` | ASCII lower-casing, substring search (`includes`), string `<` and its order lemmas |
| `seqs.dfy` | `Seqs` | `Array.prototype.filter`, set-of-keys order (`Distinct`), `Array.prototype.slice` |
| `arbitrage_models.dfy` | `ArbitrageModels` | feed and opportunity records, enumerations, platform fees |
| `price_service.dfy` | `PriceService` | name parsing, the calculator, the feed join and its lemmas |
| `opportunity_table.dfy` | `OpportunityTable` | table rows, the sort comparator and stable sort, the filters, the page slice, lookups |
| `opportunities.dfy` | `Opportunities` | the component as a class with its fields and event handlers |

Correspondences worth knowing:
* A feed (`Buff163Response`, `CSFloatResponse`) is a `Feed`: its keys in
  `Object.keys` order plus a map from key to entry.
* A JavaScript "truthy" number is a present, non-zero number.
* `new Set([...a, ...b])` is `Distinct(a + b)`, which keeps the first
  occurrence of each name.
* Sorting is modelled by a stable insertion sort. `Array.prototype.sort` is
  stable, and for a comparator that is a total preorder a stable sort has
  exactly one possible result.
* Each Angular signal is a plain field of the class.
* The reliability value `'N/A'` is the constructor `Unknown`. The values
  `'B→C'`, `'C→B'` and `'N/A'` of `bestDirection` are `BuffToCSFloat`,
  `CSFloatToBuff` and `NoDirection`.

## Model

| member | source | states |
|---|---|---|
| `Text.Lower` | src/app/opportunities/opportunities.ts:302-306 | lower-casing keeps the length and maps each character to its lower-case form (ASCII letters only) |
| `Text.StrLessIrreflexive` | src/app/opportunities/opportunities.ts:349 | no string is `<` itself |
| `Text.StrLessAsymmetric` | src/app/opportunities/opportunities.ts:349 | if `a < b` then not `b < a` |
| `Text.StrLessTransitive` | src/app/opportunities/opportunities.ts:349 | string `<` is transitive |
| `Text.StrLessTotal` | src/app/opportunities/opportunities.ts:349 | any two strings are equal or one is `<` the other |
| `Seqs.Filter` | src/app/opportunities/opportunities.ts:304-324 | `filter` keeps exactly the elements satisfying the predicate, never lengthens the list, and takes each element from the input at most as often as it occurs there |
| `Seqs.FilterCounts` | src/app/opportunities/opportunities.ts:304-324 | `filter` keeps every occurrence of an element that passes and no occurrence of one that fails |
| `Seqs.FilterAppend` | src/app/opportunities/opportunities.ts:304-324 | `filter` never reorders: filtering a concatenation is the concatenation of the filtered parts |
| `Seqs.FilterTrue` | src/app/opportunities/opportunities.ts:303-325 | a filter that every element passes changes nothing, so a switched-off filter step is the identity |
| `Seqs.FilterFilter` | src/app/opportunities/opportunities.ts:303-325 | filtering by `p` and then by `q` equals filtering once by `p && q` |
| `Seqs.Distinct` | src/app/services/price.service.ts:104-107 | the deduplicated key list has no repeats and the same members as the input |
| `Seqs.DistinctOfNoDups` | src/app/services/price.service.ts:104-107 | deduplicating a list without repeats returns it unchanged |
| `Seqs.DistinctExtends` | src/app/services/price.service.ts:104-107 | the set built from `a ++ b`, with `a` free of repeats, lists all of `a` first, in order, and after that only members of `b` that are not in `a` |
| `Seqs.ClampIndex` | src/app/opportunities/opportunities.ts:394 | `slice` index normalisation: a negative index counts from the end and is 0 when still negative after that, an index past the end is the length; the result always lies between 0 and the length |
| `Seqs.SliceWithin` | src/app/opportunities/opportunities.ts:394 | for `0 <= start <= end`, the slice has at most `end - start` elements, exactly that many when `end` is within the list, and element `k` is `s[start + k]` |
| `ArbitrageModels.EmptyFeed` | src/app/services/price.service.ts:83-92 | the `{}` fallback feed is valid and has no entries |
| `ArbitrageModels.FeesAreProperFractions` | src/app/models/arbitrage.models.ts:68-77 | Buff163 charges 0.025 (1/40) on both sides and CSFloat 0.02 (1/50); every fee is strictly between 0 and 1 |
| `ArbitrageModels.FeesCostMoney` | src/app/models/arbitrage.models.ts:68-77 | for a positive price, the buy cost exceeds the price and the sale proceeds are positive and below the price, on both platforms |
| `PriceService.WearIndex` | src/app/services/price.service.ts:234-240 | the wear search stops at a position within the condition list, or just past its end |
| `PriceService.WearIndexIsFirst` | src/app/services/price.service.ts:234-240 | the wear search stops at the first condition whose "(condition)" form occurs in the name; no earlier one occurs |
| `PriceService.WeaponIndex` | src/app/services/price.service.ts:243-249 | the weapon search stops at a position within the table, or just past its end |
| `PriceService.WeaponIndexIsFirst` | src/app/services/price.service.ts:243-249 | the weapon search stops at the first table entry whose weapon name occurs in the item name; no earlier one occurs |
| `PriceService.DetailsWith` | src/app/services/price.service.ts:229-231 | the StatTrak flag is "the name contains `StatTrak™`" and the Souvenir flag is "the name contains `Souvenir`" |
| `PriceService.FirstMatchDetails` | src/app/services/price.service.ts:233-256 | wear is the first matching condition, else "N/A"; category is that of the first matching weapon, else "Unknown"; any name containing "Gloves" has category "Gloves" |
| `PriceService.FindWear` | src/app/services/price.service.ts:234-240 | the wear loop with `break` yields the first matching condition, or "N/A" |
| `PriceService.FindCategory` | src/app/services/price.service.ts:243-249 | the weapon loop with `break` yields the category of the first matching weapon, or "Unknown" |
| `PriceService.ParseItemName` | src/app/services/price.service.ts:223-257 | `parseItemName` returns the details characterised by `FirstMatchDetails`, for the service's own 53-entry weapon table and five wear conditions |
| `PriceService.ReliabilityOf` | src/app/services/price.service.ts:182-188 | null count gives 'N/A'; at least 50 gives High; 20 to 49 gives Medium; anything lower gives Low, each as an if-and-only-if |
| `PriceService.ReliabilityMonotone` | src/app/services/price.service.ts:182-188 | more listings never lower the reliability label |
| `PriceService.ArbitrageFigures` | src/app/services/price.service.ts:146-220 | the name details are passed through; Buff163 is cheaper exactly when its price is lower (ties go to CSFloat); each net profit is sale proceeds minus buy cost with the platforms' fees; B→C is chosen exactly when its profit is strictly higher (ties go to C→B); best profit and ROI come from the chosen direction, and best profit is the larger of the two; profitable iff either direction has positive profit; reliability from the count; volume, variance and z-score are null |
| `PriceService.CalculateArbitrage` | src/app/services/price.service.ts:137-145 | the category, wear and flags of the result are those `parseItemName` reads off the item name |
| `PriceService.PriceComparison` | src/app/services/price.service.ts:147-151 | raw difference is CSFloat minus Buff163; absolute difference is its magnitude; ratio times the Buff163 price is the CSFloat price; percent difference is 100·(ratio − 1) |
| `PriceService.DirectionalFigures` | src/app/services/price.service.ts:153-163 | B→C buys at buff·(1 + 1/40) and sells at csfloat·(1 − 1/50); C→B the reverse; each net profit is proceeds minus cost; each buy cost is non-zero and ROI·cost = 100·profit |
| `PriceService.NoRoundTripProfit` | src/app/services/price.service.ts:153-163 | for positive prices the two directions' profits sum to less than zero, so at most one direction is profitable |
| `PriceService.ProfitableIffPositiveROI` | src/app/services/price.service.ts:165-180 | for positive prices, an opportunity is profitable exactly when its best ROI is positive |
| `PriceService.SignOfRatio` | src/app/services/price.service.ts:157-163 | with a positive cost, ROI and profit have the same sign |
| `PriceService.WorkedExample` | src/app/services/price.service.ts:137-221 | Buff163 100 and CSFloat 110 with 25 listings: B→C nets 5.3, C→B loses 14.7, B→C is chosen and profitable, Buff163 is cheaper, reliability Medium |
| `PriceService.BuffPrice` | src/app/services/price.service.ts:117 | the Buff163 price is present exactly when the item is listed with a non-zero starting price, and then it is that price |
| `PriceService.CSFloatPrice` | src/app/services/price.service.ts:119 | the CSFloat price is `price` when non-zero, else `avg_price` when non-zero, else absent; a present price is non-zero |
| `PriceService.Quantity` | src/app/services/price.service.ts:128 | `count \|\| null`: a zero count becomes null |
| `PriceService.UniqueNames` | src/app/services/price.service.ts:104-107 | the set of all keys, iterated in insertion order, is `Distinct` of the Buff163 keys followed by the CSFloat keys |
| `PriceService.MergeAndCalculate` | src/app/services/price.service.ts:99-135 | the loop with its two `continue` skips returns `Merged`, the opportunities of the deduplicated names in order |
| `PriceService.FetchArbitrageOpportunities` | src/app/services/price.service.ts:80-97 | the result merges the two feeds, with a failed request replaced by `{}`; if either request failed the result is empty |
| `PriceService.CollectAppend` | src/app/services/price.service.ts:109-131 | walking `xs ++ ys` gives the results for `xs` followed by those for `ys` |
| `PriceService.CollectSound` | src/app/services/price.service.ts:109-131 | every reported opportunity is for a visited name and is exactly what the calculator gives for it |
| `PriceService.CollectComplete` | src/app/services/price.service.ts:109-131 | every visited name priced on both platforms is reported |
| `PriceService.CollectNoDups` | src/app/services/price.service.ts:109-131 | visiting distinct names reports each name at most once |
| `PriceService.CollectNothing` | src/app/services/price.service.ts:114-122 | if no visited name is priced on both platforms, nothing is reported |
| `PriceService.MergedJoinsBothFeeds` | src/app/services/price.service.ts:113-122 | a name is reported exactly when Buff163 gives it a truthy starting price and CSFloat gives it a truthy `price` or `avg_price` |
| `PriceService.MergedEachNameOnce` | src/app/services/price.service.ts:104-109 | no item name is reported twice |
| `PriceService.MergedFollowsBuff163Order` | src/app/services/price.service.ts:104-131 | the output is in Buff163 key order: the CSFloat-only names visited afterwards never have a Buff163 price, so they never appear |
| `PriceService.MergedEntriesComputed` | src/app/services/price.service.ts:113-128 | each reported opportunity carries the item's Buff163 starting price, its CSFloat price (with the `avg_price` fallback) and its count (a zero count turned to null, giving reliability 'N/A'), and equals the calculator's result for those inputs |
| `PriceService.EmptyFeedGivesNothing` | src/app/services/price.service.ts:109-122 | an empty feed on either side, as after a failed request, yields no opportunities |
| `OpportunityTable.DisplayedColumnsSortable` | src/app/opportunities/opportunities.ts:51-62 | every displayed column names a field of the row, a string for all rows or a number for all rows, so sorting by it never meets `undefined` or a mixed pair |
| `OpportunityTable.CompareKeysAntisymmetric` | src/app/opportunities/opportunities.ts:340-349 | comparing two values in the opposite order negates the comparison |
| `OpportunityTable.CompareKeysTransitive` | src/app/opportunities/opportunities.ts:340-349 | for values of the same kind, "at most" is transitive, both for lower-cased strings and for numbers |
| `OpportunityTable.ComparisonAntisymmetric` | src/app/opportunities/opportunities.ts:339-351 | the sort comparator is antisymmetric in either direction |
| `OpportunityTable.ComparisonTransitive` | src/app/opportunities/opportunities.ts:339-351 | the sort comparator's "at most" is transitive for every column and direction |
| `OpportunityTable.TiedTransitive` | src/app/opportunities/opportunities.ts:340-349 | rows tied on a column form an equivalence: ties are transitive |
| `OpportunityTable.Insert` | src/app/opportunities/opportunities.ts:339-351 | inserting a row adds exactly that row to the multiset of rows |
| `OpportunityTable.SortData` | src/app/opportunities/opportunities.ts:335-352 | `sortData` returns a permutation of its input (as a new list; the input is a value and is not changed) |
| `OpportunityTable.OrderedCons` | src/app/opportunities/opportunities.ts:339-351 | a row at most every row of an ordered list can be put in front of it |
| `OpportunityTable.InsertElements` | src/app/opportunities/opportunities.ts:339-351 | after inserting `x`, every row is `x` or came from the list |
| `OpportunityTable.InsertOrdered` | src/app/opportunities/opportunities.ts:339-351 | inserting into an ordered list keeps it ordered |
| `OpportunityTable.SortDataOrdered` | src/app/opportunities/opportunities.ts:335-352 | the sorted list is ordered by the comparator |
| `OpportunityTable.TiedWithCons` | src/app/opportunities/opportunities.ts:339-351 | the rows tied with `k` in `[y] ++ s` are `y` (if tied) followed by those of `s` |
| `OpportunityTable.TiesCompareEqual` | src/app/opportunities/opportunities.ts:339-351 | two rows tied with a third compare equal |
| `OpportunityTable.InsertKeepsTies` | src/app/opportunities/opportunities.ts:339-351 | insertion puts a row before every row it is tied with, so the order among tied rows is kept |
| `OpportunityTable.SortDataStable` | src/app/opportunities/opportunities.ts:339-351 | the sort is stable: rows with equal keys keep their input order |
| `OpportunityTable.SortDataSpec` | src/app/opportunities/opportunities.ts:335-352 | `sortData` returns a permutation of its input, ascending by the column's key (strings lower-cased) for 'asc' and descending for any other direction, with tied rows in input order |
| `OpportunityTable.Visible` | src/app/opportunities/opportunities.ts:298-325 | the visible rows are exactly the rows that pass all four filters, taken from the full list |
| `OpportunityTable.VisibleCounts` | src/app/opportunities/opportunities.ts:298-325 | each row passing all four filters appears as often as in the full list; every other row is absent |
| `OpportunityTable.VisibleAppend` | src/app/opportunities/opportunities.ts:298-325 | the filters keep the input order: the visible rows of two lists joined are those of the first list followed by those of the second |
| `OpportunityTable.VisibleTies` | src/app/opportunities/opportunities.ts:298-325 | the visible rows tied with a row on the sort column are the full list's rows tied with it that pass the filters, in the full list's order |
| `OpportunityTable.FilterThenSortStable` | src/app/opportunities/opportunities.ts:298-352 | after filtering and sorting, each group of rows with equal sort keys holds exactly the passing rows of that group, in the order of the full list |
| `OpportunityTable.VisibleStepwise` | src/app/opportunities/opportunities.ts:302-325 | applying the search, rarity, market and profit filters in turn equals keeping the rows that pass all four |
| `OpportunityTable.DefaultFiltersShowAll` | src/app/opportunities/opportunities.ts:398-403 | with the default filters (empty search, 'all', 'all', 0) every row is visible, in order |
| `OpportunityTable.PageBounds` | src/app/opportunities/opportunities.ts:390-396 | a page holds at most `pageSize` rows, starting at `pageIndex·pageSize`, and is full unless it reaches the end of the list |
| `OpportunityTable.FirstPage` | src/app/opportunities/opportunities.ts:390-396 | page 0 is the first `pageSize` rows, or all of them when there are fewer |
| `OpportunityTable.GetRarityColor` | src/app/opportunities/opportunities.ts:406-416 | a known grade gets its colour; white is returned exactly for a rarity outside the colour table |
| `OpportunityTable.RarityColorsCoverSelector` | src/app/opportunities/opportunities.ts:406-416 | every grade in the rarity selector gets a distinct non-white colour; the 'all' entry gets white |
| `OpportunityTable.GetTrendIcon` | src/app/opportunities/opportunities.ts:418-420 | 'up' gives `trending_up`, 'down' gives `trending_down`, anything else `trending_flat`, each as an if-and-only-if |
| `OpportunityTable.GetTrendColor` | src/app/opportunities/opportunities.ts:422-424 | 'up' gives green, 'down' gives red, anything else orange, each as an if-and-only-if |
| `OpportunityTable.TrendIconAndColorAgree` | src/app/opportunities/opportunities.ts:418-424 | icon and colour classify a trend identically, and the three row trends get three different icons |
| `Opportunities.FilterRows` | src/app/opportunities/opportunities.ts:299-325 | the four guarded `filter` steps yield exactly the visible rows, in order |
| `Opportunities.OpportunitiesComponent.constructor` | src/app/opportunities/opportunities.ts:64-86 | empty lists, default filters, page size 10 at page 0, sorted by profit percent descending; the table is consistent |
| `Opportunities.OpportunitiesComponent.NgOnInit` | src/app/opportunities/opportunities.ts:91-94 | loads the rows, then filters: the table shows the first page of the sorted visible rows |
| `Opportunities.OpportunitiesComponent.ApplyFilters` | src/app/opportunities/opportunities.ts:298-333 | the filtered list becomes the sorted visible rows; the page index becomes 0 and the page the first `pageSize` of them; the rows and settings are unchanged |
| `Opportunities.OpportunitiesComponent.UpdatePaginatedData` | src/app/opportunities/opportunities.ts:390-396 | the page becomes the slice `[pageIndex·pageSize, pageIndex·pageSize + pageSize)` of the filtered list; nothing else changes |
| `Opportunities.OpportunitiesComponent.OnSortChange` | src/app/opportunities/opportunities.ts:354-360 | an event missing a column or direction changes nothing; otherwise the sort settings are taken and the table re-filtered and re-sorted, back at page 0 |
| `Opportunities.OpportunitiesComponent.OnPageChange` | src/app/opportunities/opportunities.ts:384-388 | takes the event's page size and index and re-slices the page; the filtered list is unchanged and a consistent table stays consistent |
| `Opportunities.OpportunitiesComponent.ClearFilters` | src/app/opportunities/opportunities.ts:398-404 | restores the default filters; the filtered list is then the whole list, sorted, at page 0 |
| `Opportunities.OpportunitiesComponent.OnSearchChange` | src/app/opportunities/opportunities.ts:362-366 | only the search term changes among the filters, and the table is re-filtered at page 0 |
| `Opportunities.OpportunitiesComponent.OnRarityChange` | src/app/opportunities/opportunities.ts:368-371 | only the rarity filter changes, and the table is re-filtered at page 0 |
| `Opportunities.OpportunitiesComponent.OnMarketChange` | src/app/opportunities/opportunities.ts:373-376 | only the market filter changes, and the table is re-filtered at page 0 |
| `Opportunities.OpportunitiesComponent.OnMinProfitChange` | src/app/opportunities/opportunities.ts:378-382 | the minimum profit becomes the parsed number, or 0 when none parses; the table is re-filtered at page 0 |

## Left out

- HTTP requests, `forkJoin`, `catchError` and console logging in `fetchArbitrageOpportunities` (src/app/services/price.service.ts:80-97) are asynchronous I/O. `FetchArbitrageOpportunities` takes the outcome of each request as a parameter, with `None` for a failed one.
- IEEE-754 arithmetic: prices, fees, profits and ROI are exact reals. `NaN` and infinities are not modelled, so "truthy" means "present and non-zero".
- `toLowerCase` is modelled on ASCII letters only. String `<` compares characters, not UTF-16 code units. The two agree on names made of characters in the Basic Multilingual Plane.
- The listing count is modelled as an integer. Fractional counts are not modelled.
- JSON `null` inside a feed entry is treated as a missing field.
- The sample rows of `loadMockData` (src/app/opportunities/opportunities.ts:96-296) are constant data. `NgOnInit` takes the rows as a parameter instead.
- DOM event handling and `parseFloat` (src/app/opportunities/opportunities.ts:363,379) are outside the model. `OnSearchChange` receives the input's text; `OnMinProfitChange` receives the parsed number, or `None` when parsing yields `NaN`.
- Angular signals, `computed` and change detection are not modelled: each signal is a plain field, and `totalItems` is the function `TotalItems`.
- The `null` alternatives of the opportunity record's numeric fields, and the value `'N/A'` of `cheaperPlatform` and `bestDirection`, are never produced by the calculator. The record therefore uses plain reals; the enumerations keep the `'N/A'` constructors.
- `getRarityColor` looks rarities up in a plain JavaScript object. Inherited property names such as `constructor` are not modelled; every rarity outside the colour table gets white.
- Sort keys for a column the row type does not have are `undefined`, or, for a name inherited from `Object.prototype` such as `constructor` or `toString`, one value shared by every row. Either way neither `<` nor `>` holds between two rows, so every pair compares equal. `KeyOf` returns `Absent` for all such names, which gives the same comparison.
- `PriceService.CalculateArbitrage`: the contract states only where the details come from. The figures are stated by `ArbitrageFigures` and its lemmas, which take the details as a parameter; `CalculateArbitrage` unfolds to `ArbitrageFigures`.
- `Opportunities.OpportunitiesComponent.UpdatePaginatedData`: the contract ties the page to `Page`. The bounds of `Page` are stated by `PageBounds` and not repeated on the method.
- api/csfloat.js (a CORS proxy), src/app/app.ts, src/app/landing/landing.ts and src/app/app.routes.ts are not part of this model: they hold network forwarding, titles and routes only.

## Notes on the source

- `mergeAndCalculate` reads a CSFloat `price` field that the declared `CSFloatResponse` type does not list (src/app/models/arbitrage.models.ts:13-19, src/app/services/price.service.ts:119). The model follows the code: `CSFloatItem` has an optional `price`.
- The names are visited with the Buff163 keys first, then the new CSFloat keys. But a name without a Buff163 entry has no Buff163 price and is always skipped. So the output follows the Buff163 key order, and the "then CSFloat-only" part never shows (`MergedFollowsBuff163Order`).
- A CSFloat count of 0 becomes `null` through `|| null` and so gives reliability 'N/A', not 'Low' (`MergedEntriesComputed`).
