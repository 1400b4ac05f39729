/**
 * The price-merging service: joins the Buff163 and CSFloat feeds by item
 * name, computes the fee-adjusted arbitrage figures for every item priced on
 * both platforms, and classifies each item by its name.
 */
module PriceService {
  import opened Wrappers
  import opened Text
  import opened Seqs
  import opened ArbitrageModels

  /** Weapon name to category, in the order `Object.entries` visits them. */
  const WEAPON_CATEGORIES: seq<(string, string)> := [
    ("AK-47", "Rifle"),
    ("M4A4", "Rifle"),
    ("M4A1-S", "Rifle"),
    ("AWP", "Sniper Rifle"),
    ("Desert Eagle", "Pistol"),
    ("Glock-18", "Pistol"),
    ("USP-S", "Pistol"),
    ("P2000", "Pistol"),
    ("P250", "Pistol"),
    ("Five-SeveN", "Pistol"),
    ("Tec-9", "Pistol"),
    ("CZ75-Auto", "Pistol"),
    ("Dual Berettas", "Pistol"),
    ("R8 Revolver", "Pistol"),
    ("Nova", "Shotgun"),
    ("XM1014", "Shotgun"),
    ("MAG-7", "Shotgun"),
    ("Sawed-Off", "Shotgun"),
    ("M249", "Heavy"),
    ("Negev", "Heavy"),
    ("MAC-10", "SMG"),
    ("MP9", "SMG"),
    ("MP7", "SMG"),
    ("MP5-SD", "SMG"),
    ("UMP-45", "SMG"),
    ("P90", "SMG"),
    ("PP-Bizon", "SMG"),
    ("FAMAS", "Rifle"),
    ("Galil AR", "Rifle"),
    ("AUG", "Rifle"),
    ("SG 553", "Rifle"),
    ("SSG 08", "Sniper Rifle"),
    ("SCAR-20", "Sniper Rifle"),
    ("G3SG1", "Sniper Rifle"),
    ("Karambit", "Knife"),
    ("Butterfly Knife", "Knife"),
    ("Bayonet", "Knife"),
    ("M9 Bayonet", "Knife"),
    ("Flip Knife", "Knife"),
    ("Gut Knife", "Knife"),
    ("Falchion Knife", "Knife"),
    ("Bowie Knife", "Knife"),
    ("Shadow Daggers", "Knife"),
    ("Huntsman Knife", "Knife"),
    ("Navaja Knife", "Knife"),
    ("Stiletto Knife", "Knife"),
    ("Talon Knife", "Knife"),
    ("Ursus Knife", "Knife"),
    ("Classic Knife", "Knife"),
    ("Paracord Knife", "Knife"),
    ("Survival Knife", "Knife"),
    ("Nomad Knife", "Knife"),
    ("Skeleton Knife", "Knife")
  ]

  const WEAR_CONDITIONS: seq<string> := [
    "Factory New",
    "Minimal Wear",
    "Field-Tested",
    "Well-Worn",
    "Battle-Scarred"
  ]

  const STATTRAK: string := "StatTrak\U{2122}"

  // ---------------------------------------------------------------------------
  // Item-name classification

  datatype ItemDetails = ItemDetails(category: string, wear: string, statTrak: bool, souvenir: bool)

  function Parenthesized(condition: string): string
  {
    "(" + condition + ")"
  }

  /**
   * Position of the first condition, at `from` or later, whose parenthesized
   * form occurs in the name, or `|conditions|` if none does.
   */
  function WearIndex(itemName: string, conditions: seq<string>, from: nat): (i: nat)
    requires from <= |conditions|
    ensures from <= i <= |conditions|
    decreases |conditions| - from
  {
    if from == |conditions| then from
    else if Contains(itemName, Parenthesized(conditions[from])) then from
    else WearIndex(itemName, conditions, from + 1)
  }

  lemma {:induction false} WearIndexIsFirst(itemName: string, conditions: seq<string>, from: nat)
    requires from <= |conditions|
    ensures var i := WearIndex(itemName, conditions, from);
      && (i < |conditions| ==> Contains(itemName, Parenthesized(conditions[i])))
      && forall j :: from <= j < i ==> !Contains(itemName, Parenthesized(conditions[j]))
    decreases |conditions| - from
  {
    if from < |conditions| && !Contains(itemName, Parenthesized(conditions[from])) {
      WearIndexIsFirst(itemName, conditions, from + 1);
    }
  }

  /**
   * Position of the first table entry, at `from` or later, whose weapon name
   * occurs in the item name, or `|table|` if none does.
   */
  function WeaponIndex(itemName: string, table: seq<(string, string)>, from: nat): (i: nat)
    requires from <= |table|
    ensures from <= i <= |table|
    decreases |table| - from
  {
    if from == |table| then from
    else if Contains(itemName, table[from].0) then from
    else WeaponIndex(itemName, table, from + 1)
  }

  lemma {:induction false} WeaponIndexIsFirst(itemName: string, table: seq<(string, string)>, from: nat)
    requires from <= |table|
    ensures var i := WeaponIndex(itemName, table, from);
      && (i < |table| ==> Contains(itemName, table[i].0))
      && forall j :: from <= j < i ==> !Contains(itemName, table[j].0)
    decreases |table| - from
  {
    if from < |table| && !Contains(itemName, table[from].0) {
      WeaponIndexIsFirst(itemName, table, from + 1);
    }
  }

  /**
   * What the service reads off an item name, for a given list of wear
   * conditions and weapon table: the two flags, the first wear condition found
   * in parentheses, the category of the first weapon found, and the gloves
   * override (`FirstMatchDetails` states the matching rules).
   */
  function DetailsWith(itemName: string, conditions: seq<string>, table: seq<(string, string)>): (d: ItemDetails)
    ensures d.statTrak == Contains(itemName, STATTRAK)
    ensures d.souvenir == Contains(itemName, "Souvenir")
  {
    var w := WearIndex(itemName, conditions, 0);
    var k := WeaponIndex(itemName, table, 0);
    var wear := if w < |conditions| then conditions[w] else "N/A";
    var category :=
      if Contains(itemName, "Gloves") then "Gloves"
      else if k < |table| then table[k].1
      else "Unknown";
    ItemDetails(category, wear, Contains(itemName, STATTRAK), Contains(itemName, "Souvenir"))
  }

  /**
   * Wear is the first condition whose "(condition)" form occurs in the name,
   * else "N/A"; the category is that of the first weapon whose name occurs in
   * the item name, else "Unknown"; a name containing "Gloves" is always in
   * category "Gloves".
   */
  lemma FirstMatchDetails(itemName: string, conditions: seq<string>, table: seq<(string, string)>)
    ensures var d := DetailsWith(itemName, conditions, table);
      && ((forall c :: c in conditions ==> !Contains(itemName, Parenthesized(c))) ==> d.wear == "N/A")
      && ((exists c :: c in conditions && Contains(itemName, Parenthesized(c))) ==>
            exists i :: 0 <= i < |conditions| && d.wear == conditions[i]
              && Contains(itemName, Parenthesized(conditions[i]))
              && forall j :: 0 <= j < i ==> !Contains(itemName, Parenthesized(conditions[j])))
      && (Contains(itemName, "Gloves") ==> d.category == "Gloves")
      && (!Contains(itemName, "Gloves") && (forall e :: e in table ==> !Contains(itemName, e.0)) ==>
            d.category == "Unknown")
      && (!Contains(itemName, "Gloves") && (exists e :: e in table && Contains(itemName, e.0)) ==>
            exists i :: 0 <= i < |table| && d.category == table[i].1
              && Contains(itemName, table[i].0)
              && forall j :: 0 <= j < i ==> !Contains(itemName, table[j].0))
  {
    var w := WearIndex(itemName, conditions, 0);
    var k := WeaponIndex(itemName, table, 0);
    WearIndexIsFirst(itemName, conditions, 0);
    WeaponIndexIsFirst(itemName, table, 0);
    if exists c :: c in conditions && Contains(itemName, Parenthesized(c)) {
      var c :| c in conditions && Contains(itemName, Parenthesized(c));
      var i :| 0 <= i < |conditions| && conditions[i] == c;
      assert w <= i;
    }
    if exists e :: e in table && Contains(itemName, e.0) {
      var e :| e in table && Contains(itemName, e.0);
      var i :| 0 <= i < |table| && table[i] == e;
      assert k <= i;
    }
  }

  /** The details `parseItemName` reports, with the service's own tables. */
  function ItemDetailsOf(itemName: string): ItemDetails
  {
    DetailsWith(itemName, WEAR_CONDITIONS, WEAPON_CATEGORIES)
  }

  /** The wear loop of `parseItemName`: the first condition found in parentheses, else "N/A". */
  method FindWear(itemName: string, conditions: seq<string>) returns (wear: string)
    ensures var w := WearIndex(itemName, conditions, 0);
      wear == if w < |conditions| then conditions[w] else "N/A"
  {
    ghost var first := WearIndex(itemName, conditions, 0);
    WearIndexIsFirst(itemName, conditions, 0);
    wear := "N/A";
    var i := 0;
    while i < |conditions|
      invariant 0 <= i <= |conditions|
      invariant forall j :: 0 <= j < i ==> !Contains(itemName, Parenthesized(conditions[j]))
      invariant wear == "N/A"
    {
      if Contains(itemName, Parenthesized(conditions[i])) {
        wear := conditions[i];
        break;
      }
      i := i + 1;
    }
    assert i == first;
  }

  /** The weapon loop of `parseItemName`: the category of the first weapon found, else "Unknown". */
  method FindCategory(itemName: string, table: seq<(string, string)>) returns (category: string)
    ensures var k := WeaponIndex(itemName, table, 0);
      category == if k < |table| then table[k].1 else "Unknown"
  {
    ghost var first := WeaponIndex(itemName, table, 0);
    WeaponIndexIsFirst(itemName, table, 0);
    category := "Unknown";
    var k := 0;
    while k < |table|
      invariant 0 <= k <= |table|
      invariant forall j :: 0 <= j < k ==> !Contains(itemName, table[j].0)
      invariant category == "Unknown"
    {
      if Contains(itemName, table[k].0) {
        category := table[k].1;
        break;
      }
      k := k + 1;
    }
    assert k == first;
  }

  /** `parseItemName`: the two flags, the two loops that stop at the first match, then the gloves override. */
  method ParseItemName(itemName: string) returns (d: ItemDetails)
    ensures d == ItemDetailsOf(itemName)
  {
    var statTrak := Contains(itemName, STATTRAK);
    var souvenir := Contains(itemName, "Souvenir");
    var wear := FindWear(itemName, WEAR_CONDITIONS);
    var category := FindCategory(itemName, WEAPON_CATEGORIES);
    if Contains(itemName, "Gloves") {
      category := "Gloves";
    }
    d := ItemDetails(category, wear, statTrak, souvenir);
  }

  // ---------------------------------------------------------------------------
  // Arbitrage figures for one item

  /** The reliability label for a listing count (`null` when the count is unknown). */
  function ReliabilityOf(qty: Option<int>): (r: Reliability)
    ensures r == Unknown <==> qty.None?
    ensures r == High <==> qty.Some? && qty.value >= 50
    ensures r == Medium <==> qty.Some? && 20 <= qty.value < 50
    ensures r == Low <==> qty.Some? && qty.value < 20
  {
    match qty
    case None => Unknown
    case Some(n) => if n >= 50 then High else if n >= 20 then Medium else Low
  }

  function Rank(r: Reliability): nat
  {
    match r
    case Unknown => 0
    case Low => 1
    case Medium => 2
    case High => 3
  }

  /** More listings never lower the reliability label. */
  lemma ReliabilityMonotone(m: int, n: int)
    requires m <= n
    ensures Rank(ReliabilityOf(Some(m))) <= Rank(ReliabilityOf(Some(n)))
  {
  }

  lemma QuotientTimesDivisor(x: real, y: real)
    requires y != 0.0
    ensures (x / y * 100.0) * y == 100.0 * x
  {
  }

  lemma DifferenceOverPrice(c: real, b: real)
    requires b != 0.0
    ensures (c - b) / b * 100.0 == 100.0 * (c / b - 1.0)
    ensures (c / b) * b == c
  {
    assert (c - b) / b == c / b - b / b;
  }

  /**
   * The body of `calculateArbitrage` once the name has been parsed: every
   * figure for an item priced on both platforms, with the given details.
   */
  function ArbitrageFigures(itemName: string, d: ItemDetails, buff163Price: real, csfloatPrice: real,
                            csfloatQty: Option<int>)
    : (o: ArbitrageOpportunity)
    requires buff163Price != 0.0 && csfloatPrice != 0.0
    ensures o.category == d.category && o.wear == d.wear && o.statTrak == d.statTrak && o.souvenir == d.souvenir
    ensures o.itemName == itemName && o.buff163Price == buff163Price && o.csfloatPrice == csfloatPrice
    ensures o.csfloatQty == csfloatQty
    ensures o.cheaperPlatform == Buff163 <==> buff163Price < csfloatPrice
    ensures o.cheaperPlatform == CSFloat <==> buff163Price >= csfloatPrice
    ensures o.bcNetProfit == SellReceive(csfloatPrice, CSFLOAT_FEES) - BuyCost(buff163Price, BUFF163_FEES)
    ensures o.cbNetProfit == SellReceive(buff163Price, BUFF163_FEES) - BuyCost(csfloatPrice, CSFLOAT_FEES)
    // the better direction; ties go to C→B
    ensures o.bestDirection == BuffToCSFloat <==> o.bcNetProfit > o.cbNetProfit
    ensures o.bestDirection == CSFloatToBuff <==> o.bcNetProfit <= o.cbNetProfit
    ensures o.bestDirection == BuffToCSFloat ==> o.bestProfit == o.bcNetProfit && o.bestROI == o.bcRoi
    ensures o.bestDirection == CSFloatToBuff ==> o.bestProfit == o.cbNetProfit && o.bestROI == o.cbRoi
    ensures o.bestProfit >= o.bcNetProfit && o.bestProfit >= o.cbNetProfit
    ensures o.profitable <==> o.bcNetProfit > 0.0 || o.cbNetProfit > 0.0
    // market data
    ensures o.reliability == ReliabilityOf(csfloatQty)
    ensures o.volume.None? && o.priceVariance.None? && o.zScore.None?
  {
    var rawPriceDiff := csfloatPrice - buff163Price;
    var absRawDiff := if rawPriceDiff < 0.0 then -rawPriceDiff else rawPriceDiff;
    var percentDifference := (rawPriceDiff / buff163Price) * 100.0;
    var cheaperPlatform := if buff163Price < csfloatPrice then Buff163 else CSFloat;
    var priceRatio := csfloatPrice / buff163Price;

    var bcBuyCost := buff163Price * (1.0 + BUFF163_FEES.buyerFee);
    var bcSellReceive := csfloatPrice * (1.0 - CSFLOAT_FEES.sellerFee);
    var bcNetProfit := bcSellReceive - bcBuyCost;
    var bcRoi := (bcNetProfit / bcBuyCost) * 100.0;

    var cbBuyCost := csfloatPrice * (1.0 + CSFLOAT_FEES.buyerFee);
    var cbSellReceive := buff163Price * (1.0 - BUFF163_FEES.sellerFee);
    var cbNetProfit := cbSellReceive - cbBuyCost;
    var cbRoi := (cbNetProfit / cbBuyCost) * 100.0;

    var bestDirection := if bcNetProfit > cbNetProfit then BuffToCSFloat else CSFloatToBuff;
    var bestProfit := if bcNetProfit > cbNetProfit then bcNetProfit else cbNetProfit;
    var bestROI := if bcNetProfit > cbNetProfit then bcRoi else cbRoi;
    var profitable := bestProfit > 0.0;

    ArbitrageOpportunity(
      itemName, d.category, d.wear, d.statTrak, d.souvenir,
      csfloatPrice, buff163Price,
      rawPriceDiff, absRawDiff, percentDifference, cheaperPlatform, priceRatio,
      bcBuyCost, bcSellReceive, bcNetProfit, bcRoi,
      cbBuyCost, cbSellReceive, cbNetProfit, cbRoi,
      bestDirection, bestProfit, bestROI, profitable,
      csfloatQty, None, None, None,
      ReliabilityOf(csfloatQty))
  }

  /**
   * `calculateArbitrage`: parses the name, then computes every figure. Its
   * only caller passes non-zero prices, which keeps every division defined.
   */
  function CalculateArbitrage(itemName: string, buff163Price: real, csfloatPrice: real, csfloatQty: Option<int>)
    : (o: ArbitrageOpportunity)
    requires buff163Price != 0.0 && csfloatPrice != 0.0
    ensures var d := ItemDetailsOf(itemName);
      o.category == d.category && o.wear == d.wear && o.statTrak == d.statTrak && o.souvenir == d.souvenir
  {
    ArbitrageFigures(itemName, ItemDetailsOf(itemName), buff163Price, csfloatPrice, csfloatQty)
  }

  /** The price comparisons: absolute and relative difference, ratio, and which platform lists cheaper. */
  lemma PriceComparison(itemName: string, d: ItemDetails, buff163Price: real, csfloatPrice: real, csfloatQty: Option<int>)
    requires buff163Price != 0.0 && csfloatPrice != 0.0
    ensures var o := ArbitrageFigures(itemName, d, buff163Price, csfloatPrice, csfloatQty);
      && o.rawPriceDiff == csfloatPrice - buff163Price
      && o.absRawDiff >= 0.0 && (o.absRawDiff == o.rawPriceDiff || o.absRawDiff == -o.rawPriceDiff)
      && o.priceRatio * buff163Price == csfloatPrice
      && o.percentDifference == 100.0 * (o.priceRatio - 1.0)
  {
    DifferenceOverPrice(csfloatPrice, buff163Price);
  }

  /**
   * Each direction buys at the listing price plus the buyer fee of the buying
   * platform and sells at the listing price minus the seller fee of the selling
   * platform; ROI is net profit as a percentage of the buy cost.
   */
  lemma DirectionalFigures(itemName: string, d: ItemDetails, buff163Price: real, csfloatPrice: real, csfloatQty: Option<int>)
    requires buff163Price != 0.0 && csfloatPrice != 0.0
    ensures var o := ArbitrageFigures(itemName, d, buff163Price, csfloatPrice, csfloatQty);
      && o.bcBuyCost == BuyCost(buff163Price, BUFF163_FEES)
      && o.bcSellReceive == SellReceive(csfloatPrice, CSFLOAT_FEES)
      && o.bcNetProfit == o.bcSellReceive - o.bcBuyCost
      && o.bcBuyCost != 0.0 && o.bcRoi * o.bcBuyCost == 100.0 * o.bcNetProfit
      && o.cbBuyCost == BuyCost(csfloatPrice, CSFLOAT_FEES)
      && o.cbSellReceive == SellReceive(buff163Price, BUFF163_FEES)
      && o.cbNetProfit == o.cbSellReceive - o.cbBuyCost
      && o.cbBuyCost != 0.0 && o.cbRoi * o.cbBuyCost == 100.0 * o.cbNetProfit
  {
    var o := ArbitrageFigures(itemName, d, buff163Price, csfloatPrice, csfloatQty);
    QuotientTimesDivisor(o.bcNetProfit, o.bcBuyCost);
    QuotientTimesDivisor(o.cbNetProfit, o.cbBuyCost);
  }


  // ---------------------------------------------------------------------------
  // Arbitrage lemmas

  /** For positive prices, the round trip loses money: at most one direction can be profitable. */
  lemma NoRoundTripProfit(itemName: string, d: ItemDetails, buff163Price: real, csfloatPrice: real, csfloatQty: Option<int>)
    requires buff163Price > 0.0 && csfloatPrice > 0.0
    ensures var o := ArbitrageFigures(itemName, d, buff163Price, csfloatPrice, csfloatQty);
      && o.bcNetProfit + o.cbNetProfit < 0.0
      && !(o.bcNetProfit > 0.0 && o.cbNetProfit > 0.0)
  {
  }

  /** For positive prices, an opportunity is profitable exactly when its best ROI is positive. */
  lemma ProfitableIffPositiveROI(itemName: string, d: ItemDetails, buff163Price: real, csfloatPrice: real, csfloatQty: Option<int>)
    requires buff163Price > 0.0 && csfloatPrice > 0.0
    ensures var o := ArbitrageFigures(itemName, d, buff163Price, csfloatPrice, csfloatQty);
      o.profitable <==> o.bestROI > 0.0
  {
    DirectionalFigures(itemName, d, buff163Price, csfloatPrice, csfloatQty);
    var o := ArbitrageFigures(itemName, d, buff163Price, csfloatPrice, csfloatQty);
    assert o.bcBuyCost > 0.0 && o.cbBuyCost > 0.0;
    if o.bestDirection == BuffToCSFloat {
      SignOfRatio(o.bcNetProfit, o.bcBuyCost, o.bcRoi);
    } else {
      SignOfRatio(o.cbNetProfit, o.cbBuyCost, o.cbRoi);
    }
  }

  lemma SignOfRatio(profit: real, cost: real, roi: real)
    requires cost > 0.0 && roi * cost == 100.0 * profit
    ensures profit > 0.0 <==> roi > 0.0
  {
    if roi > 0.0 {
      assert roi * cost > 0.0;
    } else {
      assert roi * cost <= 0.0;
    }
  }

  /** Buying at 100 on Buff163 and selling at 110 on CSFloat nets 5.3; the reverse loses 14.7. */
  lemma WorkedExample()
    ensures var o := CalculateArbitrage("AK-47 | Redline (Field-Tested)", 100.0, 110.0, Some(25));
      && o.bcNetProfit == 5.3 && o.cbNetProfit == -14.7
      && o.bestDirection == BuffToCSFloat && o.bestProfit == 5.3 && o.profitable
      && o.cheaperPlatform == Buff163 && o.reliability == Medium
  {
  }

  // ---------------------------------------------------------------------------
  // Joining the two feeds

  /** `buff163Item?.starting_at?.price || null` */
  function BuffPrice(buff163Data: Buff163Response, itemName: string): (p: Option<real>)
    ensures p.Some? <==>
              itemName in buff163Data.entries && buff163Data.entries[itemName].startingAt.Some?
              && buff163Data.entries[itemName].startingAt.value != 0.0
    ensures p.Some? ==> p == buff163Data.entries[itemName].startingAt
  {
    if itemName in buff163Data.entries then Or(buff163Data.entries[itemName].startingAt, None) else None
  }

  /** `csfloatItem?.price || csfloatItem?.avg_price || null` */
  function CSFloatPrice(csfloatData: CSFloatResponse, itemName: string): (p: Option<real>)
    ensures p.Some? ==> p.value != 0.0 && itemName in csfloatData.entries
    ensures itemName in csfloatData.entries ==>
              var item := csfloatData.entries[itemName];
              if item.price.Some? && item.price.value != 0.0 then p == item.price
              else if item.avgPrice.Some? && item.avgPrice.value != 0.0 then p == item.avgPrice
              else p.None?
  {
    if itemName in csfloatData.entries
    then Or(Or(csfloatData.entries[itemName].price, csfloatData.entries[itemName].avgPrice), None)
    else None
  }

  /** `csfloatItem?.count || null`: a missing or zero count becomes `null`. */
  function Quantity(csfloatData: CSFloatResponse, itemName: string): (q: Option<int>)
    ensures q.Some? ==> q.value != 0
  {
    if itemName in csfloatData.entries && csfloatData.entries[itemName].count.Some?
       && csfloatData.entries[itemName].count.value != 0
    then csfloatData.entries[itemName].count
    else None
  }

  /** The opportunity for one name, or nothing when either platform lacks a truthy price. */
  function OpportunityFor(buff163Data: Buff163Response, csfloatData: CSFloatResponse, itemName: string)
    : Option<ArbitrageOpportunity>
  {
    var bp, cp := BuffPrice(buff163Data, itemName), CSFloatPrice(csfloatData, itemName);
    if bp.Some? && cp.Some?
    then Some(CalculateArbitrage(itemName, bp.value, cp.value, Quantity(csfloatData, itemName)))
    else None
  }

  /** The opportunities for `names`, in order, skipping the names not priced on both platforms. */
  function Collect(buff163Data: Buff163Response, csfloatData: CSFloatResponse, names: seq<string>)
    : seq<ArbitrageOpportunity>
  {
    if names == [] then []
    else
      var rest := Collect(buff163Data, csfloatData, names[..|names| - 1]);
      match OpportunityFor(buff163Data, csfloatData, names[|names| - 1])
      case Some(o) => rest + [o]
      case None => rest
  }

  /** The names `mergeAndCalculate` visits: `new Set([...Object.keys(buff), ...Object.keys(csfloat)])`. */
  function AllItemNames(buff163Data: Buff163Response, csfloatData: CSFloatResponse): seq<string>
  {
    Distinct(buff163Data.keys + csfloatData.keys)
  }

  /** What `mergeAndCalculate` returns. */
  function Merged(buff163Data: Buff163Response, csfloatData: CSFloatResponse): seq<ArbitrageOpportunity>
  {
    Collect(buff163Data, csfloatData, AllItemNames(buff163Data, csfloatData))
  }

  function ItemNames(opportunities: seq<ArbitrageOpportunity>): (names: seq<string>)
    ensures |names| == |opportunities|
    ensures forall k :: 0 <= k < |names| ==> names[k] == opportunities[k].itemName
  {
    seq(|opportunities|, k requires 0 <= k < |opportunities| => opportunities[k].itemName)
  }

  /** `new Set(keys)` spread back into a list: each name once, in order of first occurrence. */
  method UniqueNames(keys: seq<string>) returns (names: seq<string>)
    ensures names == Distinct(keys)
  {
    names := [];
    for i := 0 to |keys|
      invariant names == Distinct(keys[..i])
    {
      assert keys[..i + 1][..i] == keys[..i];
      if keys[i] !in names {
        names := names + [keys[i]];
      }
    }
    assert keys[..|keys|] == keys;
  }

  /** `mergeAndCalculate`: build the set of names, then visit it, skipping and appending. */
  method MergeAndCalculate(buff163Data: Buff163Response, csfloatData: CSFloatResponse)
    returns (opportunities: seq<ArbitrageOpportunity>)
    ensures opportunities == Merged(buff163Data, csfloatData)
  {
    var allItemNames := UniqueNames(buff163Data.keys + csfloatData.keys);
    opportunities := [];
    for n := 0 to |allItemNames|
      invariant opportunities == Collect(buff163Data, csfloatData, allItemNames[..n])
    {
      var itemName := allItemNames[n];
      assert allItemNames[..n + 1][..n] == allItemNames[..n];
      var inBuff163 := itemName in buff163Data.entries;
      var inCSFloat := itemName in csfloatData.entries;
      if !inBuff163 && !inCSFloat {
        continue;
      }
      var buff163Price := BuffPrice(buff163Data, itemName);
      var csfloatPrice := CSFloatPrice(csfloatData, itemName);
      if buff163Price.None? || csfloatPrice.None? {
        continue;
      }
      var opportunity := CalculateArbitrage(itemName, buff163Price.value, csfloatPrice.value,
                                            Quantity(csfloatData, itemName));
      opportunities := opportunities + [opportunity];
    }
    assert allItemNames[..|allItemNames|] == allItemNames;
  }

  /** The feed `fetchArbitrageOpportunities` passes on: the response, or `{}` when the request failed. */
  function FeedOrEmpty<T>(fetched: Option<Feed<T>>): Feed<T>
  {
    match fetched
    case Some(feed) => feed
    case None => EmptyFeed()
  }

  /**
   * The outcome of `fetchArbitrageOpportunities` once both requests have
   * settled (`None` for a failed request): a failed feed leaves nothing to
   * compare, so the result is empty.
   */
  method FetchArbitrageOpportunities(buff163Fetched: Option<Buff163Response>, csfloatFetched: Option<CSFloatResponse>)
    returns (opportunities: seq<ArbitrageOpportunity>)
    ensures opportunities == Merged(FeedOrEmpty(buff163Fetched), FeedOrEmpty(csfloatFetched))
    ensures buff163Fetched.None? || csfloatFetched.None? ==> opportunities == []
  {
    var buff163 := FeedOrEmpty(buff163Fetched);
    var csfloat := FeedOrEmpty(csfloatFetched);
    opportunities := MergeAndCalculate(buff163, csfloat);
    if buff163Fetched.None? || csfloatFetched.None? {
      EmptyFeedGivesNothing(buff163, csfloat);
    }
  }

  // ---------------------------------------------------------------------------
  // Lemmas about the join

  lemma {:induction false} CollectAppend(buff163Data: Buff163Response, csfloatData: CSFloatResponse,
                                         xs: seq<string>, ys: seq<string>)
    ensures Collect(buff163Data, csfloatData, xs + ys)
         == Collect(buff163Data, csfloatData, xs) + Collect(buff163Data, csfloatData, ys)
    decreases |ys|
  {
    if ys == [] {
      assert xs + ys == xs;
    } else {
      var init := ys[..|ys| - 1];
      assert (xs + ys)[..|xs + ys| - 1] == xs + init;
      assert (xs + ys)[|xs + ys| - 1] == ys[|ys| - 1];
      CollectAppend(buff163Data, csfloatData, xs, init);
    }
  }

  /** Every collected opportunity is the one computed for a name of `names`. */
  lemma {:induction false} CollectSound(buff163Data: Buff163Response, csfloatData: CSFloatResponse, names: seq<string>)
    ensures forall k :: 0 <= k < |Collect(buff163Data, csfloatData, names)| ==>
              var o := Collect(buff163Data, csfloatData, names)[k];
              o.itemName in names && OpportunityFor(buff163Data, csfloatData, o.itemName) == Some(o)
  {
    if names != [] {
      var init, last := names[..|names| - 1], names[|names| - 1];
      CollectSound(buff163Data, csfloatData, init);
      assert names == init + [last];
      var before := Collect(buff163Data, csfloatData, init);
      var r := Collect(buff163Data, csfloatData, names);
      var o := OpportunityFor(buff163Data, csfloatData, last);
      forall k | 0 <= k < |r|
        ensures r[k].itemName in names && OpportunityFor(buff163Data, csfloatData, r[k].itemName) == Some(r[k])
      {
        if k < |before| {
          assert r[k] == before[k];
          assert before[k].itemName in init;
        } else {
          assert o.Some? && r[k] == o.value && o.value.itemName == last;
        }
      }
    }
  }

  /** Every name of `names` priced on both platforms is collected. */
  lemma {:induction false} CollectComplete(buff163Data: Buff163Response, csfloatData: CSFloatResponse, names: seq<string>)
    ensures forall n :: n in names && OpportunityFor(buff163Data, csfloatData, n).Some? ==>
              n in ItemNames(Collect(buff163Data, csfloatData, names))
  {
    if names != [] {
      var init := names[..|names| - 1];
      CollectComplete(buff163Data, csfloatData, init);
      var last := names[|names| - 1];
      var before := Collect(buff163Data, csfloatData, init);
      var after := Collect(buff163Data, csfloatData, names);
      assert before <= after;
      assert forall n :: n in ItemNames(before) ==> n in ItemNames(after) by {
        forall n | n in ItemNames(before) ensures n in ItemNames(after) {
          var k :| 0 <= k < |before| && ItemNames(before)[k] == n;
          assert ItemNames(after)[k] == n;
        }
      }
      var o := OpportunityFor(buff163Data, csfloatData, last);
      if o.Some? {
        assert ItemNames(after)[|after| - 1] == last;
      }
      assert names == init + [last];
    }
  }

  /** Distinct names give distinct opportunities. */
  lemma {:induction false} CollectNoDups(buff163Data: Buff163Response, csfloatData: CSFloatResponse, names: seq<string>)
    requires NoDups(names)
    ensures NoDups(ItemNames(Collect(buff163Data, csfloatData, names)))
  {
    if names != [] {
      var init := names[..|names| - 1];
      var last := names[|names| - 1];
      assert NoDups(init);
      CollectNoDups(buff163Data, csfloatData, init);
      CollectSound(buff163Data, csfloatData, init);
      var before := Collect(buff163Data, csfloatData, init);
      var o := OpportunityFor(buff163Data, csfloatData, last);
      if o.Some? {
        assert last !in init;
        var after := before + [o.value];
        forall i, j | 0 <= i < j < |after| ensures after[i].itemName != after[j].itemName {
          if j == |after| - 1 {
            assert after[i].itemName in init;
          } else {
            assert ItemNames(before)[i] != ItemNames(before)[j];
          }
        }
      }
    }
  }

  /** Names with no opportunity contribute nothing. */
  lemma {:induction false} CollectNothing(buff163Data: Buff163Response, csfloatData: CSFloatResponse, names: seq<string>)
    requires forall n :: n in names ==> OpportunityFor(buff163Data, csfloatData, n).None?
    ensures Collect(buff163Data, csfloatData, names) == []
  {
    if names != [] {
      CollectNothing(buff163Data, csfloatData, names[..|names| - 1]);
    }
  }

  /**
   * An item name appears in the result exactly when its Buff163 starting price
   * and its CSFloat price (or average price) are both present and non-zero.
   */
  lemma MergedJoinsBothFeeds(buff163Data: Buff163Response, csfloatData: CSFloatResponse)
    requires buff163Data.Valid() && csfloatData.Valid()
    ensures forall name :: name in ItemNames(Merged(buff163Data, csfloatData)) <==>
              BuffPrice(buff163Data, name).Some? && CSFloatPrice(csfloatData, name).Some?
  {
    var names := AllItemNames(buff163Data, csfloatData);
    var r := Merged(buff163Data, csfloatData);
    CollectSound(buff163Data, csfloatData, names);
    CollectComplete(buff163Data, csfloatData, names);
    forall name
      ensures name in ItemNames(r) <==> BuffPrice(buff163Data, name).Some? && CSFloatPrice(csfloatData, name).Some?
    {
      if name in ItemNames(r) {
        var k :| 0 <= k < |r| && ItemNames(r)[k] == name;
        assert OpportunityFor(buff163Data, csfloatData, name).Some?;
      }
      if BuffPrice(buff163Data, name).Some? && CSFloatPrice(csfloatData, name).Some? {
        assert name in buff163Data.keys;
        assert name in buff163Data.keys + csfloatData.keys;
      }
    }
  }

  /** Each item name appears at most once in the result. */
  lemma MergedEachNameOnce(buff163Data: Buff163Response, csfloatData: CSFloatResponse)
    ensures NoDups(ItemNames(Merged(buff163Data, csfloatData)))
  {
    CollectNoDups(buff163Data, csfloatData, AllItemNames(buff163Data, csfloatData));
  }

  /**
   * The result follows the Buff163 feed's key order. The names only CSFloat
   * lists, which the name set places after the Buff163 keys, never have a
   * Buff163 price and so never survive.
   */
  lemma MergedFollowsBuff163Order(buff163Data: Buff163Response, csfloatData: CSFloatResponse)
    requires buff163Data.Valid()
    ensures Merged(buff163Data, csfloatData) == Collect(buff163Data, csfloatData, buff163Data.keys)
  {
    var bk, ck := buff163Data.keys, csfloatData.keys;
    DistinctExtends(bk, ck);
    var all := Distinct(bk + ck);
    var extra := all[|bk|..];
    assert all == bk + extra;
    CollectAppend(buff163Data, csfloatData, bk, extra);
    forall n | n in extra ensures OpportunityFor(buff163Data, csfloatData, n).None? {
      assert n !in buff163Data.entries;
    }
    CollectNothing(buff163Data, csfloatData, extra);
  }

  /**
   * Every opportunity in the result is computed from that item's Buff163
   * starting price, its CSFloat price (falling back to the average price when
   * the price is zero or missing), and its listing count, a zero count
   * counting as unknown.
   */
  lemma MergedEntriesComputed(buff163Data: Buff163Response, csfloatData: CSFloatResponse)
    ensures forall o :: o in Merged(buff163Data, csfloatData) ==>
              && o.itemName in buff163Data.entries && o.itemName in csfloatData.entries
              && var bi, ci := buff163Data.entries[o.itemName], csfloatData.entries[o.itemName];
              && bi.startingAt == Some(o.buff163Price) && o.buff163Price != 0.0
              && (if ci.price.Some? && ci.price.value != 0.0 then o.csfloatPrice == ci.price.value
                  else ci.avgPrice == Some(o.csfloatPrice) && o.csfloatPrice != 0.0)
              && o.csfloatQty == (if ci.count == Some(0) then None else ci.count)
              && (ci.count.None? || ci.count == Some(0) ==> o.reliability == Unknown)
              && o == CalculateArbitrage(o.itemName, o.buff163Price, o.csfloatPrice, o.csfloatQty)
  {
    var r := Merged(buff163Data, csfloatData);
    CollectSound(buff163Data, csfloatData, AllItemNames(buff163Data, csfloatData));
    forall o | o in r
      ensures o.itemName in buff163Data.entries && o.itemName in csfloatData.entries
      ensures var bi, ci := buff163Data.entries[o.itemName], csfloatData.entries[o.itemName];
              && bi.startingAt == Some(o.buff163Price) && o.buff163Price != 0.0
              && (if ci.price.Some? && ci.price.value != 0.0 then o.csfloatPrice == ci.price.value
                  else ci.avgPrice == Some(o.csfloatPrice) && o.csfloatPrice != 0.0)
              && o.csfloatQty == (if ci.count == Some(0) then None else ci.count)
              && (ci.count.None? || ci.count == Some(0) ==> o.reliability == Unknown)
              && o == CalculateArbitrage(o.itemName, o.buff163Price, o.csfloatPrice, o.csfloatQty)
    {
      var k :| 0 <= k < |r| && r[k] == o;
      assert OpportunityFor(buff163Data, csfloatData, o.itemName) == Some(o);
    }
  }

  /** If either feed is empty, as after a failed request, nothing is reported. */
  lemma EmptyFeedGivesNothing(buff163Data: Buff163Response, csfloatData: CSFloatResponse)
    requires buff163Data.entries == map[] || csfloatData.entries == map[]
    ensures Merged(buff163Data, csfloatData) == []
  {
    CollectNothing(buff163Data, csfloatData, AllItemNames(buff163Data, csfloatData));
  }
}
