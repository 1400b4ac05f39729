/**
 * Record shapes of the two marketplace price feeds and of one computed
 * arbitrage opportunity, and the fixed platform fees.
 */
module ArbitrageModels {
  import opened Wrappers

  /**
   * A JSON object keyed by item name: `keys` is the order `Object.keys` gives,
   * `entries` the value stored under each key.
   */
  datatype Feed<T> = Feed(keys: seq<string>, entries: map<string, T>)
  {
    /** What a parsed JSON object guarantees: each key once, and exactly the keys that have a value. */
    predicate Valid()
    {
      && (forall i, j :: 0 <= i < j < |keys| ==> keys[i] != keys[j])
      && (forall k :: k in keys ==> k in entries)
      && (forall k :: k in entries ==> k in keys)
    }
  }

  /** The feed a failed request is replaced with: `{}`. */
  function EmptyFeed<T>(): (f: Feed<T>)
    ensures f.Valid() && f.entries == map[]
  {
    Feed([], map[])
  }

  /** One Buff163 entry; `None` stands for a missing `starting_at`/`highest_order` object or price. */
  datatype Buff163Item = Buff163Item(startingAt: Option<real>, highestOrder: Option<real>)

  /** One CSFloat entry. The code also reads a `price` field that the declared interface omits. */
  datatype CSFloatItem = CSFloatItem(
    price: Option<real>,
    avgPrice: Option<real>,
    avgListPrice: Option<real>,
    count: Option<int>)

  type Buff163Response = Feed<Buff163Item>
  type CSFloatResponse = Feed<CSFloatItem>

  /** 'CSFloat' | 'Buff163' | 'N/A' */
  datatype Platform = CSFloat | Buff163 | NoPlatform

  /** 'B→C' (buy on Buff163, sell on CSFloat) | 'C→B' | 'N/A' */
  datatype Direction = BuffToCSFloat | CSFloatToBuff | NoDirection

  /** 'High' | 'Medium' | 'Low' | 'N/A' */
  datatype Reliability = High | Medium | Low | Unknown

  /**
   * The computed opportunity. The price and profit fields are typed
   * `number | null` in the record shape, but the calculator always fills them,
   * so they are plain reals here.
   */
  datatype ArbitrageOpportunity = ArbitrageOpportunity(
    itemName: string,
    category: string,
    wear: string,
    statTrak: bool,
    souvenir: bool,
    csfloatPrice: real,
    buff163Price: real,
    rawPriceDiff: real,
    absRawDiff: real,
    percentDifference: real,
    cheaperPlatform: Platform,
    priceRatio: real,
    bcBuyCost: real,
    bcSellReceive: real,
    bcNetProfit: real,
    bcRoi: real,
    cbBuyCost: real,
    cbSellReceive: real,
    cbNetProfit: real,
    cbRoi: real,
    bestDirection: Direction,
    bestProfit: real,
    bestROI: real,
    profitable: bool,
    csfloatQty: Option<int>,
    volume: Option<real>,
    priceVariance: Option<real>,
    zScore: Option<real>,
    reliability: Reliability)

  /** The fees one platform charges, as fractions of the price. */
  datatype Fees = Fees(buyerFee: real, sellerFee: real)

  const BUFF163_FEES: Fees := Fees(0.025, 0.025)
  const CSFLOAT_FEES: Fees := Fees(0.02, 0.02)

  /** What a buyer pays for an item listed at `price`. */
  function BuyCost(price: real, fees: Fees): real
  {
    price * (1.0 + fees.buyerFee)
  }

  /** What a seller receives for an item sold at `price`. */
  function SellReceive(price: real, fees: Fees): real
  {
    price * (1.0 - fees.sellerFee)
  }

  /** Buff163 charges 2.5% on both sides and CSFloat 2% on both sides; every fee lies strictly between 0 and 1. */
  lemma FeesAreProperFractions()
    ensures BUFF163_FEES.buyerFee == BUFF163_FEES.sellerFee == 1.0 / 40.0
    ensures CSFLOAT_FEES.buyerFee == CSFLOAT_FEES.sellerFee == 1.0 / 50.0
    ensures forall f :: f in {BUFF163_FEES, CSFLOAT_FEES} ==>
              0.0 < f.buyerFee < 1.0 && 0.0 < f.sellerFee < 1.0
  {
  }

  /** With fees strictly between 0 and 1, buying costs more than the price and selling yields less, but still something. */
  lemma FeesCostMoney(price: real, fees: Fees)
    requires price > 0.0
    requires 0.0 < fees.buyerFee < 1.0 && 0.0 < fees.sellerFee < 1.0
    ensures BuyCost(price, fees) > price
    ensures 0.0 < SellReceive(price, fees) < price
  {
  }
}
