/**
 * The ticker profile: price, market cap and valuation ratios assembled from two
 * quote sources (the fast quote and the full info record) and the price history,
 * each field taken from the first source that has it, the ratios only when their
 * inputs are usable. The three sources are parameters.
 */
module Fundamentals {
  import opened Common

  /** `_first_non_none`: the first present value, keeping falsy ones such as 0. */
  function FirstNonNone<T>(vals: seq<Option<T>>): (r: Option<T>)
    ensures r.None? <==> forall i :: 0 <= i < |vals| ==> vals[i].None?
    ensures forall i :: 0 <= i < |vals| && vals[i].Some? && (forall j :: 0 <= j < i ==> vals[j].None?) ==>
      r == vals[i]
  {
    if vals == [] then None
    else if vals[0].Some? then vals[0]
    else
      var rest := vals[1..];
      assert forall i :: 0 <= i < |rest| ==> rest[i] == vals[i + 1];
      FirstNonNone(rest)
  }

  /** `_first_non_none(a, b)`. */
  function FirstOfTwo<T>(a: Option<T>, b: Option<T>): (r: Option<T>)
    ensures a.Some? ==> r == a
    ensures a.None? ==> r == b
  {
    var vals := [a, b];
    assert vals[0] == a && vals[1] == b;
    FirstNonNone(vals)
  }

  /** The fields of the fast quote the profile reads. */
  datatype FastInfo = FastInfo(lastPrice: Option<real>, lastClose: Option<real>,
                               marketCap: Option<real>, sharesOutstanding: Option<real>)

  /** The fields of the full info record the profile reads. */
  datatype Info = Info(currentPrice: Option<real>, marketCap: Option<real>,
                       trailingPE: Option<real>, forwardPE: Option<real>,
                       freeCashflow: Option<real>, enterpriseValue: Option<real>, ebitda: Option<real>,
                       grossMargins: Option<real>, profitMargins: Option<real>,
                       shortName: Option<string>, longName: Option<string>,
                       sector: Option<string>, industry: Option<string>,
                       longBusinessSummary: Option<string>)

  datatype TickerProfile = TickerProfile(ticker: string, name: Option<string>, sector: Option<string>,
                                         industry: Option<string>, marketCap: Option<real>,
                                         price: Option<real>, pe: Option<real>, pfcf: Option<real>,
                                         evEbitda: Option<real>, grossMargin: Option<real>,
                                         profitMargin: Option<real>, description: Option<string>)

  /** The price: fast last price, else fast last close, else info current price, else the history. */
  function PriceOf(fast: FastInfo, info: Info, history: Option<real>): (r: Option<real>)
    ensures fast.lastPrice.Some? ==> r == fast.lastPrice
    ensures fast.lastPrice.None? && fast.lastClose.Some? ==> r == fast.lastClose
    ensures fast.lastPrice.None? && fast.lastClose.None? && info.currentPrice.Some? ==> r == info.currentPrice
    ensures fast.lastPrice.None? && fast.lastClose.None? && info.currentPrice.None? ==> r == history
  {
    var sources := [fast.lastPrice, fast.lastClose, info.currentPrice, history];
    assert sources[0] == fast.lastPrice && sources[1] == fast.lastClose;
    assert sources[2] == info.currentPrice && sources[3] == history;
    FirstNonNone(sources)
  }

  /** Shares outstanding times price, when both are present and non-zero. */
  function DerivedMarketCap(fast: FastInfo, price: Option<real>): (r: Option<real>)
    ensures r.Some? <==> Truthy(fast.sharesOutstanding) && Truthy(price)
    ensures r.Some? ==> r.value == fast.sharesOutstanding.value * price.value && r.value != 0.0
  {
    if Truthy(fast.sharesOutstanding) && Truthy(price) then
      Some(fast.sharesOutstanding.value * price.value)
    else None
  }

  /** The market cap: fast, else info, else derived from shares and price. */
  function MarketCapOf(fast: FastInfo, info: Info, price: Option<real>): (r: Option<real>)
    ensures fast.marketCap.Some? ==> r == fast.marketCap
    ensures fast.marketCap.None? && info.marketCap.Some? ==> r == info.marketCap
    ensures fast.marketCap.None? && info.marketCap.None? ==> r == DerivedMarketCap(fast, price)
  {
    var sources := [fast.marketCap, info.marketCap, DerivedMarketCap(fast, price)];
    assert sources[0] == fast.marketCap && sources[1] == info.marketCap;
    assert sources[2] == DerivedMarketCap(fast, price);
    FirstNonNone(sources)
  }

  /** A ratio `num / den`, defined only for a non-zero numerator and a positive denominator. */
  function GuardedRatio(num: Option<real>, den: Option<real>): (r: Option<real>)
    ensures r.Some? <==> Truthy(num) && den.Some? && den.value > 0.0
    ensures r.Some? ==> r.value * den.value == num.value && r.value != 0.0
  {
    if Truthy(num) && Truthy(den) && den.value > 0.0 then Some(Quotient(num.value, den.value)) else None
  }

  /** `build_profile` over the three sources. */
  function BuildProfile(ticker: string, fast: FastInfo, info: Info, history: Option<real>): (p: TickerProfile)
    ensures p.ticker == Upper(ticker)
    ensures p.price == PriceOf(fast, info, history)
    ensures p.marketCap == MarketCapOf(fast, info, p.price)
    ensures p.pe == (if info.trailingPE.Some? then info.trailingPE else info.forwardPE)
    ensures p.pfcf.Some? <==> Truthy(p.marketCap) && info.freeCashflow.Some? && info.freeCashflow.value > 0.0
    ensures p.pfcf.Some? ==> p.pfcf.value * info.freeCashflow.value == p.marketCap.value
    ensures p.evEbitda.Some? <==> Truthy(info.enterpriseValue) && info.ebitda.Some? && info.ebitda.value > 0.0
    ensures p.evEbitda.Some? ==> p.evEbitda.value * info.ebitda.value == info.enterpriseValue.value
    ensures p.name == (if info.shortName.Some? then info.shortName else info.longName)
  {
    var price := PriceOf(fast, info, history);
    var marketCap := MarketCapOf(fast, info, price);
    TickerProfile(Upper(ticker), FirstOfTwo(info.shortName, info.longName), info.sector, info.industry,
                  marketCap, price, FirstOfTwo(info.trailingPE, info.forwardPE),
                  GuardedRatio(marketCap, info.freeCashflow),
                  GuardedRatio(info.enterpriseValue, info.ebitda),
                  info.grossMargins, info.profitMargins, info.longBusinessSummary)
  }

  /**
   * A market cap of 0 from the fast quote is kept, not replaced by a later source,
   * and then shuts off the P/FCF ratio.
   */
  lemma ZeroMarketCapIsKept(ticker: string, fast: FastInfo, info: Info, history: Option<real>)
    requires fast.marketCap == Some(0.0)
    ensures BuildProfile(ticker, fast, info, history).marketCap == Some(0.0)
    ensures BuildProfile(ticker, fast, info, history).pfcf == None
  {
  }
}
