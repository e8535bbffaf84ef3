/**
 * utils/us_market.py: the quote computed from a US index history, and the
 * dict of quotes for the configured indices. The history fetch is a
 * parameter: `history(ticker)` is None when the fetch raised.
 */
module UsMarket {
  import opened Wrappers
  import opened History
  import opened Dicts
  import Settings

  datatype UsQuote = UsQuote(
    close: real, volume: real, change: real,
    yearHigh: real, yearLow: real, yearHighRatio: real)

  /** The previous close and the 52-week high, which the percentages divide
      by, are non-zero. */
  predicate Divisible(hist: Option<seq<Bar>>) {
    hist.None? || hist.value == [] || (Previous(hist.value).close != 0.0 && MaxHigh(hist.value) != 0.0)
  }

  /** `get_market_data` after the fetch. */
  function GetMarketData(hist: Option<seq<Bar>>): (r: Option<UsQuote>)
    requires Divisible(hist)
    ensures r.None? <==> hist.None? || hist.value == []
    ensures r.Some? ==> r.value.close == Latest(hist.value).close && r.value.volume == Latest(hist.value).volume
    ensures r.Some? ==> r.value.change == PercentChange(Latest(hist.value).close, Previous(hist.value).close)
    ensures r.Some? && |hist.value| == 1 ==> r.value.change == 0.0
    ensures r.Some? ==> r.value.yearHigh == MaxHigh(hist.value) && r.value.yearLow == MinLow(hist.value)
    ensures r.Some? ==> r.value.yearHighRatio == PercentChange(Latest(hist.value).close, MaxHigh(hist.value))
  {
    match hist
    case None => None
    case Some(h) =>
      if h == [] then None
      else
        var latest := Latest(h);
        var prev := Previous(h);
        var yearHigh := MaxHigh(h);
        Some(UsQuote(
          latest.close, latest.volume,
          PercentChange(latest.close, prev.close),
          yearHigh, MinLow(h),
          PercentChange(latest.close, yearHigh)))
  }

  /** The daily change is positive exactly when the close rose. */
  lemma ChangeSign(h: seq<Bar>)
    requires h != [] && Previous(h).close > 0.0 && MaxHigh(h) != 0.0
    ensures GetMarketData(Some(h)).value.change > 0.0 <==> Latest(h).close > Previous(h).close
    ensures GetMarketData(Some(h)).value.change < 0.0 <==> Latest(h).close < Previous(h).close
  {
    PercentChangeSign(Latest(h).close, Previous(h).close);
  }

  /** When no close exceeds its day's high, the ratio to the 52-week high is
      never positive. */
  lemma YearHighRatioNonPositive(h: seq<Bar>)
    requires h != [] && Previous(h).close != 0.0 && MaxHigh(h) > 0.0
    requires forall i :: 0 <= i < |h| ==> h[i].close <= h[i].high
    ensures GetMarketData(Some(h)).value.yearHighRatio <= 0.0
  {
    var m := MaxHigh(h);
    assert Latest(h).close <= m;
    PercentChangeSign(Latest(h).close, m);
  }

  function Fetcher(history: string -> Option<seq<Bar>>): string --> Option<UsQuote> {
    (t: string) requires Divisible(history(t)) => GetMarketData(history(t))
  }

  /** `get_all_us_market_data()`. */
  function AllUsMarketData(history: string -> Option<seq<Bar>>): (r: Dict<UsQuote>)
    requires forall i :: 0 <= i < |Settings.US_INDICES| ==> Divisible(history(Settings.US_INDICES[i].1))
    ensures DistinctKeys(r)
  {
    CollectedDistinct(Settings.US_INDICES, Fetcher(history));
    Collected(Settings.US_INDICES, Fetcher(history))
  }

  method GetAllUsMarketData(history: string -> Option<seq<Bar>>) returns (d: Dict<UsQuote>)
    requires forall i :: 0 <= i < |Settings.US_INDICES| ==> Divisible(history(Settings.US_INDICES[i].1))
    ensures d == AllUsMarketData(history)
  {
    d := Collect(Settings.US_INDICES, Fetcher(history));
  }

  /** A name is a key of the result iff it is a configured index whose
      history arrived non-empty. */
  lemma AllUsMarketDataKeys(history: string -> Option<seq<Bar>>, k: string)
    requires forall i :: 0 <= i < |Settings.US_INDICES| ==> Divisible(history(Settings.US_INDICES[i].1))
    ensures k in Keys(AllUsMarketData(history)) <==>
      exists i :: 0 <= i < |Settings.US_INDICES| && Settings.US_INDICES[i].0 == k
        && history(Settings.US_INDICES[i].1).Some? && history(Settings.US_INDICES[i].1).value != []
  {
    CollectedKeys(Settings.US_INDICES, Fetcher(history), k);
  }

  /** Each configured index maps to the quote of its own history. */
  lemma AllUsMarketDataValue(history: string -> Option<seq<Bar>>, i: int)
    requires forall i :: 0 <= i < |Settings.US_INDICES| ==> Divisible(history(Settings.US_INDICES[i].1))
    requires 0 <= i < |Settings.US_INDICES|
    ensures Get(AllUsMarketData(history), Settings.US_INDICES[i].0) == GetMarketData(history(Settings.US_INDICES[i].1))
  {
    CollectedValue(Settings.US_INDICES, Fetcher(history), i);
  }
}
