/**
 * utils/us_treasury.py: the Fed-rate fallback, the yield record computed
 * from a treasury history, the dict of records for the configured maturities
 * (a table config/settings.py does not define, so a parameter) and the
 * wording of `format_treasury_data`. Standard deviations are supplied by the
 * caller as `std`, with None for pandas' NaN.
 */
module UsTreasury {
  import opened Wrappers
  import opened Numbers
  import opened History
  import opened Dicts

  /** The rate used when the FRED series cannot be read. */
  const FALLBACK_FED_RATE := 5.50

  /** `get_fed_rate()`: the last value of the DFEDTARU series; a failed fetch
      (None) or an empty series (whose `iloc[-1]` raises) gives the fallback. */
  function FedRate(series: Option<seq<real>>): (r: real)
    ensures series.Some? && series.value != [] ==> r == series.value[|series.value| - 1]
    ensures !(series.Some? && series.value != []) ==> r == FALLBACK_FED_RATE
  {
    match series
    case Some(s) => if s != [] then s[|s| - 1] else FALLBACK_FED_RATE
    case None => FALLBACK_FED_RATE
  }

  datatype TreasuryQuote = TreasuryQuote(
    yieldRate: real, change: real, yearHigh: real, yearLow: real,
    ma90: Option<real>, ma180: Option<real>,
    monthlyVolatility: Option<real>, longTermVolatility: Option<real>,
    volatilityRatio: Option<real>, fedSpread: real)

  /** pandas' sample standard deviation: defined from two values on, never
      negative. */
  ghost predicate StdSpec(std: seq<real> -> Option<real>) {
    forall s :: (std(s).Some? <==> |s| >= 2) && (std(s).Some? ==> std(s).value >= 0.0)
  }

  /** `monthly / long_term if long_term > 0 else 0`: an undefined long-term
      deviation fails the test; an undefined monthly one over a positive
      long-term one stays undefined. */
  function VolatilityRatio(monthly: Option<real>, longTerm: Option<real>): (r: Option<real>)
    ensures !(longTerm.Some? && longTerm.value > 0.0) ==> r == Some(0.0)
    ensures longTerm.Some? && longTerm.value > 0.0 ==>
      (r.Some? <==> monthly.Some?) && (r.Some? ==> r.value * longTerm.value == monthly.value)
  {
    if longTerm.Some? && longTerm.value > 0.0 then
      (if monthly.Some? then Some(monthly.value / longTerm.value) else None)
    else Some(0.0)
  }

  /** `get_treasury_data` after the fetch, with the Fed rate it read. */
  function GetTreasuryData(hist: Option<seq<Bar>>, fedRate: real, std: seq<real> -> Option<real>): (r: Option<TreasuryQuote>)
    ensures r.None? <==> hist.None? || hist.value == []
    ensures r.Some? ==> var h := hist.value;
      && r.value.yieldRate == Latest(h).close
      && r.value.change == Latest(h).close - Previous(h).close
      && (|h| == 1 ==> r.value.change == 0.0)
      && r.value.yearHigh == MaxHigh(h) && r.value.yearLow == MinLow(h)
      && (r.value.ma90.Some? <==> |h| >= 90) && (r.value.ma180.Some? <==> |h| >= 180)
      && r.value.ma90 == RollingMeanLast(Closes(h), 90) && r.value.ma180 == RollingMeanLast(Closes(h), 180)
      && r.value.monthlyVolatility == std(Tail(Closes(h), 20)) && r.value.longTermVolatility == std(Closes(h))
      && r.value.volatilityRatio == VolatilityRatio(r.value.monthlyVolatility, r.value.longTermVolatility)
      && r.value.fedSpread == Latest(h).close - fedRate
  {
    match hist
    case None => None
    case Some(h) =>
      if h == [] then None
      else
        var closes := Closes(h);
        var latest := Latest(h);
        var monthly := std(Tail(closes, 20));
        var longTerm := std(closes);
        Some(TreasuryQuote(
          latest.close, latest.close - Previous(h).close,
          MaxHigh(h), MinLow(h),
          RollingMeanLast(closes, 90), RollingMeanLast(closes, 180),
          monthly, longTerm,
          VolatilityRatio(monthly, longTerm),
          latest.close - fedRate))
  }

  /** With a standard deviation that behaves like pandas', the volatility
      ratio is always defined and never negative; a single row gives 0. */
  lemma VolatilityRatioDefined(h: seq<Bar>, fedRate: real, std: seq<real> -> Option<real>)
    requires h != [] && StdSpec(std)
    ensures GetTreasuryData(Some(h), fedRate, std).value.volatilityRatio.Some?
    ensures GetTreasuryData(Some(h), fedRate, std).value.volatilityRatio.value >= 0.0
    ensures |h| == 1 ==> GetTreasuryData(Some(h), fedRate, std).value.volatilityRatio == Some(0.0)
  {
    var closes := Closes(h);
    var monthly := std(Tail(closes, 20));
    var longTerm := std(closes);
    if longTerm.Some? && longTerm.value > 0.0 {
      assert |closes| >= 2;
      assert |Tail(closes, 20)| >= 2;
      DivNonNegative(monthly.value, longTerm.value);
    }
  }

  lemma DivNonNegative(a: real, b: real)
    requires a >= 0.0 && b > 0.0
    ensures a / b >= 0.0
  {
  }

  function Fetcher(history: string -> Option<seq<Bar>>, fedRate: real, std: seq<real> -> Option<real>): string -> Option<TreasuryQuote> {
    (t: string) => GetTreasuryData(history(t), fedRate, std)
  }

  /** `get_all_treasury_data()` over the maturity table `treasuries`; every
      record uses the same Fed rate reading. */
  function AllTreasuryData(treasuries: seq<(string, string)>, history: string -> Option<seq<Bar>>, fedSeries: Option<seq<real>>, std: seq<real> -> Option<real>): (r: Dict<TreasuryQuote>)
    ensures DistinctKeys(r)
  {
    CollectedDistinct(treasuries, Fetcher(history, FedRate(fedSeries), std));
    Collected(treasuries, Fetcher(history, FedRate(fedSeries), std))
  }

  method GetAllTreasuryData(treasuries: seq<(string, string)>, history: string -> Option<seq<Bar>>, fedSeries: Option<seq<real>>, std: seq<real> -> Option<real>) returns (d: Dict<TreasuryQuote>)
    ensures d == AllTreasuryData(treasuries, history, fedSeries, std)
  {
    d := Collect(treasuries, Fetcher(history, FedRate(fedSeries), std));
  }

  /** A maturity is a key iff one of its table entries has a non-empty history;
      with distinct names each maps to the record of its own history, with the
      spread taken against the (possibly fallback) Fed rate. */
  lemma AllTreasuryDataSpec(treasuries: seq<(string, string)>, history: string -> Option<seq<Bar>>, fedSeries: Option<seq<real>>, std: seq<real> -> Option<real>, k: string)
    ensures k in Keys(AllTreasuryData(treasuries, history, fedSeries, std)) <==>
      exists i :: 0 <= i < |treasuries| && treasuries[i].0 == k && history(treasuries[i].1).Some? && history(treasuries[i].1).value != []
    ensures (forall i, j :: 0 <= i < j < |treasuries| ==> treasuries[i].0 != treasuries[j].0) ==>
      forall i :: 0 <= i < |treasuries| && treasuries[i].0 == k ==>
        Get(AllTreasuryData(treasuries, history, fedSeries, std), k) == GetTreasuryData(history(treasuries[i].1), FedRate(fedSeries), std)
  {
    var f := Fetcher(history, FedRate(fedSeries), std);
    CollectedKeys(treasuries, f, k);
    if forall i, j :: 0 <= i < j < |treasuries| ==> treasuries[i].0 != treasuries[j].0 {
      forall i | 0 <= i < |treasuries| && treasuries[i].0 == k
        ensures Get(AllTreasuryData(treasuries, history, fedSeries, std), k) == GetTreasuryData(history(treasuries[i].1), FedRate(fedSeries), std)
      {
        CollectedValue(treasuries, f, i);
      }
    }
  }

  /** Volatility wording: "변동성 크게 확대", "변동성 크게 축소", "보통 수준의 변동성".
      An undefined ratio (NaN) fails both comparisons. */
  datatype VolatilityLevel = Widening | Narrowing | Ordinary

  function VolatilityDescription(ratio: Option<real>): (v: VolatilityLevel)
    ensures v == Widening <==> ratio.Some? && ratio.value > 1.2
    ensures v == Narrowing <==> ratio.Some? && ratio.value < 0.8
    ensures v == Ordinary <==> ratio.None? || 0.8 <= ratio.value <= 1.2
  {
    if ratio.Some? && ratio.value > 1.2 then Widening
    else if ratio.Some? && ratio.value < 0.8 then Narrowing
    else Ordinary
  }

  /** Fed-spread wording: "기준금리와 유사" within 25bp, otherwise the distance
      with "높음" above and "낮음" otherwise. */
  datatype SpreadLevel = NearFedRate | AboveFedRate(gap: real) | BelowFedRate(gap: real)

  function FedSpreadDescription(spread: real): (v: SpreadLevel)
    ensures v == NearFedRate <==> Abs(spread) <= 0.25
    ensures v.AboveFedRate? <==> spread > 0.25
    ensures v.BelowFedRate? <==> spread < -0.25
    ensures !v.NearFedRate? ==> v.gap == Abs(spread) && v.gap > 0.25
  {
    if Abs(spread) <= 0.25 then NearFedRate
    else if spread > 0.0 then AboveFedRate(Abs(spread))
    else BelowFedRate(Abs(spread))
  }

  /** Mirroring the spread swaps "above" and "below" and keeps the distance. */
  lemma FedSpreadSymmetric(spread: real)
    ensures FedSpreadDescription(-spread) == match FedSpreadDescription(spread)
      case NearFedRate => NearFedRate
      case AboveFedRate(g) => BelowFedRate(g)
      case BelowFedRate(g) => AboveFedRate(g)
  {
  }
}
