/**
 * utils/option_analysis.py: the put/call ratio signal, the implied
 * volatility skew and the term structure of an index's option chains, and
 * the per-index analysis of the collected option data.
 */
module OptionAnalysis {
  import opened Wrappers
  import opened Numbers
  import opened Dicts
  import opened Dates
  import opened Sorting
  import opened OptionData

  // ----- put/call ratios -----

  /** BEARISH / BULLISH / NEUTRAL, and UNKNOWN for missing data. */
  datatype Signal = Bearish | Bullish | Neutral | Unknown

  /** `_get_signal`. */
  function GetSignal(ratio: real): (s: Signal)
    ensures s == Bearish <==> ratio > 1.2
    ensures s == Bullish <==> ratio < 0.8
    ensures s == Neutral <==> 0.8 <= ratio <= 1.2
    ensures s != Unknown
  {
    if ratio > 1.2 then Bearish
    else if ratio < 0.8 then Bullish
    else Neutral
  }

  /** `_get_signal_strength`: how far the ratio lies outside the neutral band,
      capped at 1. */
  function SignalStrength(ratio: real): (r: real)
    ensures 0.0 <= r <= 1.0
    ensures r == 0.0 <==> GetSignal(ratio) == Neutral
    ensures ratio >= 2.0 || ratio <= 0.4 ==> r == 1.0
  {
    if ratio > 1.2 then Min((ratio - 1.2) / 0.8, 1.0)
    else if ratio < 0.8 then Min((0.8 - ratio) / 0.4, 1.0)
    else 0.0
  }

  /** Further from the neutral band means at least as strong a signal. */
  lemma SignalStrengthMonotone(a: real, b: real)
    ensures 1.2 < a <= b ==> SignalStrength(a) <= SignalStrength(b)
    ensures a <= b < 0.8 ==> SignalStrength(b) <= SignalStrength(a)
  {
  }

  /** `put / call if call > 0 else 0`. */
  function PcRatio(put: real, call: real): (r: real)
    ensures call > 0.0 ==> r * call == put
    ensures call <= 0.0 ==> r == 0.0
  {
    if call > 0.0 then put / call else 0.0
  }

  /** `frame[column].sum()`. */
  function VolumeSum(rows: seq<OptionQuote>): real
    decreases |rows|
  {
    if rows == [] then 0.0 else VolumeSum(rows[..|rows| - 1]) + rows[|rows| - 1].volume
  }

  function OpenInterestSum(rows: seq<OptionQuote>): real
    decreases |rows|
  {
    if rows == [] then 0.0 else OpenInterestSum(rows[..|rows| - 1]) + rows[|rows| - 1].openInterest
  }

  datatype RatioResult = RatioResult(
    volumeRatio: real, oiRatio: real,
    volumeSignal: Signal, oiSignal: Signal, finalSignal: Signal,
    strength: real)

  /** `_empty_ratio_result`. */
  const EMPTY_RATIO_RESULT := RatioResult(0.0, 0.0, Unknown, Unknown, Unknown, 0.0)

  /** `analyze_put_call_ratios`. */
  function AnalyzePutCallRatios(d: ExpiryData): (r: RatioResult)
    ensures IsEmpty(d.calls) || IsEmpty(d.puts) ==> r == EMPTY_RATIO_RESULT
    ensures !IsEmpty(d.calls) && !IsEmpty(d.puts) ==>
      && r.volumeRatio == PcRatio(VolumeSum(d.puts.rows), VolumeSum(d.calls.rows))
      && r.oiRatio == PcRatio(OpenInterestSum(d.puts.rows), OpenInterestSum(d.calls.rows))
      && r.volumeSignal == GetSignal(r.volumeRatio)
      && r.oiSignal == GetSignal(r.oiRatio)
  {
    if IsEmpty(d.calls) || IsEmpty(d.puts) then EMPTY_RATIO_RESULT
    else
      var volumeRatio := PcRatio(VolumeSum(d.puts.rows), VolumeSum(d.calls.rows));
      var oiRatio := PcRatio(OpenInterestSum(d.puts.rows), OpenInterestSum(d.calls.rows));
      var volumeSignal := GetSignal(volumeRatio);
      var oiSignal := GetSignal(oiRatio);
      if volumeSignal == oiSignal then
        RatioResult(volumeRatio, oiRatio, volumeSignal, oiSignal, volumeSignal,
          Max(SignalStrength(volumeRatio), SignalStrength(oiRatio)))
      else
        RatioResult(volumeRatio, oiRatio, volumeSignal, oiSignal, volumeSignal,
          SignalStrength(volumeRatio) * 0.7)
  }

  /** The final signal is always the volume signal; the strength lies in
      [0, 1], is the larger strength when the two signals agree and 0.7 of the
      volume strength when they disagree. */
  lemma RatioSignalCombination(d: ExpiryData)
    ensures var r := AnalyzePutCallRatios(d);
      && r.finalSignal == r.volumeSignal
      && 0.0 <= r.strength <= 1.0
      && (r.finalSignal == Unknown <==> IsEmpty(d.calls) || IsEmpty(d.puts))
      && (r.finalSignal != Unknown && r.volumeSignal == r.oiSignal ==>
            r.strength == Max(SignalStrength(r.volumeRatio), SignalStrength(r.oiRatio)))
      && (r.volumeSignal != r.oiSignal ==> r.strength == 0.7 * SignalStrength(r.volumeRatio) && r.strength <= 0.7)
      && (r.finalSignal == Neutral && r.volumeSignal == r.oiSignal ==> r.strength == 0.0)
  {
  }

  // ----- skew -----

  datatype SkewTrend = LeftSkewed | RightSkewed | SkewNeutral | SkewUnknown

  /** `_get_skew_trend`. */
  function SkewTrendOf(skewLevel: real): (t: SkewTrend)
    ensures t == SkewNeutral <==> -0.02 < skewLevel < 0.02
    ensures t == LeftSkewed <==> skewLevel >= 0.02
    ensures t == RightSkewed <==> skewLevel <= -0.02
  {
    if Abs(skewLevel) < 0.02 then SkewNeutral
    else if skewLevel > 0.0 then LeftSkewed
    else RightSkewed
  }

  /** The implied volatilities are NaN (None) when no option falls in the
      band; the empty result reports 0.0. */
  datatype SkewResult = SkewResult(
    atmIv: Option<real>, otmPutIv: Option<real>, otmCallIv: Option<real>,
    putSkew: real, callSkew: real, skewLevel: real, trend: SkewTrend)

  /** `_empty_skew_result`. */
  const EMPTY_SKEW_RESULT := SkewResult(Some(0.0), Some(0.0), Some(0.0), 0.0, 0.0, 0.0, SkewUnknown)

  /** The moneyness bands: within 1% of the money, 5-10% below, 5-10%
      above. */
  datatype Band = AtTheMoney | OtmPut | OtmCall

  predicate InBand(b: Band, moneyness: real) {
    match b
    case AtTheMoney => Abs(moneyness) < 0.01
    case OtmPut => -0.1 < moneyness < -0.05
    case OtmCall => 0.05 < moneyness < 0.1
  }

  function Moneyness(strike: real, price: real): real
    requires price != 0.0
  {
    strike / price - 1.0
  }

  /** The implied volatilities of the rows whose moneyness lies in a band. */
  function BandIvs(rows: seq<OptionQuote>, price: real, b: Band): (r: seq<real>)
    requires price != 0.0
    ensures |r| <= |rows|
    ensures forall i :: 0 <= i < |r| ==> exists j :: 0 <= j < |rows| && r[i] == rows[j].impliedVolatility
    decreases |rows|
  {
    if rows == [] then []
    else
      var q := rows[|rows| - 1];
      var p := BandIvs(rows[..|rows| - 1], price, b);
      assert forall j :: 0 <= j < |rows| - 1 ==> rows[..|rows| - 1][j] == rows[j];
      p + (if InBand(b, Moneyness(q.strike, price)) then [q.impliedVolatility] else [])
  }

  /** A value is among a band's volatilities exactly when some row whose
      moneyness lies in the band carries it. */
  lemma BandIvsMembers(rows: seq<OptionQuote>, price: real, b: Band)
    requires price != 0.0
    ensures forall x :: x in BandIvs(rows, price, b) <==>
      exists j :: 0 <= j < |rows| && InBand(b, Moneyness(rows[j].strike, price)) && x == rows[j].impliedVolatility
  {
    forall x ensures x in BandIvs(rows, price, b) <==>
      exists j :: 0 <= j < |rows| && InBand(b, Moneyness(rows[j].strike, price)) && x == rows[j].impliedVolatility
    {
      BandIvsMember(rows, price, b, x);
    }
  }

  lemma {:induction false} BandIvsMember(rows: seq<OptionQuote>, price: real, b: Band, x: real)
    requires price != 0.0
    ensures x in BandIvs(rows, price, b) <==>
      exists j :: 0 <= j < |rows| && InBand(b, Moneyness(rows[j].strike, price)) && x == rows[j].impliedVolatility
    decreases |rows|
  {
    if rows != [] {
      var n := |rows| - 1;
      var p := rows[..n];
      BandIvsMember(p, price, b, x);
      if x in BandIvs(p, price, b) {
        var j :| 0 <= j < |p| && InBand(b, Moneyness(p[j].strike, price)) && x == p[j].impliedVolatility;
        assert rows[j] == p[j];
      }
      if exists j :: 0 <= j < |rows| && InBand(b, Moneyness(rows[j].strike, price)) && x == rows[j].impliedVolatility {
        var j :| 0 <= j < |rows| && InBand(b, Moneyness(rows[j].strike, price)) && x == rows[j].impliedVolatility;
        if j < n {
          assert p[j] == rows[j];
        }
      }
    }
  }

  /** `(wing - atm) if both are defined else 0`. */
  function WingSkew(wing: Option<real>, atm: Option<real>): real {
    if wing.Some? && atm.Some? then wing.value - atm.value else 0.0
  }

  /** `analyze_skew`. Both frames must carry implied volatilities: a missing
      column in the calls returns the empty result, one in the puts raises,
      which returns it too. */
  function AnalyzeSkew(d: ExpiryData): (r: SkewResult)
    ensures r.trend == SkewUnknown <==>
      IsEmpty(d.calls) || IsEmpty(d.puts) || d.underlyingPrice == 0.0 || !d.calls.hasIv || !d.puts.hasIv
    ensures r.trend == SkewUnknown ==> r == EMPTY_SKEW_RESULT
    ensures r.trend != SkewUnknown ==>
      && r.atmIv == Mean(BandIvs(d.calls.rows, d.underlyingPrice, AtTheMoney) + BandIvs(d.puts.rows, d.underlyingPrice, AtTheMoney))
      && r.otmPutIv == Mean(BandIvs(d.puts.rows, d.underlyingPrice, OtmPut))
      && r.otmCallIv == Mean(BandIvs(d.calls.rows, d.underlyingPrice, OtmCall))
      && r.putSkew == WingSkew(r.otmPutIv, r.atmIv)
      && r.callSkew == WingSkew(r.otmCallIv, r.atmIv)
      && r.skewLevel == r.putSkew - r.callSkew
      && r.trend == SkewTrendOf(r.skewLevel)
  {
    if IsEmpty(d.calls) || IsEmpty(d.puts) || d.underlyingPrice == 0.0 then EMPTY_SKEW_RESULT
    else if !d.calls.hasIv || !d.puts.hasIv then EMPTY_SKEW_RESULT
    else
      var price := d.underlyingPrice;
      var atmIv := Mean(BandIvs(d.calls.rows, price, AtTheMoney) + BandIvs(d.puts.rows, price, AtTheMoney));
      var otmPutIv := Mean(BandIvs(d.puts.rows, price, OtmPut));
      var otmCallIv := Mean(BandIvs(d.calls.rows, price, OtmCall));
      var putSkew := WingSkew(otmPutIv, atmIv);
      var callSkew := WingSkew(otmCallIv, atmIv);
      var skewLevel := putSkew - callSkew;
      SkewResult(atmIv, otmPutIv, otmCallIv, putSkew, callSkew, skewLevel, SkewTrendOf(skewLevel))
  }

  ghost predicate IvWithin(rows: seq<OptionQuote>, lo: real, hi: real) {
    forall i :: 0 <= i < |rows| ==> lo <= rows[i].impliedVolatility <= hi
  }

  lemma BandIvsWithin(rows: seq<OptionQuote>, price: real, b: Band, lo: real, hi: real)
    requires price != 0.0 && IvWithin(rows, lo, hi)
    ensures forall i :: 0 <= i < |BandIvs(rows, price, b)| ==> lo <= BandIvs(rows, price, b)[i] <= hi
  {
  }

  lemma MeanWithin(s: seq<real>, lo: real, hi: real)
    requires forall i :: 0 <= i < |s| ==> lo <= s[i] <= hi
    ensures Mean(s).Some? ==> lo <= Mean(s).value <= hi
  {
    if s != [] {
      MeanBounds(s, lo, hi);
    }
  }

  /** When every implied volatility lies in [lo, hi], so do the three band
      averages, and each wing's skew is at most the width of that range. */
  lemma SkewWithinRange(d: ExpiryData, lo: real, hi: real)
    requires lo <= 0.0 <= hi
    requires IvWithin(d.calls.rows, lo, hi) && IvWithin(d.puts.rows, lo, hi)
    ensures var r := AnalyzeSkew(d);
      && (r.atmIv.Some? ==> lo <= r.atmIv.value <= hi)
      && (r.otmPutIv.Some? ==> lo <= r.otmPutIv.value <= hi)
      && (r.otmCallIv.Some? ==> lo <= r.otmCallIv.value <= hi)
      && Abs(r.putSkew) <= hi - lo
      && Abs(r.callSkew) <= hi - lo
  {
    var r := AnalyzeSkew(d);
    if r.trend != SkewUnknown {
      var price := d.underlyingPrice;
      var a := BandIvs(d.calls.rows, price, AtTheMoney);
      var b := BandIvs(d.puts.rows, price, AtTheMoney);
      BandIvsWithin(d.calls.rows, price, AtTheMoney, lo, hi);
      BandIvsWithin(d.puts.rows, price, AtTheMoney, lo, hi);
      BandIvsWithin(d.puts.rows, price, OtmPut, lo, hi);
      BandIvsWithin(d.calls.rows, price, OtmCall, lo, hi);
      assert forall i :: 0 <= i < |a + b| ==> (a + b)[i] == (if i < |a| then a[i] else b[i - |a|]);
      MeanWithin(a + b, lo, hi);
      MeanWithin(BandIvs(d.puts.rows, price, OtmPut), lo, hi);
      MeanWithin(BandIvs(d.calls.rows, price, OtmCall), lo, hi);
    }
  }

  // ----- term structure -----

  datatype TermTrend = Contango | Backwardation | Flat | TermUnknown

  /** `_get_term_trend`. */
  function TermTrendOf(slope: real): (t: TermTrend)
    ensures t == Flat <==> -0.0001 < slope < 0.0001
    ensures t == Contango <==> slope >= 0.0001
    ensures t == Backwardation <==> slope <= -0.0001
  {
    if Abs(slope) < 0.0001 then Flat
    else if slope > 0.0 then Contango
    else Backwardation
  }

  datatype TermPoint = TermPoint(expiry: Day, atmIv: real)

  datatype TermResult = TermResult(points: seq<TermPoint>, slope: real, trend: TermTrend)

  /** `_empty_term_result`. */
  const EMPTY_TERM_RESULT := TermResult([], 0.0, TermUnknown)

  /** The sort key: earlier expiry first. */
  predicate ExpiryLe(a: TermPoint, b: TermPoint) {
    Ordinal(a.expiry) <= Ordinal(b.expiry)
  }

  lemma ExpiryLeTotal()
    ensures TotalPreorder(ExpiryLe)
  {
  }

  /** The points the loop collects: one per entry whose ATM volatility is
      defined, or `None` when such an entry has no expiry date (parsing it
      raises). */
  function TermPoints(options: seq<ExpiryData>): (r: Option<seq<TermPoint>>)
    ensures r.Some? ==> |r.value| <= |options|
    decreases |options|
  {
    if options == [] then Some([])
    else
      var d := options[|options| - 1];
      match TermPoints(options[..|options| - 1])
      case None => None
      case Some(ps) =>
        match AnalyzeSkew(d).atmIv
        case None => Some(ps)
        case Some(iv) =>
          match d.expiry
          case None => None
          case Some(e) => Some(ps + [TermPoint(e, iv)])
  }

  /** The collected points are exactly the (expiry, ATM volatility) pairs of
      the entries whose ATM volatility is defined, and collection fails
      exactly when one of those entries has no expiry. */
  lemma {:induction false} TermPointsMembers(options: seq<ExpiryData>)
    ensures TermPoints(options).None? <==>
      exists d :: d in options && AnalyzeSkew(d).atmIv.Some? && d.expiry.None?
    ensures TermPoints(options).Some? ==>
      forall d :: d in options && AnalyzeSkew(d).atmIv.Some? ==>
        d.expiry.Some? && TermPoint(d.expiry.value, AnalyzeSkew(d).atmIv.value) in TermPoints(options).value
    ensures TermPoints(options).Some? ==>
      forall q :: q in TermPoints(options).value ==>
        exists d :: d in options && AnalyzeSkew(d).atmIv == Some(q.atmIv) && d.expiry == Some(q.expiry)
    decreases |options|
  {
    if options != [] {
      var n := |options| - 1;
      var p := options[..n];
      var d := options[n];
      assert options == p + [d];
      TermPointsMembers(p);
      forall x | x in p ensures x in options {
      }
    }
  }

  /** The slope between the first and last points of a sorted term structure,
      per day of expiry difference (0 when they share an expiry). */
  function TermSlope(sorted: seq<TermPoint>): (r: real)
    requires sorted != []
    ensures var days := Ordinal(sorted[|sorted| - 1].expiry) - Ordinal(sorted[0].expiry);
      && (days > 0 ==> r * days as real == sorted[|sorted| - 1].atmIv - sorted[0].atmIv)
      && (days <= 0 ==> r == 0.0)
  {
    var first := sorted[0];
    var last := sorted[|sorted| - 1];
    var days := Ordinal(last.expiry) - Ordinal(first.expiry);
    if days > 0 then (last.atmIv - first.atmIv) / days as real else 0.0
  }

  /** `analyze_term_structure`. */
  function TermStructure(options: seq<ExpiryData>): (r: TermResult)
    ensures r.trend == TermUnknown <==> TermPoints(options).None? || TermPoints(options).value == []
    ensures r.trend == TermUnknown ==> r == EMPTY_TERM_RESULT
    ensures r.trend != TermUnknown ==>
      && r.points == Sort(TermPoints(options).value, ExpiryLe)
      && r.slope == TermSlope(r.points)
      && r.trend == TermTrendOf(r.slope)
  {
    if options == [] then EMPTY_TERM_RESULT
    else
      match TermPoints(options)
      case None => EMPTY_TERM_RESULT
      case Some(ps) =>
        if ps == [] then EMPTY_TERM_RESULT
        else
          var sorted := Sort(ps, ExpiryLe);
          var slope := TermSlope(sorted);
          TermResult(sorted, slope, TermTrendOf(slope))
  }

  /** The term structure lists exactly the collected points, by expiry; its
      first point is the first collected one with the earliest expiry and its
      last point the last one with the latest expiry. */
  lemma TermStructureOrder(options: seq<ExpiryData>)
    requires TermPoints(options).Some? && TermPoints(options).value != []
    ensures var ps := TermPoints(options).value;
      var r := TermStructure(options);
      && Sorted(r.points, ExpiryLe)
      && multiset(r.points) == multiset(ps)
      && r.points[0] == ps[FirstMin(ps, ExpiryLe)]
      && r.points[|r.points| - 1] == ps[LastMax(ps, ExpiryLe)]
  {
    var ps := TermPoints(options).value;
    assert TermStructure(options).points == Sort(ps, ExpiryLe);
    ExpiryLeTotal();
    SortCorrect(ps, ExpiryLe);
    SortFirst(ps, ExpiryLe);
    SortLast(ps, ExpiryLe);
  }

  /** A rising term structure (contango) means the latest expiry's volatility
      is above the earliest's, a falling one (backwardation) below it. */
  lemma TermTrendMeaning(options: seq<ExpiryData>)
    ensures var r := TermStructure(options);
      && (r.trend == Contango ==> r.points[|r.points| - 1].atmIv > r.points[0].atmIv)
      && (r.trend == Backwardation ==> r.points[|r.points| - 1].atmIv < r.points[0].atmIv)
  {
    var r := TermStructure(options);
    if r.trend != TermUnknown {
      var sorted := Sort(TermPoints(options).value, ExpiryLe);
      assert r == TermResult(sorted, TermSlope(sorted), TermTrendOf(TermSlope(sorted)));
      SlopeTrend(sorted);
    }
  }

  /** The sign of the slope is the sign of the volatility change. */
  lemma SlopeTrend(sorted: seq<TermPoint>)
    requires sorted != []
    ensures TermTrendOf(TermSlope(sorted)) == Contango ==> sorted[|sorted| - 1].atmIv > sorted[0].atmIv
    ensures TermTrendOf(TermSlope(sorted)) == Backwardation ==> sorted[|sorted| - 1].atmIv < sorted[0].atmIv
  {
    var days := Ordinal(sorted[|sorted| - 1].expiry) - Ordinal(sorted[0].expiry);
    if days > 0 {
      SlopeSign(sorted[|sorted| - 1].atmIv - sorted[0].atmIv, days as real);
    }
  }

  lemma SlopeSign(diff: real, days: real)
    requires days > 0.0
    ensures diff / days > 0.0 ==> diff > 0.0
    ensures diff / days < 0.0 ==> diff < 0.0
  {
    if diff <= 0.0 {
      assert diff / days <= 0.0;
    }
    if diff >= 0.0 {
      assert diff / days >= 0.0;
    }
  }

  /** The loop of `analyze_term_structure`. */
  method AnalyzeTermStructure(options: seq<ExpiryData>) returns (r: TermResult)
    ensures r == TermStructure(options)
  {
    if options == [] {
      return EMPTY_TERM_RESULT;
    }
    var points: seq<TermPoint> := [];
    var i := 0;
    while i < |options|
      invariant 0 <= i <= |options|
      invariant TermPoints(options[..i]) == Some(points)
    {
      assert options[..i + 1][..i] == options[..i];
      var d := options[i];
      var skew := AnalyzeSkew(d);
      if skew.atmIv.Some? {
        if d.expiry.None? {
          NoneAbsorbs(options, i + 1);
          return EMPTY_TERM_RESULT;
        }
        points := points + [TermPoint(d.expiry.value, skew.atmIv.value)];
      }
      i := i + 1;
    }
    assert options[..i] == options;
    if points == [] {
      return EMPTY_TERM_RESULT;
    }
    var sorted := Sort(points, ExpiryLe);
    var slope := TermSlope(sorted);
    r := TermResult(sorted, slope, TermTrendOf(slope));
  }

  /** Once an entry without an expiry is reached, the whole structure is
      empty. */
  lemma {:induction false} NoneAbsorbs(options: seq<ExpiryData>, k: nat)
    requires k <= |options| && TermPoints(options[..k]).None?
    ensures TermPoints(options).None?
    decreases |options| - k
  {
    if k < |options| {
      assert options[..k + 1][..k] == options[..k];
      NoneAbsorbs(options, k + 1);
    } else {
      assert options[..k] == options;
    }
  }

  // ----- per index -----

  datatype Analysis = Analysis(ratios: RatioResult, skew: SkewResult, termStructure: TermResult)

  /** The analysis of one index: ratios and skew of the first (nearest) entry,
      term structure of all; an empty list is skipped. */
  function AnalyzeIndex(options: seq<ExpiryData>): (r: Option<Analysis>)
    ensures r.None? <==> options == []
    ensures r.Some? ==>
      && r.value.ratios == AnalyzePutCallRatios(options[0])
      && r.value.skew == AnalyzeSkew(options[0])
      && r.value.termStructure == TermStructure(options)
  {
    if options == [] then None
    else Some(Analysis(AnalyzePutCallRatios(options[0]), AnalyzeSkew(options[0]), TermStructure(options)))
  }

  /** `analyze_market_options`. */
  method AnalyzeMarketOptions(marketData: Dict<seq<ExpiryData>>) returns (results: Dict<Analysis>)
    ensures results == Collected(marketData, AnalyzeIndex)
  {
    results := [];
    var i := 0;
    while i < |marketData|
      invariant 0 <= i <= |marketData|
      invariant results == Collected(marketData[..i], AnalyzeIndex)
    {
      assert marketData[..i + 1][..i] == marketData[..i];
      var (name, options) := marketData[i];
      if options != [] {
        var pcRatios := AnalyzePutCallRatios(options[0]);
        var skew := AnalyzeSkew(options[0]);
        var termStructure := AnalyzeTermStructure(options);
        results := Put(results, name, Analysis(pcRatios, skew, termStructure));
      }
      i := i + 1;
    }
    assert marketData[..i] == marketData;
  }

  /** An index is analysed exactly when its option list is non-empty, and its
      analysis is the one of that list. */
  lemma MarketAnalysisSpec(marketData: Dict<seq<ExpiryData>>, k: int)
    requires DistinctKeys(marketData) && 0 <= k < |marketData|
    ensures marketData[k].0 in Keys(Collected(marketData, AnalyzeIndex)) <==> marketData[k].1 != []
    ensures Get(Collected(marketData, AnalyzeIndex), marketData[k].0) == AnalyzeIndex(marketData[k].1)
  {
    CollectedValue(marketData, AnalyzeIndex, k);
  }
}
