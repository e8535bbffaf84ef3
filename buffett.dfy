/**
 * utils/buffett_indicator.py: the Buffett indicator (total market value over
 * GDP), its two-year trend band, the valuation of the latest value by z-score
 * and the backtest of that valuation against later S&P 500 returns. The
 * Wilshire 5000, GDP and S&P 500 downloads are parameters (a series, or
 * `None` when the download raised); the sample standard deviation that
 * pandas computes is the parameter `std`.
 */
module Buffett {
  import opened Wrappers
  import opened Numbers
  import opened Seqs
  import opened Dates

  /** One observation of a dated series. */
  datatype Obs = Obs(date: Day, value: real)

  /** A sample standard deviation: defined from two values on, never
      negative. */
  ghost predicate StdSpec(std: seq<real> -> Option<real>) {
    forall s :: (std(s).Some? <==> |s| >= 2) && (std(s).Some? ==> std(s).value >= 0.0)
  }

  // ----- the indicator series -----

  /** A joined row: the date with the market value and the GDP of that date. */
  datatype Joined = Joined(date: Day, marketValue: real, gdp: real)

  /** The rows of `gdp` on the date of one market observation. */
  function Matches(o: Obs, gdp: seq<Obs>): (r: seq<Joined>)
    ensures forall x :: x in r ==> x.date == o.date && x.marketValue == o.value && Obs(x.date, x.gdp) in gdp
    ensures forall j :: 0 <= j < |gdp| && gdp[j].date == o.date ==> Joined(o.date, o.value, gdp[j].value) in r
    decreases |gdp|
  {
    if gdp == [] then []
    else
      var g := gdp[|gdp| - 1];
      assert forall j :: 0 <= j < |gdp| - 1 ==> gdp[..|gdp| - 1][j] == gdp[j];
      Matches(o, gdp[..|gdp| - 1]) + (if g.date == o.date then [Joined(o.date, o.value, g.value)] else [])
  }

  /** `pd.merge(market, gdp, left_index=True, right_index=True, how="inner")`:
      market rows in order, each paired with every GDP row of its date. */
  function InnerJoin(market: seq<Obs>, gdp: seq<Obs>): (r: seq<Joined>)
    ensures forall x :: x in r ==> Obs(x.date, x.marketValue) in market && Obs(x.date, x.gdp) in gdp
    ensures forall i, j :: 0 <= i < |market| && 0 <= j < |gdp| && market[i].date == gdp[j].date ==>
      Joined(market[i].date, market[i].value, gdp[j].value) in r
    decreases |market|
  {
    if market == [] then []
    else
      var n := |market| - 1;
      assert forall i :: 0 <= i < n ==> market[..n][i] == market[i];
      InnerJoin(market[..n], gdp) + Matches(market[n], gdp)
  }

  /** The rolling window: 504 trading days, at least 252 of them. */
  const WINDOW: nat := 504
  const MIN_PERIODS: nat := 252

  /** The values of the window ending at index `t`. */
  function Window(s: seq<real>, t: nat): (w: seq<real>)
    requires t < |s|
    ensures |w| == if t + 1 >= WINDOW then WINDOW else t + 1
    ensures 1 <= |w| <= WINDOW && w == s[t + 1 - |w|..t + 1]
  {
    if t + 1 >= WINDOW then s[t + 1 - WINDOW..t + 1] else s[..t + 1]
  }

  /** `.rolling(window=504, min_periods=252).mean()` at index `t`. */
  function RollingMean(s: seq<real>, t: nat): (r: Option<real>)
    requires t < |s|
    ensures r.Some? <==> t + 1 >= MIN_PERIODS
  {
    if |Window(s, t)| >= MIN_PERIODS then Mean(Window(s, t)) else None
  }

  /** `.rolling(window=504, min_periods=252).std()` at index `t`. */
  function RollingStd(s: seq<real>, t: nat, std: seq<real> -> Option<real>): (r: Option<real>)
    requires t < |s|
    ensures t + 1 < MIN_PERIODS ==> r.None?
    ensures t + 1 >= MIN_PERIODS ==> r == std(Window(s, t))
  {
    if |Window(s, t)| >= MIN_PERIODS then std(Window(s, t)) else None
  }

  /** `trend + k * std`, NaN when either is. */
  function Band(trend: Option<real>, std: Option<real>, k: real): (r: Option<real>)
    ensures r.Some? <==> trend.Some? && std.Some?
    ensures r.Some? ==> r.value == trend.value + k * std.value
  {
    if trend.Some? && std.Some? then Some(trend.value + k * std.value) else None
  }

  datatype Row = Row(
    date: Day, marketValue: real, gdp: real, indicator: real,
    trend: Option<real>,
    upper2std: Option<real>, upper1std: Option<real>, lower1std: Option<real>, lower2std: Option<real>)

  function Indicators(joined: seq<Joined>): (r: seq<real>)
    requires forall i :: 0 <= i < |joined| ==> joined[i].gdp != 0.0
    ensures |r| == |joined|
    ensures forall i :: 0 <= i < |joined| ==> r[i] == joined[i].marketValue / joined[i].gdp * 100.0
  {
    seq(|joined|, i requires 0 <= i < |joined| => joined[i].marketValue / joined[i].gdp * 100.0)
  }

  predicate GdpNonZero(gdp: Option<seq<Obs>>) {
    gdp.Some? ==> forall j :: 0 <= j < |gdp.value| ==> gdp.value[j].value != 0.0
  }

  /** Row `t` of the series: the ratio, its rolling trend and the four bands
      `trend ± std`, `trend ± 2 std`. */
  function MakeRow(j: Joined, ind: seq<real>, t: nat, std: seq<real> -> Option<real>): (x: Row)
    requires t < |ind|
    ensures x.date == j.date && x.marketValue == j.marketValue && x.gdp == j.gdp && x.indicator == ind[t]
    ensures x.trend == RollingMean(ind, t)
    ensures var sd := RollingStd(ind, t, std);
      && x.upper2std == Band(x.trend, sd, 2.0) && x.upper1std == Band(x.trend, sd, 1.0)
      && x.lower1std == Band(x.trend, sd, -1.0) && x.lower2std == Band(x.trend, sd, -2.0)
  {
    var trend := RollingMean(ind, t);
    var sd := RollingStd(ind, t, std);
    Row(j.date, j.marketValue, j.gdp, ind[t], trend,
      Band(trend, sd, 2.0), Band(trend, sd, 1.0), Band(trend, sd, -1.0), Band(trend, sd, -2.0))
  }

  function Series(joined: seq<Joined>, std: seq<real> -> Option<real>): (r: seq<Row>)
    requires forall i :: 0 <= i < |joined| ==> joined[i].gdp != 0.0
    ensures |r| == |joined|
    ensures forall t :: 0 <= t < |joined| ==> r[t] == MakeRow(joined[t], Indicators(joined), t, std)
  {
    var ind := Indicators(joined);
    seq(|joined|, t requires 0 <= t < |joined| => MakeRow(joined[t], ind, t, std))
  }

  /** `calculate_buffett_indicator`: `None` when either download failed or
      came back empty. */
  function CalculateIndicator(market: Option<seq<Obs>>, gdp: Option<seq<Obs>>, std: seq<real> -> Option<real>): (r: Option<seq<Row>>)
    requires GdpNonZero(gdp)
    ensures r.None? <==> market.None? || market.value == [] || gdp.None? || gdp.value == []
    ensures r.Some? ==> r.value == Series(InnerJoin(market.value, gdp.value), std)
  {
    if market.None? || market.value == [] || gdp.None? || gdp.value == [] then None
    else
      var joined := InnerJoin(market.value, gdp.value);
      JoinedGdpNonZero(market.value, gdp.value);
      Some(Series(joined, std))
  }

  lemma JoinedGdpNonZero(market: seq<Obs>, gdp: seq<Obs>)
    requires GdpNonZero(Some(gdp))
    ensures forall i :: 0 <= i < |InnerJoin(market, gdp)| ==> InnerJoin(market, gdp)[i].gdp != 0.0
  {
    var joined := InnerJoin(market, gdp);
    forall i | 0 <= i < |joined| ensures joined[i].gdp != 0.0 {
      assert joined[i] in joined;
      assert Obs(joined[i].date, joined[i].gdp) in gdp;
    }
  }

  /** The series has one row per joined date, each dated in both inputs and
      holding market value / GDP * 100. */
  lemma SeriesRows(market: Option<seq<Obs>>, gdp: Option<seq<Obs>>, std: seq<real> -> Option<real>, t: int)
    requires GdpNonZero(gdp)
    requires CalculateIndicator(market, gdp, std).Some? && 0 <= t < |CalculateIndicator(market, gdp, std).value|
    ensures var x := CalculateIndicator(market, gdp, std).value[t];
      && Obs(x.date, x.marketValue) in market.value && Obs(x.date, x.gdp) in gdp.value
      && x.indicator == x.marketValue / x.gdp * 100.0
  {
    var joined := InnerJoin(market.value, gdp.value);
    JoinedGdpNonZero(market.value, gdp.value);
    assert joined[t] in joined;
  }

  /** With a non-negative deviation the four lines bracket the trend in
      order. */
  lemma BandsOrdered(trend: real, sd: real)
    requires sd >= 0.0
    ensures var t, s := Some(trend), Some(sd);
      Band(t, s, -2.0).value <= Band(t, s, -1.0).value <= trend <= Band(t, s, 1.0).value <= Band(t, s, 2.0).value
  {
  }

  /** Every row of the indicator series carries ordered bands wherever the
      rolling deviation is defined. */
  lemma RowBandsOrdered(market: Option<seq<Obs>>, gdp: Option<seq<Obs>>, std: seq<real> -> Option<real>, t: int)
    requires GdpNonZero(gdp) && StdSpec(std)
    requires CalculateIndicator(market, gdp, std).Some? && 0 <= t < |CalculateIndicator(market, gdp, std).value|
    ensures var x := CalculateIndicator(market, gdp, std).value[t];
      x.upper2std.Some? ==>
        x.lower2std.value <= x.lower1std.value <= x.trend.value <= x.upper1std.value <= x.upper2std.value
  {
    var joined := InnerJoin(market.value, gdp.value);
    JoinedGdpNonZero(market.value, gdp.value);
    var ind := Indicators(joined);
    var x := MakeRow(joined[t], ind, t, std);
    assert x == CalculateIndicator(market, gdp, std).value[t];
    if x.upper2std.Some? {
      var sd := RollingStd(ind, t, std);
      BandsOrdered(x.trend.value, sd.value);
    }
  }

  // ----- valuation -----

  /** The five valuation ranges of the backtest, and the market status they
      name. */
  datatype Bucket = VeryOvervalued | Overvalued | FairValue | Undervalued | VeryUndervalued

  function Label(b: Bucket): string {
    match b
    case VeryOvervalued => "매우 과대평가"
    case Overvalued => "과대평가"
    case FairValue => "적정가치"
    case Undervalued => "과소평가"
    case VeryUndervalued => "매우 과소평가"
  }

  lemma LabelInjective(a: Bucket, b: Bucket)
    ensures Label(a) == Label(b) <==> a == b
  {
  }

  /** The status chain of `get_current_status`; a NaN z-score fails every
      test and lands on fair value. */
  function Valuation(z: Ext): (b: Bucket)
    ensures z == NaN ==> b == FairValue
  {
    if Gt(z, 2.0) then VeryOvervalued
    else if Gt(z, 1.0) then Overvalued
    else if Lt(z, -2.0) then VeryUndervalued
    else if Lt(z, -1.0) then Undervalued
    else FairValue
  }

  /** The range masks of `backtest_indicator`, with IEEE comparisons. */
  predicate InRange(b: Bucket, z: Ext) {
    match b
    case VeryOvervalued => Gt(z, 2.0)
    case Overvalued => Gt(z, 1.0) && Le(z, 2.0)
    case FairValue => Ge(z, -1.0) && Le(z, 1.0)
    case Undervalued => Lt(z, -1.0) && Ge(z, -2.0)
    case VeryUndervalued => Lt(z, -2.0)
  }

  /** The five ranges split every z-score that is not NaN into exactly one
      range, the one whose label is the live status for that z-score (the
      boundaries ±1 and ±2 included); a NaN z-score is in no range. */
  lemma RangesMatchValuation(z: Ext, b: Bucket)
    ensures InRange(b, z) <==> z != NaN && Valuation(z) == b
  {
  }

  // ----- current status -----

  datatype Status = Status(
    currentRatio: real, trendValue: Option<real>,
    historicalMean: real, historicalStd: Option<real>,
    deviationFromTrend: Ext, zscore: Ext,
    upper2std: Option<real>, lower2std: Option<real>,
    marketStatus: Bucket)

  /** `(current - trend) / trend * 100`; NaN when the trend is. */
  function Deviation(current: real, trend: Option<real>): (r: Ext)
    ensures trend.None? ==> r == NaN
    ensures trend.Some? && trend.value != 0.0 ==> r == Finite((current - trend.value) / trend.value * 100.0)
    ensures trend.Some? && trend.value != 0.0 ==> (r.value == 0.0 <==> current == trend.value)
    ensures trend == Some(0.0) ==> r == Div(current, 0.0)
  {
    match trend
    case None => NaN
    case Some(t) =>
      var r := Scale(Div(current - t, t), 100.0);
      assert t != 0.0 ==> r.value == (current - t) / t * 100.0;
      r
  }

  function Indicator(data: seq<Row>): (r: seq<real>)
    ensures |r| == |data| && forall i :: 0 <= i < |data| ==> r[i] == data[i].indicator
  {
    seq(|data|, i requires 0 <= i < |data| => data[i].indicator)
  }

  /** `get_current_status` on the computed series: `None` for a failed or
      empty series; otherwise the latest row judged against the whole
      series' mean and deviation. */
  function CurrentStatus(data: Option<seq<Row>>, std: seq<real> -> Option<real>): (r: Option<Status>)
    ensures r.None? <==> data.None? || data.value == []
    ensures r.Some? ==>
      var latest := data.value[|data.value| - 1];
      && r.value.currentRatio == latest.indicator
      && r.value.trendValue == latest.trend
      && Mean(Indicator(data.value)) == Some(r.value.historicalMean)
      && r.value.historicalStd == std(Indicator(data.value))
      && r.value.deviationFromTrend == Deviation(latest.indicator, latest.trend)
      && r.value.zscore == DivOpt(latest.indicator - r.value.historicalMean, std(Indicator(data.value)))
      && r.value.upper2std == latest.upper2std && r.value.lower2std == latest.lower2std
      && r.value.marketStatus == Valuation(r.value.zscore)
  {
    if data.None? || data.value == [] then None
    else
      var rows := data.value;
      var latest := rows[|rows| - 1];
      var mean := Mean(Indicator(rows)).value;
      var sd := std(Indicator(rows));
      var z := DivOpt(latest.indicator - mean, sd);
      Some(Status(latest.indicator, latest.trend, mean, sd,
        Deviation(latest.indicator, latest.trend), z,
        latest.upper2std, latest.lower2std, Valuation(z)))
  }

  /** A single-row series has no standard deviation, so its z-score is NaN and
      its status is fair value. */
  lemma SingleRowIsFair(row: Row, std: seq<real> -> Option<real>)
    requires StdSpec(std)
    ensures CurrentStatus(Some([row]), std).value.zscore == NaN
    ensures CurrentStatus(Some([row]), std).value.marketStatus == FairValue
  {
    assert |Indicator([row])| == 1;
  }

  /** The z-score is above 2 exactly when the latest value exceeds the mean by
      more than two deviations (for a positive deviation). */
  lemma ZScoreMeaning(data: seq<Row>, std: seq<real> -> Option<real>)
    requires data != []
    requires std(Indicator(data)).Some? && std(Indicator(data)).value > 0.0
    ensures var s := CurrentStatus(Some(data), std).value;
      var sd := std(Indicator(data)).value;
      s.marketStatus == VeryOvervalued <==> s.currentRatio > s.historicalMean + 2.0 * sd
  {
    var s := CurrentStatus(Some(data), std).value;
    var sd := std(Indicator(data)).value;
    var d := s.currentRatio - s.historicalMean;
    assert s.zscore == Finite(d / sd);
    QuotientAbove(d, sd, 2.0);
  }

  lemma QuotientAbove(d: real, sd: real, k: real)
    requires sd > 0.0
    ensures d / sd > k <==> d > k * sd
  {
    var q := d / sd;
    assert q * sd == d;
    if q > k {
      assert q * sd > k * sd;
    } else {
      assert q * sd <= k * sd;
    }
  }

  // ----- backtest -----

  /** One row of the backtest input: the expanding z-score and the forward
      return (NaN where the S&P 500 close is missing on either date). */
  datatype Sample = Sample(z: Ext, futureReturn: Option<real>)

  ghost predicate PricesNonZero(spy: Day -> Option<real>) {
    forall d :: spy(d).Some? ==> spy(d).value != 0.0
  }

  /** `(spy.shift(-days) / spy - 1) * 100` at index `t`. */
  function FutureReturn(data: seq<Row>, spy: Day -> Option<real>, t: nat, days: int): (r: Option<real>)
    requires t < |data| && PricesNonZero(spy)
    ensures r.Some? <==> 0 <= t + days < |data| && spy(data[t + days].date).Some? && spy(data[t].date).Some?
    ensures r.Some? ==> var future, now := spy(data[t + days].date).value, spy(data[t].date).value;
      r.value * now == (future - now) * 100.0
  {
    var later := t + days;
    if later < 0 || later >= |data| then None
    else
      match (spy(data[later].date), spy(data[t].date))
      case (Some(future), Some(now)) => Some((future / now - 1.0) * 100.0)
      case _ => None
  }

  /** `(x - x.expanding().mean()) / x.expanding().std()` at index `t`. */
  function ExpandingZ(s: seq<real>, t: nat, std: seq<real> -> Option<real>): (r: Ext)
    requires t < |s|
    ensures std(s[..t + 1]).None? ==> r == NaN
    ensures std(s[..t + 1]).Some? && std(s[..t + 1]).value != 0.0 ==>
      r == Finite((s[t] - Sum(s[..t + 1]) / (t + 1) as real) / std(s[..t + 1]).value)
  {
    DivOpt(s[t] - Mean(s[..t + 1]).value, std(s[..t + 1]))
  }

  function Samples(data: seq<Row>, spy: Day -> Option<real>, std: seq<real> -> Option<real>, months: int): (r: seq<Sample>)
    requires PricesNonZero(spy)
    ensures |r| == |data|
    ensures forall t :: 0 <= t < |data| ==>
      r[t] == Sample(ExpandingZ(Indicator(data), t, std), FutureReturn(data, spy, t, months * 21))
  {
    var ind := Indicator(data);
    seq(|data|, t requires 0 <= t < |data| =>
      Sample(ExpandingZ(ind, t, std), FutureReturn(data, spy, t, months * 21)))
  }

  /** The samples a range's mask selects. */
  function InRangeOf(b: Bucket): Sample -> bool {
    (x: Sample) => InRange(b, x.z)
  }

  /** The forward-return column of some samples. */
  function Returns(s: seq<Sample>): (r: seq<Option<real>>)
    ensures |r| == |s| && forall i :: 0 <= i < |s| ==> r[i] == s[i].futureReturn
  {
    seq(|s|, i requires 0 <= i < |s| => s[i].futureReturn)
  }

  /** The forward returns of the samples in a range (the boolean mask):
      the forward-return column of the selected samples, in order. */
  function InBucket(samples: seq<Sample>, b: Bucket): (r: seq<Option<real>>)
    ensures r == Returns(Filter(samples, InRangeOf(b)))
    decreases |samples|
  {
    if samples == [] then []
    else
      var x := samples[|samples| - 1];
      var p := samples[..|samples| - 1];
      var r := InBucket(p, b) + (if InRange(b, x.z) then [x.futureReturn] else []);
      assert Filter(samples, InRangeOf(b)) == Filter(p, InRangeOf(b)) + (if InRange(b, x.z) then [x] else []);
      r
  }

  predicate IsDefined(o: Option<real>) {
    o.Some?
  }

  /** The values of a column where every entry is defined. */
  function Values(s: seq<Option<real>>): (r: seq<real>)
    requires forall x :: x in s ==> x.Some?
    ensures |r| == |s| && forall i :: 0 <= i < |s| ==> r[i] == s[i].value
  {
    seq(|s|, i requires 0 <= i < |s| => assert s[i] in s; s[i].value)
  }

  /** The defined (non-NaN) values of a column (`dropna`): the values of the
      defined entries, in order. */
  function Defined(s: seq<Option<real>>): (r: seq<real>)
    ensures r == Values(Filter(s, IsDefined))
    decreases |s|
  {
    if s == [] then []
    else
      var p := s[..|s| - 1];
      var r := Defined(p) + (match s[|s| - 1] case Some(v) => [v] case None => []);
      assert Filter(s, IsDefined) == Filter(p, IsDefined) + (if s[|s| - 1].Some? then [s[|s| - 1]] else []);
      r
  }

  predicate IsPositive(o: Option<real>) {
    o.Some? && o.value > 0.0
  }

  /** `(column > 0).sum()`: the number of defined positive values (NaN
      compares false). */
  function Positives(s: seq<Option<real>>): (n: nat)
    ensures n == Count(s, IsPositive)
    decreases |s|
  {
    if s == [] then 0
    else
      var p := s[..|s| - 1];
      assert Filter(s, IsPositive) == Filter(p, IsPositive) + (if IsPositive(s[|s| - 1]) then [s[|s| - 1]] else []);
      Positives(p) + (if IsPositive(s[|s| - 1]) then 1 else 0)
  }

  /** `column.min()`, NaN when nothing is defined. */
  function MinOf(s: seq<real>): (r: Option<real>)
    ensures r.None? <==> s == []
    ensures r.Some? ==> (forall i :: 0 <= i < |s| ==> r.value <= s[i]) && r.value in s
    decreases |s|
  {
    if s == [] then None
    else
      var p := MinOf(s[..|s| - 1]);
      if p.Some? && p.value <= s[|s| - 1] then p else Some(s[|s| - 1])
  }

  /** `column.max()`, NaN when nothing is defined. */
  function MaxOf(s: seq<real>): (r: Option<real>)
    ensures r.None? <==> s == []
    ensures r.Some? ==> (forall i :: 0 <= i < |s| ==> s[i] <= r.value) && r.value in s
    decreases |s|
  {
    if s == [] then None
    else
      var p := MaxOf(s[..|s| - 1]);
      if p.Some? && p.value >= s[|s| - 1] then p else Some(s[|s| - 1])
  }

  datatype BacktestRow = BacktestRow(
    rangeLabel: string, avgReturn: Option<real>, posProb: real, count: nat,
    maxDrawdown: Option<real>, bestReturn: Option<real>)

  /** The result row of one range, or nothing for an empty range. */
  function BucketRow(samples: seq<Sample>, b: Bucket): (r: Option<BacktestRow>)
    ensures r.None? <==> InBucket(samples, b) == []
    ensures r.Some? ==>
      && r.value.rangeLabel == Label(b)
      && r.value.count == |InBucket(samples, b)|
      && r.value.posProb == Positives(InBucket(samples, b)) as real / |InBucket(samples, b)| as real * 100.0
      && 0.0 <= r.value.posProb <= 100.0
      && r.value.avgReturn == Mean(Defined(InBucket(samples, b)))
      && r.value.maxDrawdown == MinOf(Defined(InBucket(samples, b)))
      && r.value.bestReturn == MaxOf(Defined(InBucket(samples, b)))
      && (r.value.maxDrawdown.Some? <==> r.value.bestReturn.Some?)
      && (r.value.maxDrawdown.Some? ==> r.value.maxDrawdown.value <= r.value.bestReturn.value)
  {
    var subset := InBucket(samples, b);
    if subset == [] then None
    else
      var n := |subset| as real;
      var positives := Positives(subset) as real;
      var prob := positives / n * 100.0;
      ProbabilityBounds(positives, n);
      var defined := Defined(subset);
      assert defined != [] ==> MinOf(defined).value <= defined[0] <= MaxOf(defined).value;
      Some(BacktestRow(Label(b), Mean(defined), prob, |subset|, MinOf(defined), MaxOf(defined)))
  }

  lemma ProbabilityBounds(k: real, n: real)
    requires 0.0 <= k <= n && n > 0.0
    ensures 0.0 <= k / n * 100.0 <= 100.0
  {
    assert (k / n) * n == k;
  }

  const BUCKETS: seq<Bucket> := [VeryOvervalued, Overvalued, FairValue, Undervalued, VeryUndervalued]

  /** The rows of the ranges in `buckets`, in order, for the non-empty ones. */
  function BacktestRows(samples: seq<Sample>, buckets: seq<Bucket>): (r: seq<BacktestRow>)
    ensures |r| <= |buckets|
    ensures forall x :: x in r ==> exists b :: b in buckets && BucketRow(samples, b) == Some(x)
    decreases |buckets|
  {
    if buckets == [] then []
    else
      var n := |buckets| - 1;
      var row := BucketRow(samples, buckets[n]);
      assert forall b :: b in buckets[..n] ==> b in buckets;
      BacktestRows(samples, buckets[..n]) + (if row.Some? then [row.value] else [])
  }

  /** Conversely, every listed range that has a row contributes it. */
  lemma {:induction false} BacktestRowsComplete(samples: seq<Sample>, buckets: seq<Bucket>, b: Bucket)
    requires b in buckets && BucketRow(samples, b).Some?
    ensures BucketRow(samples, b).value in BacktestRows(samples, buckets)
    decreases |buckets|
  {
    var n := |buckets| - 1;
    assert buckets[..n + 1] == buckets;
    BacktestRowsSnoc(samples, buckets, n);
    if buckets[n] != b {
      InDropLast(buckets, b);
      BacktestRowsComplete(samples, buckets[..n], b);
    }
  }

  /** One more range adds its row, when it has one, at the end. */
  lemma BacktestRowsSnoc(samples: seq<Sample>, buckets: seq<Bucket>, i: int)
    requires 0 <= i < |buckets|
    ensures BacktestRows(samples, buckets[..i + 1]) == BacktestRows(samples, buckets[..i])
      + (if BucketRow(samples, buckets[i]).Some? then [BucketRow(samples, buckets[i]).value] else [])
  {
    assert buckets[..i + 1][..i] == buckets[..i];
  }

  /** A sample falls in exactly one range unless its z-score is NaN, so the
      range counts add up to the number of such samples. */
  lemma {:induction false} CountsCoverSamples(samples: seq<Sample>)
    ensures |InBucket(samples, VeryOvervalued)| + |InBucket(samples, Overvalued)| + |InBucket(samples, FairValue)|
      + |InBucket(samples, Undervalued)| + |InBucket(samples, VeryUndervalued)|
      == |samples| - NaNCount(samples)
    decreases |samples|
  {
    if samples != [] {
      var x := samples[|samples| - 1];
      CountsCoverSamples(samples[..|samples| - 1]);
      RangesMatchValuation(x.z, VeryOvervalued);
      RangesMatchValuation(x.z, Overvalued);
      RangesMatchValuation(x.z, FairValue);
      RangesMatchValuation(x.z, Undervalued);
      RangesMatchValuation(x.z, VeryUndervalued);
    }
  }

  function NaNCount(samples: seq<Sample>): nat
    decreases |samples|
  {
    if samples == [] then 0
    else NaNCount(samples[..|samples| - 1]) + (if samples[|samples| - 1].z == NaN then 1 else 0)
  }

  /** `backtest_indicator`: `None` when the indicator series failed or the
      S&P download raised or has no `Close` column (`spy` is `None`). An
      empty download is a `spy` with no price on any day. */
  method BacktestIndicator(data: Option<seq<Row>>, spy: Option<Day -> Option<real>>, std: seq<real> -> Option<real>, lookforwardMonths: int)
    returns (results: Option<seq<BacktestRow>>)
    requires spy.Some? ==> PricesNonZero(spy.value)
    ensures results.None? <==> data.None? || spy.None?
    ensures data.Some? && spy.Some? ==>
      results == Some(BacktestRows(Samples(data.value, spy.value, std, lookforwardMonths), BUCKETS))
  {
    if data.None? || spy.None? {
      return None;
    }
    var samples := Samples(data.value, spy.value, std, lookforwardMonths);
    var rows: seq<BacktestRow> := [];
    var i := 0;
    while i < |BUCKETS|
      invariant 0 <= i <= |BUCKETS|
      invariant rows == BacktestRows(samples, BUCKETS[..i])
    {
      BacktestRowsSnoc(samples, BUCKETS, i);
      var subset := InBucket(samples, BUCKETS[i]);
      if |subset| > 0 {
        var row := BucketRow(samples, BUCKETS[i]);
        rows := rows + [row.value];
      }
      i := i + 1;
    }
    assert BUCKETS[..i] == BUCKETS;
    results := Some(rows);
  }
}
