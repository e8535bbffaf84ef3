/**
 * utils/kr_market.py: the quote computed from a Korean index history
 * (pykrx columns 고가/저가/종가/거래량), the dict of quotes for the
 * configured indices, and the volume wording of `format_market_data`. The
 * index table the module imports is not defined by config/settings.py, so it
 * is a parameter here.
 */
module KrMarket {
  import opened Wrappers
  import opened Numbers
  import opened History
  import opened Dicts

  datatype KrQuote = KrQuote(
    close: real, volume: real, change: real,
    volumeMa20: Option<real>, volumeRatio: real,
    yearHigh: real, yearLow: real, yearHighRatio: real)

  const MA_WINDOW: nat := 20

  predicate Divisible(frame: Option<seq<Bar>>) {
    frame.None? || frame.value == [] || (Previous(frame.value).close != 0.0 && MaxHigh(frame.value) != 0.0)
  }

  /** `volume / ma20 if ma20 > 0 else 0`, where an undefined (NaN) average
      fails the test. */
  function VolumeRatio(volume: real, ma20: Option<real>): (r: real)
    ensures ma20.Some? && ma20.value > 0.0 ==> r * ma20.value == volume
    ensures !(ma20.Some? && ma20.value > 0.0) ==> r == 0.0
  {
    if ma20.Some? && ma20.value > 0.0 then volume / ma20.value else 0.0
  }

  /** `get_market_data` after the fetch. */
  function GetMarketData(frame: Option<seq<Bar>>): (r: Option<KrQuote>)
    requires Divisible(frame)
    ensures r.None? <==> frame.None? || frame.value == []
    ensures r.Some? ==> r.value.close == Latest(frame.value).close && r.value.volume == Latest(frame.value).volume
    ensures r.Some? ==> r.value.change == PercentChange(Latest(frame.value).close, Previous(frame.value).close)
    ensures r.Some? && |frame.value| == 1 ==> r.value.change == 0.0
    ensures r.Some? ==> (r.value.volumeMa20.Some? <==> |frame.value| >= MA_WINDOW)
    ensures r.Some? && |frame.value| < MA_WINDOW ==> r.value.volumeRatio == 0.0
    ensures r.Some? ==> r.value.volumeMa20 == RollingMeanLast(Volumes(frame.value), MA_WINDOW)
    ensures r.Some? ==> r.value.volumeRatio == VolumeRatio(Latest(frame.value).volume, r.value.volumeMa20)
    ensures r.Some? ==> r.value.yearHigh == MaxHigh(frame.value) && r.value.yearLow == MinLow(frame.value)
    ensures r.Some? ==> r.value.yearHighRatio == PercentChange(Latest(frame.value).close, MaxHigh(frame.value))
  {
    match frame
    case None => None
    case Some(h) =>
      if h == [] then None
      else
        var latest := Latest(h);
        var prev := Previous(h);
        var ma20 := RollingMeanLast(Volumes(h), MA_WINDOW);
        var yearHigh := MaxHigh(h);
        Some(KrQuote(
          latest.close, latest.volume,
          PercentChange(latest.close, prev.close),
          ma20, VolumeRatio(latest.volume, ma20),
          yearHigh, MinLow(h),
          PercentChange(latest.close, yearHigh)))
  }

  /** Once twenty rows exist and their average volume is positive, the ratio
      exceeds 1 exactly when today's volume is above that average. */
  lemma VolumeRatioAboveAverage(volume: real, ma20: real)
    requires ma20 > 0.0
    ensures VolumeRatio(volume, Some(ma20)) > 1.0 <==> volume > ma20
    ensures VolumeRatio(volume, Some(ma20)) >= 0.0 <==> volume >= 0.0
  {
    var r := VolumeRatio(volume, Some(ma20));
    assert r * ma20 == volume;
    if r > 1.0 {
      assert r * ma20 > 1.0 * ma20;
    } else {
      assert r * ma20 <= 1.0 * ma20;
    }
    if r >= 0.0 {
      assert r * ma20 >= 0.0;
    } else {
      assert r * ma20 < 0.0;
    }
  }

  /** The 20-day average of non-negative volumes is non-negative. */
  lemma VolumeMa20NonNegative(vs: seq<real>)
    requires |vs| >= MA_WINDOW
    requires forall i :: 0 <= i < |vs| ==> vs[i] >= 0.0
    ensures RollingMeanLast(vs, MA_WINDOW).value >= 0.0
  {
    var t := vs[|vs| - MA_WINDOW..];
    assert forall i :: 0 <= i < |t| ==> t[i] == vs[|vs| - MA_WINDOW + i];
    SumNonNegative(t);
  }

  function Fetcher(frames: string -> Option<seq<Bar>>): string --> Option<KrQuote> {
    (t: string) requires Divisible(frames(t)) => GetMarketData(frames(t))
  }

  /** `get_all_kr_market_data()` over the index table `indices`. */
  function AllKrMarketData(indices: seq<(string, string)>, frames: string -> Option<seq<Bar>>): (r: Dict<KrQuote>)
    requires forall i :: 0 <= i < |indices| ==> Divisible(frames(indices[i].1))
    ensures DistinctKeys(r)
  {
    CollectedDistinct(indices, Fetcher(frames));
    Collected(indices, Fetcher(frames))
  }

  method GetAllKrMarketData(indices: seq<(string, string)>, frames: string -> Option<seq<Bar>>) returns (d: Dict<KrQuote>)
    requires forall i :: 0 <= i < |indices| ==> Divisible(frames(indices[i].1))
    ensures d == AllKrMarketData(indices, frames)
  {
    d := Collect(indices, Fetcher(frames));
  }

  /** A name is a key of the result iff one of its table entries has a
      non-empty frame; the result has no duplicate keys. */
  lemma AllKrMarketDataKeys(indices: seq<(string, string)>, frames: string -> Option<seq<Bar>>, k: string)
    requires forall i :: 0 <= i < |indices| ==> Divisible(frames(indices[i].1))
    ensures DistinctKeys(AllKrMarketData(indices, frames))
    ensures k in Keys(AllKrMarketData(indices, frames)) <==>
      exists i :: 0 <= i < |indices| && indices[i].0 == k && frames(indices[i].1).Some? && frames(indices[i].1).value != []
  {
    CollectedKeys(indices, Fetcher(frames), k);
    CollectedDistinct(indices, Fetcher(frames));
  }

  /** With distinct names (the table is a dict), each name maps to the quote of
      its own frame. */
  lemma AllKrMarketDataValue(indices: seq<(string, string)>, frames: string -> Option<seq<Bar>>, i: int)
    requires forall i :: 0 <= i < |indices| ==> Divisible(frames(indices[i].1))
    requires forall i, j :: 0 <= i < j < |indices| ==> indices[i].0 != indices[j].0
    requires 0 <= i < |indices|
    ensures Get(AllKrMarketData(indices, frames), indices[i].0) == GetMarketData(frames(indices[i].1))
  {
    CollectedValue(indices, Fetcher(frames), i);
  }

  /** Trading-volume wording of `format_market_data`. */
  datatype VolumeLevel = VeryActive | Active | Usual | Low

  function VolumeDescription(ratio: real): (v: VolumeLevel)
    ensures v == VeryActive <==> ratio >= 2.0
    ensures v == Active <==> 1.5 <= ratio < 2.0
    ensures v == Usual <==> 0.8 <= ratio < 1.5
    ensures v == Low <==> ratio < 0.8
  {
    if ratio >= 2.0 then VeryActive
    else if ratio >= 1.5 then Active
    else if ratio >= 0.8 then Usual
    else Low
  }

  function Rank(v: VolumeLevel): nat {
    match v
    case Low => 0
    case Usual => 1
    case Active => 2
    case VeryActive => 3
  }

  /** More volume relative to the average never gives a quieter wording. */
  lemma VolumeDescriptionMonotone(r1: real, r2: real)
    requires r1 <= r2
    ensures Rank(VolumeDescription(r1)) <= Rank(VolumeDescription(r2))
  {
  }
}
