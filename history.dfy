/**
 * A fetched price history (a yfinance or pykrx data frame) as its rows in
 * date order, and the row-level selections the fetchers make on it.
 */
module History {
  import opened Wrappers
  import opened Numbers

  /** One daily row: High, Low, Close and Volume (고가, 저가, 종가, 거래량 for
      the Korean exchange). */
  datatype Bar = Bar(high: real, low: real, close: real, volume: real)

  /** `hist.iloc[-1]`. */
  function Latest(h: seq<Bar>): Bar
    requires h != []
  {
    h[|h| - 1]
  }

  /** `hist.iloc[-2] if len(hist) > 1 else latest`. */
  function Previous(h: seq<Bar>): (b: Bar)
    requires h != []
    ensures |h| == 1 ==> b == Latest(h)
    ensures |h| > 1 ==> b == h[|h| - 2]
  {
    if |h| > 1 then h[|h| - 2] else h[|h| - 1]
  }

  /** `hist["High"].max()`. */
  function MaxHigh(h: seq<Bar>): (r: real)
    requires h != []
    ensures forall i :: 0 <= i < |h| ==> h[i].high <= r
    ensures exists i :: 0 <= i < |h| && h[i].high == r
    decreases |h|
  {
    if |h| == 1 then h[0].high
    else
      var m := MaxHigh(h[..|h| - 1]);
      assert forall i :: 0 <= i < |h| - 1 ==> h[..|h| - 1][i] == h[i];
      Max(m, h[|h| - 1].high)
  }

  /** `hist["Low"].min()`. */
  function MinLow(h: seq<Bar>): (r: real)
    requires h != []
    ensures forall i :: 0 <= i < |h| ==> r <= h[i].low
    ensures exists i :: 0 <= i < |h| && h[i].low == r
    decreases |h|
  {
    if |h| == 1 then h[0].low
    else
      var m := MinLow(h[..|h| - 1]);
      assert forall i :: 0 <= i < |h| - 1 ==> h[..|h| - 1][i] == h[i];
      Min(m, h[|h| - 1].low)
  }

  function Closes(h: seq<Bar>): (r: seq<real>)
    ensures |r| == |h| && forall i :: 0 <= i < |h| ==> r[i] == h[i].close
  {
    seq(|h|, i requires 0 <= i < |h| => h[i].close)
  }

  function Volumes(h: seq<Bar>): (r: seq<real>)
    ensures |r| == |h| && forall i :: 0 <= i < |h| ==> r[i] == h[i].volume
  {
    seq(|h|, i requires 0 <= i < |h| => h[i].volume)
  }

  /** `(new - old) / old * 100`. */
  function PercentChange(newValue: real, oldValue: real): (r: real)
    requires oldValue != 0.0
    ensures r * oldValue == (newValue - oldValue) * 100.0
  {
    (newValue - oldValue) / oldValue * 100.0
  }

  /** The sign of a percent change against a positive base is the sign of the
      move. */
  lemma PercentChangeSign(newValue: real, oldValue: real)
    requires oldValue > 0.0
    ensures PercentChange(newValue, oldValue) > 0.0 <==> newValue > oldValue
    ensures PercentChange(newValue, oldValue) < 0.0 <==> newValue < oldValue
    ensures PercentChange(newValue, oldValue) == 0.0 <==> newValue == oldValue
  {
    var r := PercentChange(newValue, oldValue);
    assert r * oldValue == (newValue - oldValue) * 100.0;
    if r > 0.0 {
      assert r * oldValue > 0.0;
    } else if r < 0.0 {
      assert r * oldValue < 0.0;
    }
  }

  /** `s.tail(n)`: the last `n` elements (all of them when there are fewer). */
  function Tail<T>(s: seq<T>, n: nat): (r: seq<T>)
    ensures |r| == if n <= |s| then n else |s|
    ensures r == s[|s| - |r|..]
  {
    if n <= |s| then s[|s| - n..] else s
  }

  /** The last value of `s.rolling(window=w).mean()`: the mean of the last `w`
      values, NaN (None) while fewer than `w` values exist. */
  function RollingMeanLast(s: seq<real>, w: nat): (r: Option<real>)
    requires w >= 1
    ensures r.Some? <==> |s| >= w
  {
    if |s| >= w then Mean(s[|s| - w..]) else None
  }

  /** A rolling mean of values within [lo, hi] stays within [lo, hi]. */
  lemma RollingMeanBounds(s: seq<real>, w: nat, lo: real, hi: real)
    requires w >= 1 && |s| >= w
    requires forall i :: 0 <= i < |s| ==> lo <= s[i] <= hi
    ensures lo <= RollingMeanLast(s, w).value <= hi
  {
    var t := s[|s| - w..];
    assert forall i :: 0 <= i < |t| ==> t[i] == s[|s| - w + i];
    MeanBounds(t, lo, hi);
  }
}
