/**
 * Numeric helpers. Quantities are exact reals; where numpy would divide by
 * zero the result is an extended value (infinity or NaN) compared the way
 * IEEE-754 compares it; number formatting is an opaque function supplied by
 * the caller.
 */
module Numbers {
  import opened Wrappers

  function Abs(x: real): (r: real)
    ensures r >= 0.0 && (r == x || r == -x)
  {
    if x < 0.0 then -x else x
  }

  function Max(a: real, b: real): (r: real)
    ensures r >= a && r >= b && (r == a || r == b)
  {
    if a >= b then a else b
  }

  function Min(a: real, b: real): (r: real)
    ensures r <= a && r <= b && (r == a || r == b)
  {
    if a <= b then a else b
  }

  /** A numpy float64 result: finite, +inf, -inf or NaN. */
  datatype Ext = Finite(value: real) | PosInf | NegInf | NaN

  /** numpy's `a / b`: dividing a non-zero number by zero gives a signed
      infinity and 0/0 gives NaN. */
  function Div(a: real, b: real): (r: Ext)
    ensures b != 0.0 ==> r == Finite(a / b)
    ensures b == 0.0 ==> (r == PosInf <==> a > 0.0) && (r == NegInf <==> a < 0.0) && (r == NaN <==> a == 0.0)
  {
    if b != 0.0 then Finite(a / b)
    else if a > 0.0 then PosInf
    else if a < 0.0 then NegInf
    else NaN
  }

  /** Multiplication by a positive constant, which keeps infinities and NaN. */
  function Scale(e: Ext, k: real): (r: Ext)
    requires k > 0.0
    ensures r.Finite? <==> e.Finite?
    ensures e.Finite? ==> r.value == e.value * k
    ensures !e.Finite? ==> r == e
  {
    match e
    case Finite(v) => Finite(v * k)
    case _ => e
  }

  /** IEEE `e > c` for a finite `c`: false for NaN. */
  predicate Gt(e: Ext, c: real) {
    match e
    case Finite(v) => v > c
    case PosInf => true
    case NegInf => false
    case NaN => false
  }

  /** IEEE `e < c` for a finite `c`: false for NaN. */
  predicate Lt(e: Ext, c: real) {
    match e
    case Finite(v) => v < c
    case PosInf => false
    case NegInf => true
    case NaN => false
  }

  /** IEEE `e >= c` for a finite `c`: false for NaN. */
  predicate Ge(e: Ext, c: real) {
    match e
    case Finite(v) => v >= c
    case PosInf => true
    case NegInf => false
    case NaN => false
  }

  /** IEEE `e <= c` for a finite `c`: false for NaN. */
  predicate Le(e: Ext, c: real) {
    match e
    case Finite(v) => v <= c
    case PosInf => false
    case NegInf => true
    case NaN => false
  }

  /** `a / b` where a NaN divisor is `None`. */
  function DivOpt(a: real, b: Option<real>): (r: Ext)
    ensures b.None? ==> r == NaN
    ensures b.Some? ==> r == Div(a, b.value)
  {
    match b
    case None => NaN
    case Some(v) => Div(a, v)
  }

  function Sum(s: seq<real>): real
    decreases |s|
  {
    if s == [] then 0.0 else Sum(s[..|s| - 1]) + s[|s| - 1]
  }

  lemma {:induction false} SumNonNegative(s: seq<real>)
    requires forall i :: 0 <= i < |s| ==> s[i] >= 0.0
    ensures Sum(s) >= 0.0
    decreases |s|
  {
    if s != [] {
      SumNonNegative(s[..|s| - 1]);
    }
  }

  lemma {:induction false} SumBounds(s: seq<real>, lo: real, hi: real)
    requires forall i :: 0 <= i < |s| ==> lo <= s[i] <= hi
    ensures lo * |s| as real <= Sum(s) <= hi * |s| as real
    decreases |s|
  {
    if s != [] {
      SumBounds(s[..|s| - 1], lo, hi);
      assert lo * |s| as real == lo * (|s| - 1) as real + lo;
      assert hi * |s| as real == hi * (|s| - 1) as real + hi;
    }
  }

  /** pandas `Series.mean()`: NaN (None) for an empty series. */
  function Mean(s: seq<real>): (r: Option<real>)
    ensures r.None? <==> s == []
  {
    if s == [] then None else Some(Sum(s) / |s| as real)
  }

  /** The mean of values within [lo, hi] lies within [lo, hi]. */
  lemma MeanBounds(s: seq<real>, lo: real, hi: real)
    requires s != []
    requires forall i :: 0 <= i < |s| ==> lo <= s[i] <= hi
    ensures lo <= Mean(s).value <= hi
  {
    SumBounds(s, lo, hi);
    var n := |s| as real;
    assert Mean(s).value * n == Sum(s);
  }

  /** The format specifications the program writes in f-strings and templates. */
  datatype NumFormat =
    | Comma2    // {:,.2f}
    | Comma0    // {:,.0f}
    | Grouped   // {:,} of an integer volume
    | Fixed1    // {:.1f}
    | Fixed2    // {:.2f}
    | Fixed3    // {:.3f}
    | Signed1   // {:+.1f}
    | Signed2   // {:+.2f}
    | Signed3   // {:+.3f}

  /** Rendering of a float64 (finite, infinite or NaN) under a format
      specification; left abstract. */
  type Formatter = (NumFormat, Ext) -> string

  /** Rendering of a finite number. */
  function Fmt(fmt: Formatter, f: NumFormat, x: real): string {
    fmt(f, Finite(x))
  }
}
