/**
 * src/data_processor.py: the narrative summaries of the report. The four
 * market processors are modelled as the sequence of phrases they choose
 * (each phrase stands for one fixed Korean sentence pattern with the numbers
 * it shows) rather than as the text; the news and calendar processors are
 * modelled down to the text. The "now" of the calendar processor is passed in
 * as today's and tomorrow's date strings.
 */
module DataProcessor {
  import opened Wrappers
  import opened Numbers
  import opened Seqs
  import opened Dicts
  import UsMarket
  import KrMarket
  import UsTreasury
  import Forex
  import History
  import News
  import opened Sorting

  // ----- decisions shared by the market processors -----

  /** `sum(1 for c in changes if c > 0)`. */
  function CountPositive(changes: seq<real>): nat
    decreases |changes|
  {
    if changes == [] then 0
    else CountPositive(changes[..|changes| - 1]) + (if changes[|changes| - 1] > 0.0 then 1 else 0)
  }

  /** `sum(1 for c in changes if c < 0)`. */
  function CountNegative(changes: seq<real>): nat
    decreases |changes|
  {
    if changes == [] then 0
    else CountNegative(changes[..|changes| - 1]) + (if changes[|changes| - 1] < 0.0 then 1 else 0)
  }

  /** The overall direction: rising when more changes are positive than
      negative, falling in the opposite case, mixed on a tie. */
  datatype Direction = Rising | Falling | Mixed

  function Tally(changes: seq<real>): (d: Direction)
    ensures d == Rising <==> CountPositive(changes) > CountNegative(changes)
    ensures d == Falling <==> CountPositive(changes) < CountNegative(changes)
    ensures d == Mixed <==> CountPositive(changes) == CountNegative(changes)
  {
    var up := CountPositive(changes);
    var down := CountNegative(changes);
    if up > down then Rising else if up < down then Falling else Mixed
  }

  lemma {:induction false} CountsAppend(a: seq<real>, b: seq<real>)
    ensures CountPositive(a + b) == CountPositive(a) + CountPositive(b)
    ensures CountNegative(a + b) == CountNegative(a) + CountNegative(b)
    decreases |b|
  {
    if b == [] {
      assert a + b == a;
    } else {
      var b' := b[..|b| - 1];
      assert (a + b)[..|a + b| - 1] == a + b';
      CountsAppend(a, b');
    }
  }

  /** An unchanged entry counts for neither side: inserting one anywhere
      leaves the direction as it was. */
  lemma TallyIgnoresUnchanged(a: seq<real>, b: seq<real>)
    ensures Tally(a + [0.0] + b) == Tally(a + b)
  {
    CountsAppend(a, [0.0]);
    CountsAppend(a + [0.0], b);
    CountsAppend(a, b);
    assert [0.0][..0] == [];
  }

  function Negated(changes: seq<real>): (r: seq<real>)
    ensures |r| == |changes| && forall i :: 0 <= i < |changes| ==> r[i] == -changes[i]
  {
    seq(|changes|, i requires 0 <= i < |changes| => -changes[i])
  }

  lemma {:induction false} NegatedCounts(changes: seq<real>)
    ensures CountPositive(Negated(changes)) == CountNegative(changes)
    ensures CountNegative(Negated(changes)) == CountPositive(changes)
    decreases |changes|
  {
    if changes != [] {
      var p := changes[..|changes| - 1];
      NegatedCounts(p);
      assert Negated(changes)[..|changes| - 1] == Negated(p);
    }
  }

  /** Mirroring every change swaps the rising and falling wordings. */
  lemma TallyMirror(changes: seq<real>)
    ensures Tally(Negated(changes)) == match Tally(changes)
      case Rising => Falling
      case Falling => Rising
      case Mixed => Mixed
  {
    NegatedCounts(changes);
  }

  /** `max(changes.items(), key=lambda x: abs(x[1]))`: the index of the first
      entry whose absolute change is largest. */
  function FirstMaxAbs(changes: seq<real>): (i: nat)
    requires changes != []
    ensures i < |changes|
    ensures forall j :: 0 <= j < |changes| ==> Abs(changes[j]) <= Abs(changes[i])
    ensures forall j :: 0 <= j < i ==> Abs(changes[j]) < Abs(changes[i])
    decreases |changes|
  {
    if |changes| == 1 then 0
    else
      var p := changes[..|changes| - 1];
      var k := FirstMaxAbs(p);
      assert forall j :: 0 <= j < |p| ==> p[j] == changes[j];
      if Abs(changes[|changes| - 1]) > Abs(changes[k]) then |changes| - 1 else k
  }

  /** The direction word of one entry: "상승" for a positive change, "하락"
      otherways (an unchanged entry is worded as falling). */
  datatype Move = Up | Down

  function MoveOf(change: real): (m: Move)
    ensures m == Up <==> change > 0.0
  {
    if change > 0.0 then Up else Down
  }

  /** The phrases of the market summaries (the pattern each stands for is
      named in the comments). */
  datatype Phrase =
    | Unavailable   // the section's fixed "데이터를 가져올 수 없습니다" message
    | Overall(direction: Direction)   // the opening sentence
    | UsIndex(name: string, close: real, absChange: real, move: Move, high: UsHighNote, volume: UsVolume)
    | KrIndex(name: string, close: real, points: Ext, absChange: real, move: Move, krHigh: KrHighNote, krVolume: KrVolume)
    | TreasuryTerm(term: string, yieldRate: real, absChange: real, move: Move, range: RangeNote)
    | Curve(absSpread: real, shape: CurveShape)   // the 2s10s paragraph
    | FxPair(currency: string, rate: real, per100Yen: bool, absChange: real, move: Move,
             position: FxPosition, volatility: FxVolatility)
    | Highlight(name: string, absChange: real, move: Move)   // "특히 ..." closing sentence

  /** The entries' phrases, one per entry, in dict order; built from the end
      like the loops that append them. */
  function Lines<Q>(data: Dict<Q>, line: (string, Q) -> Phrase): (r: seq<Phrase>)
    ensures |r| == |data|
    ensures forall i :: 0 <= i < |data| ==> r[i] == line(data[i].0, data[i].1)
    decreases |data|
  {
    if data == [] then []
    else
      var p := data[..|data| - 1];
      assert forall i :: 0 <= i < |p| ==> p[i] == data[i];
      Lines(p, line) + [line(data[|data| - 1].0, data[|data| - 1].1)]
  }

  /** The `for name, info in data.items(): summary += ...` loop. */
  method AppendLines<Q>(prefix: seq<Phrase>, data: Dict<Q>, line: (string, Q) -> Phrase) returns (summary: seq<Phrase>)
    ensures summary == prefix + Lines(data, line)
  {
    summary := prefix;
    var i := 0;
    while i < |data|
      invariant 0 <= i <= |data|
      invariant summary == prefix + Lines(data[..i], line)
    {
      assert data[..i + 1][..i] == data[..i];
      AppendAssoc(prefix, Lines(data[..i], line), [line(data[i].0, data[i].1)]);
      summary := summary + [line(data[i].0, data[i].1)];
      i := i + 1;
    }
    assert data[..i] == data;
  }

  // ----- process_us_market_data -----

  datatype UsHighNote = NearUsHigh | DeepCorrection | NoUsHighNote
  datatype UsVolume = UsBusy | UsAverage | UsQuiet

  /** "52주 최고가에 근접" within 5% of the high, "큰 폭의 조정" more than 20%
      below it, nothing in between. */
  function UsHighNoteOf(ratio: real): (n: UsHighNote)
    ensures n == NearUsHigh <==> Abs(ratio) <= 5.0
    ensures n == DeepCorrection <==> ratio < -20.0
    ensures n == NoUsHighNote <==> (-20.0 <= ratio < -5.0 || ratio > 5.0)
  {
    if Abs(ratio) <= 5.0 then NearUsHigh else if ratio < -20.0 then DeepCorrection else NoUsHighNote
  }

  /** "활발한" above a billion shares, "평균적인" above half a billion,
      "다소 낮은" otherwise. */
  function UsVolumeOf(volume: real): (v: UsVolume)
    ensures v == UsBusy <==> volume > 1000000000.0
    ensures v == UsAverage <==> 500000000.0 < volume <= 1000000000.0
    ensures v == UsQuiet <==> volume <= 500000000.0
  {
    if volume > 1000000000.0 then UsBusy else if volume > 500000000.0 then UsAverage else UsQuiet
  }

  /** One index's sentence: its close, the size and direction of its move,
      the note on its distance from the 52-week high and the volume word. */
  function UsLine(name: string, q: UsMarket.UsQuote): (r: Phrase)
    ensures r.UsIndex? && r.name == name && r.close == q.close
    ensures r.absChange >= 0.0 && (r.absChange == q.change || r.absChange == -q.change)
    ensures r.move == Up <==> q.change > 0.0
    ensures r.high == NearUsHigh <==> Abs(q.yearHighRatio) <= 5.0
    ensures r.high == DeepCorrection <==> q.yearHighRatio < -20.0
    ensures r.volume == UsBusy <==> q.volume > 1000000000.0
    ensures r.volume == UsQuiet <==> q.volume <= 500000000.0
  {
    UsIndex(name, q.close, Abs(q.change), MoveOf(q.change), UsHighNoteOf(q.yearHighRatio), UsVolumeOf(q.volume))
  }

  function UsChanges(data: Dict<UsMarket.UsQuote>): (r: seq<real>)
    ensures |r| == |data| && forall i :: 0 <= i < |data| ==> r[i] == data[i].1.change
  {
    seq(|data|, i requires 0 <= i < |data| => data[i].1.change)
  }

  /** The closing sentence on the entry with the largest absolute change. */
  function HighlightOf(name: string, change: real): Phrase {
    Highlight(name, Abs(change), MoveOf(change))
  }

  /** The phrases of `process_us_market_data(data)`: the fixed message for no
      data; otherwise the direction, one phrase per index in dict order, and
      always the closing sentence on the first index with the largest move. */
  function UsSummary(data: Dict<UsMarket.UsQuote>): (r: seq<Phrase>)
    ensures data == [] <==> r == [Unavailable]
    ensures data != [] ==>
      var m := FirstMaxAbs(UsChanges(data));
      && |r| == |data| + 2
      && r[0] == Overall(Tally(UsChanges(data)))
      && (forall i :: 0 <= i < |data| ==> r[i + 1] == UsLine(data[i].0, data[i].1))
      && r[|r| - 1] == HighlightOf(data[m].0, data[m].1.change)
  {
    if data == [] then [Unavailable]
    else
      var changes := UsChanges(data);
      var m := FirstMaxAbs(changes);
      var lines := Lines(data, UsLine);
      var highlight := [HighlightOf(data[m].0, data[m].1.change)];
      SummaryLayout(Overall(Tally(changes)), lines, highlight);
      [Overall(Tally(changes))] + lines + highlight
  }

  /** Where the parts of a section sit: the opening sentence first, then one
      phrase per line, then the closing part. */
  lemma SummaryLayout<T>(head: T, lines: seq<T>, tail: seq<T>)
    ensures var r := [head] + lines + tail;
      && |r| == |lines| + |tail| + 1
      && r[0] == head
      && (forall i :: 0 <= i < |lines| ==> r[i + 1] == lines[i])
      && (tail != [] ==> r[|r| - 1] == tail[|tail| - 1])
  {
    var r := [head] + lines + tail;
    forall i | 0 <= i < |lines| ensures r[i + 1] == lines[i] {
      assert r[i + 1] == ([head] + lines)[i + 1];
    }
  }

  method ProcessUsMarketData(data: Dict<UsMarket.UsQuote>) returns (summary: seq<Phrase>)
    ensures summary == UsSummary(data)
  {
    if data == [] {
      return [Unavailable];
    }
    var changes := UsChanges(data);
    var m := FirstMaxAbs(changes);
    summary := AppendLines([Overall(Tally(changes))], data, UsLine);
    summary := summary + [HighlightOf(data[m].0, data[m].1.change)];
  }

  // ----- process_kr_market_data -----

  datatype KrHighNote = AtKrHigh | FarBelowKrHigh(pct: real) | BelowKrHigh(pct: real)
  datatype KrVolume = KrVeryBusy | KrBusy | KrAverage | KrQuiet

  /** "52주 최고가 수준" within 5%, "... 하락한 수준" more than 20% below,
      "... 하락한 상태에서 거래" in between, with the distance shown. */
  function KrHighNoteOf(ratio: real): (n: KrHighNote)
    ensures n == AtKrHigh <==> Abs(ratio) <= 5.0
    ensures n.FarBelowKrHigh? <==> ratio < -20.0
    ensures n.BelowKrHigh? <==> (-20.0 <= ratio < -5.0 || ratio > 5.0)
    ensures !n.AtKrHigh? ==> n.pct == Abs(ratio)
  {
    if Abs(ratio) <= 5.0 then AtKrHigh
    else if ratio < -20.0 then FarBelowKrHigh(Abs(ratio))
    else BelowKrHigh(Abs(ratio))
  }

  function KrVolumeOf(volume: real): (v: KrVolume)
    ensures v == KrVeryBusy <==> volume > 1000000000.0
    ensures v == KrBusy <==> 500000000.0 < volume <= 1000000000.0
    ensures v == KrAverage <==> 300000000.0 < volume <= 500000000.0
    ensures v == KrQuiet <==> volume <= 300000000.0
  {
    if volume > 1000000000.0 then KrVeryBusy
    else if volume > 500000000.0 then KrBusy
    else if volume > 300000000.0 then KrAverage
    else KrQuiet
  }

  /** `abs(close - close / (1 + change / 100))` on float64: a change of
      exactly -100% divides by zero. */
  function PointsChange(close: real, change: real): Ext {
    var base := 1.0 + change / 100.0;
    if base != 0.0 then Finite(Abs(close - close / base))
    else if close != 0.0 then PosInf
    else NaN
  }

  /** The point move recovered from the close and the percent change is the
      distance between today's and the previous close. */
  lemma PointsChangeIsPointMove(close: real, prev: real)
    requires prev != 0.0 && close != 0.0
    ensures PointsChange(close, History.PercentChange(close, prev)) == Finite(Abs(close - prev))
  {
    var c := History.PercentChange(close, prev);
    var g := (close - prev) / prev;
    assert c == g * 100.0;
    assert c / 100.0 == g;
    var base := 1.0 + c / 100.0;
    assert g * prev == close - prev;
    assert base * prev == close by {
      assert base * prev == prev + g * prev;
    }
    assert base != 0.0;
    QuotientOfProduct(close, base, prev);
  }

  lemma QuotientOfProduct(x: real, b: real, p: real)
    requires b != 0.0 && b * p == x
    ensures x / b == p
  {
  }

  /** One index's sentence: its close, the point move recovered from the
      percent change, the size and direction of the move, the note on the
      52-week high and the volume word. */
  function KrLine(name: string, q: KrMarket.KrQuote): (r: Phrase)
    ensures r.KrIndex? && r.name == name && r.close == q.close
    ensures r.absChange >= 0.0 && (r.absChange == q.change || r.absChange == -q.change)
    ensures r.move == Up <==> q.change > 0.0
    ensures q.change == 0.0 ==> r.points == Finite(0.0)
    ensures r.krHigh == AtKrHigh <==> Abs(q.yearHighRatio) <= 5.0
    ensures !r.krHigh.AtKrHigh? ==> r.krHigh.pct == Abs(q.yearHighRatio)
    ensures r.krVolume == KrVeryBusy <==> q.volume > 1000000000.0
    ensures r.krVolume == KrQuiet <==> q.volume <= 300000000.0
  {
    KrIndex(name, q.close, PointsChange(q.close, q.change), Abs(q.change), MoveOf(q.change),
      KrHighNoteOf(q.yearHighRatio), KrVolumeOf(q.volume))
  }

  function KrChanges(data: Dict<KrMarket.KrQuote>): (r: seq<real>)
    ensures |r| == |data| && forall i :: 0 <= i < |data| ==> r[i] == data[i].1.change
  {
    seq(|data|, i requires 0 <= i < |data| => data[i].1.change)
  }

  /** The threshold of the KR closing sentence: a move of more than 1%. */
  function KrHighlight(data: Dict<KrMarket.KrQuote>): (r: seq<Phrase>)
    requires data != []
    ensures var m := FirstMaxAbs(KrChanges(data));
      (r != [] <==> Abs(data[m].1.change) > 1.0) && (r != [] ==> r == [HighlightOf(data[m].0, data[m].1.change)])
  {
    var m := FirstMaxAbs(KrChanges(data));
    if Abs(data[m].1.change) > 1.0 then [HighlightOf(data[m].0, data[m].1.change)] else []
  }

  /** The phrases of `process_kr_market_data(data)`: the fallback message
      for an empty dict, otherwise the opening sentence, one phrase per
      index and the closing sentence. */
  function KrSummary(data: Dict<KrMarket.KrQuote>): (r: seq<Phrase>)
    ensures data == [] <==> r == [Unavailable]
  {
    if data == [] then [Unavailable]
    else [Overall(Tally(KrChanges(data)))] + Lines(data, KrLine) + KrHighlight(data)
  }

  /** The closing sentence appears only when the largest move exceeds 1%;
      the phrases in between are the indices' own, in dict order. */
  lemma KrSummaryMeaning(data: Dict<KrMarket.KrQuote>)
    requires data != []
    ensures var r := KrSummary(data);
      var m := FirstMaxAbs(KrChanges(data));
      && (|r| == |data| + 2 <==> Abs(data[m].1.change) > 1.0)
      && (|r| == |data| + 1 <==> Abs(data[m].1.change) <= 1.0)
      && r[0] == Overall(Tally(KrChanges(data)))
      && (forall i :: 0 <= i < |data| ==> r[i + 1] == KrLine(data[i].0, data[i].1))
      && (|r| == |data| + 2 ==> r[|r| - 1] == HighlightOf(data[m].0, data[m].1.change))
  {
    KrSummaryLength(data);
    KrSummaryOrder(data);
  }

  lemma KrSummaryLength(data: Dict<KrMarket.KrQuote>)
    requires data != []
    ensures var m := FirstMaxAbs(KrChanges(data));
      && (|KrSummary(data)| == |data| + 2 <==> Abs(data[m].1.change) > 1.0)
      && (|KrSummary(data)| == |data| + 1 <==> Abs(data[m].1.change) <= 1.0)
  {
    var highlight := KrHighlight(data);
    assert |KrSummary(data)| == |data| + 1 + |highlight|;
    assert |highlight| <= 1;
  }

  lemma KrSummaryOrder(data: Dict<KrMarket.KrQuote>)
    requires data != []
    ensures var r := KrSummary(data);
      var m := FirstMaxAbs(KrChanges(data));
      && r[0] == Overall(Tally(KrChanges(data)))
      && (forall i :: 0 <= i < |data| ==> r[i + 1] == KrLine(data[i].0, data[i].1))
      && (|r| == |data| + 2 ==> r[|r| - 1] == HighlightOf(data[m].0, data[m].1.change))
  {
    var lines := Lines(data, KrLine);
    var highlight := KrHighlight(data);
    var head := Overall(Tally(KrChanges(data)));
    assert KrSummary(data) == [head] + lines + highlight;
    SummaryLayout(head, lines, highlight);
  }

  method ProcessKrMarketData(data: Dict<KrMarket.KrQuote>) returns (summary: seq<Phrase>)
    ensures summary == KrSummary(data)
  {
    if data == [] {
      return [Unavailable];
    }
    var changes := KrChanges(data);
    var m := FirstMaxAbs(changes);
    summary := AppendLines([Overall(Tally(changes))], data, KrLine);
    if Abs(data[m].1.change) > 1.0 {
      summary := summary + [HighlightOf(data[m].0, data[m].1.change)];
    }
  }

  // ----- process_us_treasury_data -----

  datatype RangeNote = NearYearHigh | NearYearLow | RangePosition(pct: Ext)

  /** The 52-week status of a yield: near the high within 0.1 (tested
      first), else near the low within 0.1, else its position in the range. */
  function RangeNoteOf(y: real, high: real, low: real): (n: RangeNote)
    ensures n == NearYearHigh <==> Abs(y - high) <= 0.1
    ensures n == NearYearLow <==> Abs(y - high) > 0.1 && Abs(y - low) <= 0.1
    ensures n.RangePosition? ==> n.pct == Scale(Div(y - low, high - low), 100.0)
  {
    if Abs(y - high) <= 0.1 then NearYearHigh
    else if Abs(y - low) <= 0.1 then NearYearLow
    else RangePosition(Scale(Div(y - low, high - low), 100.0))
  }

  /** A yield inside its range and near neither end has a finite position
      strictly between 0% and 100%. */
  lemma RangePositionInside(y: real, high: real, low: real)
    requires low <= y <= high
    requires RangeNoteOf(y, high, low).RangePosition?
    ensures RangeNoteOf(y, high, low).pct.Finite?
    ensures 0.0 < RangeNoteOf(y, high, low).pct.value < 100.0
  {
    var d := high - low;
    assert d > 0.2;
    var q := (y - low) / d;
    assert q * d == y - low;
    MulMonotone(q, 0.0, d);
    MulMonotone(q, 1.0, d);
  }

  datatype CurveShape = Inverted | Flattened | Normal

  /** "역전" below zero, "매우 평탄화" below 0.5, "정상적인 우상향" otherwise. */
  function CurveShapeOf(spread: real): (s: CurveShape)
    ensures s == Inverted <==> spread < 0.0
    ensures s == Flattened <==> 0.0 <= spread < 0.5
    ensures s == Normal <==> spread >= 0.5
  {
    if spread < 0.0 then Inverted else if spread < 0.5 then Flattened else Normal
  }

  const TWO_YEAR := "2년물"
  const TEN_YEAR := "10년물"

  /** The 2s10s spread: the 10-year yield minus the 2-year yield. */
  function Spread2s10s(data: Dict<UsTreasury.TreasuryQuote>): real
    requires TEN_YEAR in Keys(data) && TWO_YEAR in Keys(data)
  {
    Get(data, TEN_YEAR).value.yieldRate - Get(data, TWO_YEAR).value.yieldRate
  }

  /** The 2s10s paragraph: present exactly when both maturities are keys. */
  function CurveParagraph(data: Dict<UsTreasury.TreasuryQuote>): (r: seq<Phrase>)
    ensures !(TEN_YEAR in Keys(data) && TWO_YEAR in Keys(data)) ==> r == []
    ensures TEN_YEAR in Keys(data) && TWO_YEAR in Keys(data) ==>
      r == [Curve(Abs(Spread2s10s(data)), CurveShapeOf(Spread2s10s(data)))]
  {
    if TEN_YEAR in Keys(data) && TWO_YEAR in Keys(data) then
      var spread := Spread2s10s(data);
      [Curve(Abs(spread), CurveShapeOf(spread))]
    else []
  }

  /** With both maturities present the paragraph reports an inverted curve
      exactly when the 10-year yield is below the 2-year yield, and states
      the distance between the two yields. */
  lemma CurveParagraphMeaning(data: Dict<UsTreasury.TreasuryQuote>)
    requires TEN_YEAR in Keys(data) && TWO_YEAR in Keys(data)
    ensures var ten := Get(data, TEN_YEAR).value.yieldRate;
      var two := Get(data, TWO_YEAR).value.yieldRate;
      var r := CurveParagraph(data);
      && |r| == 1
      && (r[0].shape == Inverted <==> ten < two)
      && (r[0].shape == Normal <==> ten >= two + 0.5)
      && (r[0].absSpread == ten - two || r[0].absSpread == two - ten)
      && r[0].absSpread >= 0.0
  {
  }

  /** One maturity's sentence: its yield, the size and direction of the
      move, and where the yield sits in its 52-week range. */
  function TreasuryLine(term: string, q: UsTreasury.TreasuryQuote): (r: Phrase)
    ensures r.TreasuryTerm? && r.term == term && r.yieldRate == q.yieldRate
    ensures r.absChange >= 0.0 && (r.absChange == q.change || r.absChange == -q.change)
    ensures r.move == Up <==> q.change > 0.0
    ensures r.range == NearYearHigh <==> Abs(q.yieldRate - q.yearHigh) <= 0.1
    ensures r.range == NearYearLow <==> Abs(q.yieldRate - q.yearHigh) > 0.1 && Abs(q.yieldRate - q.yearLow) <= 0.1
  {
    TreasuryTerm(term, q.yieldRate, Abs(q.change), MoveOf(q.change), RangeNoteOf(q.yieldRate, q.yearHigh, q.yearLow))
  }

  function TreasuryChanges(data: Dict<UsTreasury.TreasuryQuote>): (r: seq<real>)
    ensures |r| == |data| && forall i :: 0 <= i < |data| ==> r[i] == data[i].1.change
  {
    seq(|data|, i requires 0 <= i < |data| => data[i].1.change)
  }

  /** The closing sentence of the treasury summary: a move above 5bp. */
  function TreasuryHighlight(data: Dict<UsTreasury.TreasuryQuote>): (r: seq<Phrase>)
    requires data != []
    ensures var m := FirstMaxAbs(TreasuryChanges(data));
      (r != [] <==> Abs(data[m].1.change) > 0.05) && (r != [] ==> r == [HighlightOf(data[m].0, data[m].1.change)])
  {
    var m := FirstMaxAbs(TreasuryChanges(data));
    if Abs(data[m].1.change) > 0.05 then [HighlightOf(data[m].0, data[m].1.change)] else []
  }

  /** The phrases of `process_us_treasury_data(data)`: direction, one phrase
      per maturity, the curve paragraph when both the 2- and the 10-year
      yields are present, and the closing sentence for a move above 5bp. */
  function TreasurySummary(data: Dict<UsTreasury.TreasuryQuote>): (r: seq<Phrase>)
    ensures data == [] <==> r == [Unavailable]
    ensures data != [] ==>
      && |r| > |data|
      && r[0] == Overall(Tally(TreasuryChanges(data)))
      && r[1..|data| + 1] == Lines(data, TreasuryLine)
      && r[|data| + 1..] == CurveParagraph(data) + TreasuryHighlight(data)
  {
    if data == [] then [Unavailable]
    else
      var lines := Lines(data, TreasuryLine);
      var curve := CurveParagraph(data);
      var highlight := TreasuryHighlight(data);
      var head := [Overall(Tally(TreasuryChanges(data)))] + lines;
      var r := head + curve + highlight;
      AppendAssoc(head, curve, highlight);
      assert head[1..] == lines;
      assert r[..|head|] == head && r[|head|..] == curve + highlight;
      assert r[1..|data| + 1] == head[1..];
      r
  }

  lemma TreasurySummaryParts(data: Dict<UsTreasury.TreasuryQuote>)
    requires data != []
    ensures TreasurySummary(data) == [Overall(Tally(TreasuryChanges(data)))] + Lines(data, TreasuryLine)
      + CurveParagraph(data) + TreasuryHighlight(data)
  {
  }

  method ProcessUsTreasuryData(data: Dict<UsTreasury.TreasuryQuote>) returns (summary: seq<Phrase>)
    ensures summary == TreasurySummary(data)
  {
    if data == [] {
      return [Unavailable];
    }
    var changes := TreasuryChanges(data);
    var m := FirstMaxAbs(changes);
    var curve := CurveParagraph(data);
    summary := AppendLines([Overall(Tally(changes))], data, TreasuryLine);
    summary := summary + curve;
    ghost var before := summary;
    if Abs(data[m].1.change) > 0.05 {
      summary := summary + [HighlightOf(data[m].0, data[m].1.change)];
    }
    assert summary == before + TreasuryHighlight(data);
    TreasurySummaryParts(data);
  }

  // ----- process_forex_data -----

  datatype FxPosition = FxNearHigh | FxNearLow | FxInRange(pct: Ext)
  datatype FxVolatility = FxVolatile | FxModerate | FxStable

  /** Above 90% of the range "최고치에 근접", below 10% "최저치에 근접",
      otherwise the position itself (NaN fails both tests). */
  function FxPositionOf(pct: Ext): (p: FxPosition)
    ensures p == FxNearHigh <==> Gt(pct, 90.0)
    ensures p == FxNearLow <==> !Gt(pct, 90.0) && Lt(pct, 10.0)
    ensures p.FxInRange? ==> p.pct == pct
  {
    if Gt(pct, 90.0) then FxNearHigh else if Lt(pct, 10.0) then FxNearLow else FxInRange(pct)
  }

  /** A range above 15% of the low "높은 변동성", above 8% "보통 수준",
      otherwise "안정적인 범위". */
  function FxVolatilityOf(rangePct: Ext): (v: FxVolatility)
    ensures v == FxVolatile <==> Gt(rangePct, 15.0)
    ensures v == FxModerate <==> !Gt(rangePct, 15.0) && Gt(rangePct, 8.0)
    ensures v == FxStable <==> !Gt(rangePct, 8.0)
  {
    if Gt(rangePct, 15.0) then FxVolatile else if Gt(rangePct, 8.0) then FxModerate else FxStable
  }

  /** `pair.split("/")[0]`. */
  function Currency(pair: string): string {
    Split(pair, '/')[0]
  }

  function RelativePosition(q: Forex.FxQuote): Ext {
    Scale(Div(q.rate - q.yearLow, q.yearHigh - q.yearLow), 100.0)
  }

  function RangePercent(q: Forex.FxQuote): Ext {
    Scale(Div(q.yearHigh - q.yearLow, q.yearLow), 100.0)
  }

  /** A JPY rate is shown per 100 yen; every other pair per unit. The range
      tests use the unscaled rate. */
  function FxLine(pair: string, q: Forex.FxQuote): (p: Phrase)
    ensures p.FxPair? && (p.per100Yen <==> Currency(pair) == "JPY")
    ensures p.rate == if Currency(pair) == "JPY" then q.rate * 100.0 else q.rate
  {
    var currency := Currency(pair);
    var jpy := currency == "JPY";
    FxPair(currency, if jpy then q.rate * 100.0 else q.rate, jpy, Abs(q.change), MoveOf(q.change),
      FxPositionOf(RelativePosition(q)), FxVolatilityOf(RangePercent(q)))
  }

  /** Inside a proper range, "near the high" means the top tenth of the range
      and "near the low" the bottom tenth. */
  lemma FxPositionMeaning(q: Forex.FxQuote)
    requires q.yearLow < q.yearHigh
    ensures FxPositionOf(RelativePosition(q)) == FxNearHigh <==> q.rate - q.yearLow > 0.9 * (q.yearHigh - q.yearLow)
    ensures FxPositionOf(RelativePosition(q)) == FxNearLow <==> q.rate - q.yearLow < 0.1 * (q.yearHigh - q.yearLow)
  {
    PositionThresholds(q.rate, q.yearLow, q.yearHigh);
  }

  lemma PositionThresholds(rate: real, low: real, high: real)
    requires low < high
    ensures var rp := Scale(Div(rate - low, high - low), 100.0);
      && (Gt(rp, 90.0) <==> rate - low > 0.9 * (high - low))
      && (Lt(rp, 10.0) <==> rate - low < 0.1 * (high - low))
  {
    var span := high - low;
    var f := (rate - low) / span;
    assert f * span == rate - low;
    assert Div(rate - low, span) == Finite(f);
    var rp := Scale(Div(rate - low, span), 100.0);
    assert rp == Finite(f * 100.0);
    assert Gt(rp, 90.0) <==> f > 0.9;
    assert Lt(rp, 10.0) <==> f < 0.1;
    MulMonotone(f, 0.9, span);
    MulMonotone(f, 0.1, span);
  }

  /** Multiplying by a positive number keeps strict order both ways. */
  lemma MulMonotone(a: real, b: real, s: real)
    requires s > 0.0
    ensures a > b <==> a * s > b * s
    ensures a < b <==> a * s < b * s
  {
    if a > b {
      assert (a - b) * s > 0.0;
    } else if a < b {
      assert (b - a) * s > 0.0;
    }
  }

  function FxChanges(data: Dict<Forex.FxQuote>): (r: seq<real>)
    ensures |r| == |data| && forall i :: 0 <= i < |data| ==> r[i] == data[i].1.change
  {
    seq(|data|, i requires 0 <= i < |data| => data[i].1.change)
  }

  /** The closing sentence of the FX summary: a move above 0.5%, naming the
      base currency. */
  function FxHighlight(data: Dict<Forex.FxQuote>): (r: seq<Phrase>)
    requires data != []
    ensures var m := FirstMaxAbs(FxChanges(data));
      (r != [] <==> Abs(data[m].1.change) > 0.5) && (r != [] ==> r == [HighlightOf(Currency(data[m].0), data[m].1.change)])
  {
    var m := FirstMaxAbs(FxChanges(data));
    if Abs(data[m].1.change) > 0.5 then [HighlightOf(Currency(data[m].0), data[m].1.change)] else []
  }

  /** The phrases of `process_forex_data(data)`. A positive change is a
      weaker won, so "rising" here is the won's "약세". */
  function FxSummary(data: Dict<Forex.FxQuote>): (r: seq<Phrase>)
    ensures data == [] <==> r == [Unavailable]
    ensures data != [] ==>
      && |r| > |data|
      && r[0] == Overall(Tally(FxChanges(data)))
      && r[1..|data| + 1] == Lines(data, FxLine)
      && r[|data| + 1..] == FxHighlight(data)
  {
    if data == [] then [Unavailable]
    else
      var lines := Lines(data, FxLine);
      var r := [Overall(Tally(FxChanges(data)))] + lines + FxHighlight(data);
      assert r[1..|data| + 1] == lines;
      assert r[|data| + 1..] == FxHighlight(data);
      r
  }

  method ProcessForexData(data: Dict<Forex.FxQuote>) returns (summary: seq<Phrase>)
    ensures summary == FxSummary(data)
  {
    if data == [] {
      return [Unavailable];
    }
    var changes := FxChanges(data);
    var m := FirstMaxAbs(changes);
    summary := AppendLines([Overall(Tally(changes))], data, FxLine);
    if Abs(data[m].1.change) > 0.5 {
      summary := summary + [HighlightOf(Currency(data[m].0), data[m].1.change)];
    }
  }

  // ----- process_news_data -----

  const NEWS_UNAVAILABLE := "뉴스 데이터를 가져올 수 없습니다."

  /** The categories of the digest, in the order it shows them: the key of
      the news dict and the heading. */
  const NEWS_CATEGORIES: seq<(string, string)> := [
    (News.KR_ECONOMIC, "국내 경제"),
    (News.GLOBAL_ECONOMIC, "글로벌 경제"),
    (News.GLOBAL_BUSINESS, "글로벌 비즈니스")
  ]

  /** `news.get("title_ko") or news.get("title", "N/A")`. */
  function LeadTitle(a: News.Article): (r: string)
    ensures News.Truthy(a.titleKo) ==> r == a.titleKo.s
    ensures !News.Truthy(a.titleKo) && a.title.Str? ==> r == a.title.s
    ensures !News.Truthy(a.titleKo) && a.title.Absent? ==> r == News.NA
    ensures !News.Truthy(a.titleKo) && a.title.Null? ==> r == "None"
  {
    if News.Truthy(a.titleKo) then a.titleKo.s else News.Shown(a.title, News.NA)
  }

  /** `news.get("summary_ko") or news.get("summary", "N/A")`: an empty or
      null Korean summary falls back to the original one. */
  function LeadSummary(a: News.Article): string {
    if News.Truthy(a.summaryKo) then a.summaryKo.s else News.Shown(a.summary, News.NA)
  }

  /** The lines of one digest entry (NEWS_TEMPLATE): heading, source, time
      and summary, between a leading and a trailing line break. */
  function EntryLines(a: News.Article): seq<string> {
    ["", "### " + LeadTitle(a), "- 출처: " + News.Shown(a.publisher, News.NA),
     "- 시간: " + News.Shown(a.publishedAt, News.NA), "- " + LeadSummary(a), ""]
  }

  /** `NEWS_TEMPLATE.format(...)` for one article. */
  function NewsEntry(a: News.Article): (r: string)
    ensures r == Join("\n", EntryLines(a))
  {
    var heading := "### " + LeadTitle(a);
    var source := "- 출처: " + News.Shown(a.publisher, News.NA);
    var time := "- 시간: " + News.Shown(a.publishedAt, News.NA);
    var summary := "- " + LeadSummary(a);
    News.JoinSix(heading, source, time, summary);
    "\n" + heading + "\n" + source + "\n" + time + "\n" + summary + "\n"
  }

  /** An entry whose fields are single lines reads back as exactly its four
      labelled lines between two empty ones. */
  lemma NewsEntryLines(a: News.Article)
    requires News.SingleLine(a)
    ensures Split(NewsEntry(a), '\n') == EntryLines(a)
  {
    var ls := EntryLines(a);
    forall i | 0 <= i < |ls| ensures '\n' !in ls[i] {
    }
    SplitJoin(ls, '\n');
  }

  /** The digest and the article block of utils/news.py disagree on an empty
      Korean summary: the block shows it (an empty summary line) while the
      digest falls back to the original summary. */
  lemma SummaryFallbackDiffers(a: News.Article)
    requires a.summaryKo == News.Str("") && a.summary.Str? && a.summary.s != ""
    ensures LeadSummary(a) == a.summary.s
    ensures News.ShownSummary(a) == ""
    ensures LeadSummary(a) != News.ShownSummary(a)
  {
  }

  function EntryPart(a: News.Article): seq<string> {
    [NewsEntry(a)]
  }

  /** The parts one category adds: nothing for an empty list, otherwise its
      heading followed by its articles' entries. */
  function CategoryParts(name: string, list: seq<News.Article>): (r: seq<string>)
    ensures list == [] <==> r == []
  {
    if list == [] then [] else ["\n[" + name + "]"] + FlatMap(list, EntryPart)
  }

  /** A non-empty category is its heading and then one entry per article, in
      order. */
  lemma CategoryPartsMeaning(name: string, list: seq<News.Article>)
    requires list != []
    ensures var r := CategoryParts(name, list);
      && |r| == |list| + 1 && r[0] == "\n[" + name + "]"
      && forall i :: 0 <= i < |list| ==> r[i + 1] == NewsEntry(list[i])
  {
    FlatMapSingletons(list, EntryPart, NewsEntry);
  }

  /** The parts of the digest for the categories `cats`, in order. */
  function DigestParts(data: Dict<seq<News.Article>>, cats: seq<(string, string)>): seq<string>
    decreases |cats|
  {
    if cats == [] then []
    else
      var c := cats[|cats| - 1];
      DigestParts(data, cats[..|cats| - 1]) + CategoryParts(c.1, Get(data, c.0).GetOr([]))
  }

  /** The digest is the three categories' parts, Korean economy first. */
  lemma DigestOrder(data: Dict<seq<News.Article>>)
    ensures DigestParts(data, NEWS_CATEGORIES)
      == CategoryParts("국내 경제", Get(data, News.KR_ECONOMIC).GetOr([]))
       + CategoryParts("글로벌 경제", Get(data, News.GLOBAL_ECONOMIC).GetOr([]))
       + CategoryParts("글로벌 비즈니스", Get(data, News.GLOBAL_BUSINESS).GetOr([]))
  {
    var cats := NEWS_CATEGORIES;
    DigestThree(data, cats);
    assert cats[0] == (News.KR_ECONOMIC, "국내 경제");
    assert cats[1] == (News.GLOBAL_ECONOMIC, "글로벌 경제");
    assert cats[2] == (News.GLOBAL_BUSINESS, "글로벌 비즈니스");
  }

  /** The digest of three categories is their parts in order. */
  lemma DigestThree(data: Dict<seq<News.Article>>, cats: seq<(string, string)>)
    requires |cats| == 3
    ensures DigestParts(data, cats)
      == CategoryParts(cats[0].1, Get(data, cats[0].0).GetOr([]))
       + CategoryParts(cats[1].1, Get(data, cats[1].0).GetOr([]))
       + CategoryParts(cats[2].1, Get(data, cats[2].0).GetOr([]))
  {
    DigestTwo(data, cats);
    DigestStep(data, cats, 2);
    assert cats[..3] == cats;
  }

  lemma DigestTwo(data: Dict<seq<News.Article>>, cats: seq<(string, string)>)
    requires |cats| >= 2
    ensures DigestParts(data, cats[..2])
      == CategoryParts(cats[0].1, Get(data, cats[0].0).GetOr([]))
       + CategoryParts(cats[1].1, Get(data, cats[1].0).GetOr([]))
  {
    DigestOne(data, cats);
    DigestStep(data, cats, 1);
  }

  lemma DigestOne(data: Dict<seq<News.Article>>, cats: seq<(string, string)>)
    requires |cats| >= 1
    ensures DigestParts(data, cats[..1]) == CategoryParts(cats[0].1, Get(data, cats[0].0).GetOr([]))
  {
    DigestStep(data, cats, 0);
    assert cats[..0] == [];
  }

  /** A category list is non-empty somewhere exactly when the digest has
      parts. */
  lemma {:induction false} DigestEmpty(data: Dict<seq<News.Article>>, cats: seq<(string, string)>)
    ensures DigestParts(data, cats) == [] <==> forall i :: 0 <= i < |cats| ==> Get(data, cats[i].0).GetOr([]) == []
    decreases |cats|
  {
    if cats != [] {
      var p := cats[..|cats| - 1];
      var c := cats[|cats| - 1];
      var last := CategoryParts(c.1, Get(data, c.0).GetOr([]));
      DigestEmpty(data, p);
      assert DigestParts(data, cats) == DigestParts(data, p) + last;
      EmptyConcat(DigestParts(data, p), last);
      AllFetchesEmptySnoc(data, cats);
    }
  }

  /** A concatenation is empty exactly when both parts are. */
  lemma EmptyConcat<T>(a: seq<T>, b: seq<T>)
    ensures a + b == [] <==> a == [] && b == []
  {
    assert |a + b| == |a| + |b|;
  }

  /** Every category's fetch is empty exactly when every earlier one and the
      last one are. */
  lemma AllFetchesEmptySnoc(data: Dict<seq<News.Article>>, cats: seq<(string, string)>)
    requires cats != []
    ensures var p := cats[..|cats| - 1];
      (forall i :: 0 <= i < |cats| ==> Get(data, cats[i].0).GetOr([]) == [])
      <==> (forall i :: 0 <= i < |p| ==> Get(data, p[i].0).GetOr([]) == [])
           && Get(data, cats[|cats| - 1].0).GetOr([]) == []
  {
    var p := cats[..|cats| - 1];
    var n := |cats| - 1;
    if forall i :: 0 <= i < |cats| ==> Get(data, cats[i].0).GetOr([]) == [] {
      forall i | 0 <= i < |p| ensures Get(data, p[i].0).GetOr([]) == [] {
        assert p[i] == cats[i];
      }
      assert Get(data, cats[n].0).GetOr([]) == [];
    }
    if (forall i :: 0 <= i < |p| ==> Get(data, p[i].0).GetOr([]) == []) && Get(data, cats[n].0).GetOr([]) == [] {
      forall i | 0 <= i < |cats| ensures Get(data, cats[i].0).GetOr([]) == [] {
        if i < n {
          assert p[i] == cats[i];
        }
      }
    }
  }

  /** No item of the dict holds an article. */
  predicate NoArticles(data: Dict<seq<News.Article>>) {
    forall i :: 0 <= i < |data| ==> data[i].1 == []
  }

  /** `process_news_data(news_data)`. The early "no news" return agrees with
      the final one: the digest is the joined parts when there are any and
      the fallback message when there are none. */
  function NewsSummary(data: Dict<seq<News.Article>>): (r: string)
    ensures DigestParts(data, NEWS_CATEGORIES) == [] ==> r == NEWS_UNAVAILABLE
    ensures DigestParts(data, NEWS_CATEGORIES) != [] ==> r == Join("\n", DigestParts(data, NEWS_CATEGORIES))
  {
    if data == [] || NoArticles(data) then
      assert DigestParts(data, NEWS_CATEGORIES) == [] by {
        if DigestParts(data, NEWS_CATEGORIES) != [] {
          DigestHasArticles(data, NEWS_CATEGORIES);
        }
      }
      NEWS_UNAVAILABLE
    else
      var parts := DigestParts(data, NEWS_CATEGORIES);
      if parts != [] then Join("\n", parts) else NEWS_UNAVAILABLE
  }

  /** A digest with parts comes from a dict holding an article. */
  lemma DigestHasArticles(data: Dict<seq<News.Article>>, cats: seq<(string, string)>)
    requires DigestParts(data, cats) != []
    ensures data != [] && !NoArticles(data)
  {
    DigestEmpty(data, cats);
    var i :| 0 <= i < |cats| && Get(data, cats[i].0).GetOr([]) != [];
    ArticleFound(data, cats[i].0);
  }

  /** A key holding a non-empty list is an item with an article. */
  lemma ArticleFound(data: Dict<seq<News.Article>>, k: string)
    requires Get(data, k).GetOr([]) != []
    ensures data != [] && !NoArticles(data)
  {
    GetFound(data, k);
    var j :| 0 <= j < |data| && data[j].0 == k && data[j].1 == Get(data, k).value;
    assert data[j].1 != [];
  }

  /** The digest of what `get_all_news()` returns: the three categories in
      order, failed or empty fetches leaving theirs out. */
  lemma DigestOfAllNews(kr: Option<seq<News.Article>>, economy: Option<seq<News.Article>>, business: Option<seq<News.Article>>)
    ensures var parts := CategoryParts("국내 경제", kr.GetOr([])) + CategoryParts("글로벌 경제", economy.GetOr([]))
        + CategoryParts("글로벌 비즈니스", business.GetOr([]));
      NewsSummary(News.GetAllNews(kr, economy, business)) == if parts == [] then NEWS_UNAVAILABLE else Join("\n", parts)
  {
    var data := News.GetAllNews(kr, economy, business);
    DigestOrder(data);
  }

  /** One more category adds its parts at the end. */
  lemma DigestStep(data: Dict<seq<News.Article>>, cats: seq<(string, string)>, c: int)
    requires 0 <= c < |cats|
    ensures DigestParts(data, cats[..c + 1]) == DigestParts(data, cats[..c]) + CategoryParts(cats[c].1, Get(data, cats[c].0).GetOr([]))
  {
    assert cats[..c + 1][..c] == cats[..c];
  }

  /** The inner loop of `process_news_data`: one category's heading and
      entries appended to the parts collected so far. */
  method AppendCategory(parts: seq<string>, name: string, list: seq<News.Article>) returns (r: seq<string>)
    ensures r == parts + CategoryParts(name, list)
  {
    r := parts;
    if list == [] {
      return;
    }
    var heading := ["\n[" + name + "]"];
    var pre := parts + heading;
    r := pre;
    var j := 0;
    while j < |list|
      invariant 0 <= j <= |list|
      invariant r == pre + FlatMap(list[..j], EntryPart)
    {
      r := r + [NewsEntry(list[j])];
      FlatMapSnoc(list, j, EntryPart);
      AppendAssoc(pre, FlatMap(list[..j], EntryPart), EntryPart(list[j]));
      j := j + 1;
    }
    assert list[..j] == list;
    AppendAssoc(parts, heading, FlatMap(list, EntryPart));
  }

  method ProcessNewsData(data: Dict<seq<News.Article>>) returns (text: string)
    ensures text == NewsSummary(data)
  {
    if data == [] || NoArticles(data) {
      return NEWS_UNAVAILABLE;
    }
    var categories := NEWS_CATEGORIES;
    var parts: seq<string> := [];
    var c := 0;
    while c < |categories|
      invariant 0 <= c <= |categories|
      invariant parts == DigestParts(data, categories[..c])
    {
      DigestStep(data, categories, c);
      parts := AppendCategory(parts, categories[c].1, Get(data, categories[c].0).GetOr([]));
      c := c + 1;
    }
    assert categories[..c] == categories;
    text := if parts != [] then Join("\n", parts) else NEWS_UNAVAILABLE;
  }



  // ----- process_economic_calendar -----

  const NO_SCHEDULE := "예정된 주요 경제 지표가 없습니다."

  /** One scheduled release as the investing.com scraper reports it; every
      field is text, "N/A" where the page shows none. */
  datatype CalendarEvent = CalendarEvent(
    time: string, date: string, country: string, event: string,
    importance: string, actual: string, forecast: string, previous: string)

  /** Two or more stars of importance. */
  predicate Important(e: CalendarEvent) {
    CountChar(e.importance, '⭐') >= 2
  }

  /** The events of `events` dated `d`, in their order. */
  function OnDate(events: seq<CalendarEvent>, d: string): seq<CalendarEvent>
    decreases |events|
  {
    if events == [] then []
    else
      var e := events[|events| - 1];
      OnDate(events[..|events| - 1], d) + (if e.date == d then [e] else [])
  }

  /** `events_by_date` after the grouping loop over `events`: an event dated
      today or tomorrow is appended to its date's list, a new date going
      last. */
  function Grouped(events: seq<CalendarEvent>, today: string, tomorrow: string): (r: Dict<seq<CalendarEvent>>)
    ensures forall k :: k in Keys(r) ==> k == today || k == tomorrow
    decreases |events|
  {
    if events == [] then []
    else
      var g := Grouped(events[..|events| - 1], today, tomorrow);
      var e := events[|events| - 1];
      if e.date == today || e.date == tomorrow then Put(g, e.date, Get(g, e.date).GetOr([]) + [e]) else g
  }

  /** Each date of the window with events maps to those events in their
      order; no other date is present. */
  lemma {:induction false} OnDateMembers(events: seq<CalendarEvent>, d: string)
    ensures forall e :: e in OnDate(events, d) <==> e in events && e.date == d
    decreases |events|
  {
    if events != [] {
      OnDateMembers(events[..|events| - 1], d);
      assert events == events[..|events| - 1] + [events[|events| - 1]];
    }
  }

  lemma {:induction false} GroupedGet(events: seq<CalendarEvent>, today: string, tomorrow: string, d: string)
    ensures Get(Grouped(events, today, tomorrow), d)
      == if (d == today || d == tomorrow) && OnDate(events, d) != [] then Some(OnDate(events, d)) else None
    decreases |events|
  {
    if events != [] {
      var p := events[..|events| - 1];
      var e := events[|events| - 1];
      var g := Grouped(p, today, tomorrow);
      var before := OnDate(p, d);
      assert OnDate(events, d) == before + (if e.date == d then [e] else []);
      GroupedGet(p, today, tomorrow, d);
      if e.date == today || e.date == tomorrow {
        var v := Get(g, e.date).GetOr([]) + [e];
        assert Grouped(events, today, tomorrow) == Put(g, e.date, v);
        PutGet(g, e.date, v, d);
        if d == e.date {
          assert Get(g, d).GetOr([]) == before;
          assert v == OnDate(events, d);
          assert Get(Grouped(events, today, tomorrow), d) == Some(v);
        } else {
          assert OnDate(events, d) == before;
          assert Get(Grouped(events, today, tomorrow), d) == Get(g, d);
        }
      } else {
        assert Grouped(events, today, tomorrow) == g;
      }
    }
  }

  lemma {:induction false} GroupedDistinct(events: seq<CalendarEvent>, today: string, tomorrow: string)
    ensures DistinctKeys(Grouped(events, today, tomorrow))
    decreases |events|
  {
    if events != [] {
      var p := events[..|events| - 1];
      var e := events[|events| - 1];
      GroupedDistinct(p, today, tomorrow);
      var g := Grouped(p, today, tomorrow);
      if e.date == today || e.date == tomorrow {
        PutDistinct(g, e.date, Get(g, e.date).GetOr([]) + [e]);
      }
    }
  }

  /** `key=lambda x: x["time"]`. */
  predicate TimeLe(a: CalendarEvent, b: CalendarEvent) {
    LexLe(a.time, b.time)
  }

  lemma TimeLeTotalPreorder()
    ensures TotalPreorder(TimeLe)
  {
    forall a: CalendarEvent, b: CalendarEvent ensures TimeLe(a, b) || TimeLe(b, a) {
      LexLeTotal(a.time, b.time);
    }
    forall a: CalendarEvent, b: CalendarEvent, c: CalendarEvent | TimeLe(a, b) && TimeLe(b, c) ensures TimeLe(a, c) {
      LexLeTransitive(a.time, b.time, c.time);
    }
  }

  /** The lines of one event: time, country, stars and name, then each of
      the released, forecast and previous values that is not "N/A", then an
      empty line. An event without values has just its headline and the
      empty line, one with all three has five lines in the order released,
      forecast, previous. */
  function EventLines(e: CalendarEvent): (r: seq<string>)
    ensures |r| == 2 + (if e.actual != News.NA then 1 else 0)
      + (if e.forecast != News.NA then 1 else 0) + (if e.previous != News.NA then 1 else 0)
    ensures r[0] == e.time + " [" + e.country + "] " + e.importance + " " + e.event
    ensures r[|r| - 1] == ""
    ensures e.actual == News.NA && e.forecast == News.NA && e.previous == News.NA ==> r == [r[0], ""]
    ensures e.actual != News.NA && e.forecast != News.NA && e.previous != News.NA ==>
      r[1..4] == ["  발표: " + e.actual, "  예상: " + e.forecast, "  이전: " + e.previous]
  {
    [e.time + " [" + e.country + "] " + e.importance + " " + e.event]
    + (if e.actual != News.NA then ["  발표: " + e.actual] else [])
    + (if e.forecast != News.NA then ["  예상: " + e.forecast] else [])
    + (if e.previous != News.NA then ["  이전: " + e.previous] else [])
    + [""]
  }

  /** The lines of one date: its heading, then its events by time. */
  function DateLines(groups: Dict<seq<CalendarEvent>>, d: string): (r: seq<string>)
    ensures |r| >= 1 && r[0] == "\n[" + d + "]"
    ensures d !in Keys(groups) ==> r == [r[0]]
  {
    ["\n[" + d + "]"] + FlatMap(Sort(Get(groups, d).GetOr([]), TimeLe), EventLines)
  }

  function DateBlock(groups: Dict<seq<CalendarEvent>>): string -> seq<string> {
    d => DateLines(groups, d)
  }

  /** `f"{target_date} ~ {next_date} 경제 지표 일정\n"`. */
  function CalendarHeader(today: string, tomorrow: string): string {
    today + " ~ " + tomorrow + " 경제 지표 일정\n"
  }

  /** The dates the schedule shows, in order. */
  function ScheduleDates(events: seq<CalendarEvent>, today: string, tomorrow: string): seq<string> {
    Sort(Keys(Grouped(Filter(events, Important), today, tomorrow)), LexLe)
  }

  /** The lines of the schedule: the header, then each date's lines in date
      order. */
  function ScheduleLines(header: string, groups: Dict<seq<CalendarEvent>>): seq<string> {
    [header] + FlatMap(Sort(Keys(groups), LexLe), DateBlock(groups))
  }

  /** `process_economic_calendar(calendar_data)` with "now" in Korea given as
      `today` and `tomorrow` (YYYY-MM-DD). No event with two stars or more
      gives the "nothing scheduled" message. */
  function CalendarSummary(events: seq<CalendarEvent>, today: string, tomorrow: string): (r: string)
    ensures (forall e :: e in events ==> !Important(e)) ==> r == NO_SCHEDULE
  {
    if events == [] then NO_SCHEDULE
    else
      var important := Filter(events, Important);
      if important == [] then NO_SCHEDULE
      else
        assert important[0] in important;
        Strip(Join("\n", ScheduleLines(CalendarHeader(today, tomorrow), Grouped(important, today, tomorrow))))
  }

  /** The shown dates are in order without repeats, and they are exactly
      today and tomorrow as far as an important event falls on them; under
      each date the important events of that date, all of them and nothing
      else, sorted by time. */
  lemma ScheduleMeaning(events: seq<CalendarEvent>, today: string, tomorrow: string)
    ensures var dates := ScheduleDates(events, today, tomorrow);
      && Sorted(dates, LexLe) && Distinct(dates)
      && forall d :: d in dates <==> (d == today || d == tomorrow) && exists e :: e in events && Important(e) && e.date == d
    ensures var groups := Grouped(Filter(events, Important), today, tomorrow);
      forall d :: d in ScheduleDates(events, today, tomorrow) ==>
        var day := Sort(Get(groups, d).GetOr([]), TimeLe);
        && Sorted(day, TimeLe)
        && multiset(day) == multiset(OnDate(Filter(events, Important), d))
  {
    var important := Filter(events, Important);
    var groups := Grouped(important, today, tomorrow);
    var keys := Keys(groups);
    var dates := ScheduleDates(events, today, tomorrow);
    LexLeTotalPreorder();
    SortCorrect(keys, LexLe);
    GroupedDistinct(important, today, tomorrow);
    PermutationDistinct(keys, dates);
    forall d ensures d in dates <==> (d == today || d == tomorrow) && exists e :: e in events && Important(e) && e.date == d {
      DateShown(events, today, tomorrow, d);
    }
    TimeLeTotalPreorder();
    forall d | d in dates
      ensures Sorted(Sort(Get(groups, d).GetOr([]), TimeLe), TimeLe)
      ensures multiset(Sort(Get(groups, d).GetOr([]), TimeLe)) == multiset(OnDate(important, d))
    {
      DateShown(events, today, tomorrow, d);
      GroupedGet(important, today, tomorrow, d);
      SortCorrect(Get(groups, d).GetOr([]), TimeLe);
    }
  }

  lemma DateShown(events: seq<CalendarEvent>, today: string, tomorrow: string, d: string)
    ensures var groups := Grouped(Filter(events, Important), today, tomorrow);
      d in ScheduleDates(events, today, tomorrow) <==> d in Keys(groups)
    ensures d in ScheduleDates(events, today, tomorrow) <==>
      (d == today || d == tomorrow) && exists e :: e in events && Important(e) && e.date == d
  {
    var important := Filter(events, Important);
    var groups := Grouped(important, today, tomorrow);
    var keys := Keys(groups);
    LexLeTotalPreorder();
    SortCorrect(keys, LexLe);
    assert d in ScheduleDates(events, today, tomorrow) <==> d in multiset(keys);
    GroupedGet(important, today, tomorrow, d);
    OnDateMembers(important, d);
    if (d == today || d == tomorrow) && exists e :: e in events && Important(e) && e.date == d {
      var e :| e in events && Important(e) && e.date == d;
      assert e in OnDate(important, d);
    }
    if d in keys {
      var x := OnDate(important, d)[0];
      assert x in OnDate(important, d);
      assert x in important;
    }
  }

  /** Important events, but none today or tomorrow: just the header (the
      early "nothing scheduled" return is not taken). */
  lemma CalendarOutsideWindow(events: seq<CalendarEvent>, today: string, tomorrow: string)
    requires exists e :: e in events && Important(e)
    requires forall e :: e in events && Important(e) ==> e.date != today && e.date != tomorrow
    ensures CalendarSummary(events, today, tomorrow) == Strip(CalendarHeader(today, tomorrow))
  {
    var important := Filter(events, Important);
    var e :| e in events && Important(e);
    assert e in important;
    GroupedOutside(important, today, tomorrow);
    var header := CalendarHeader(today, tomorrow);
    assert ScheduleLines(header, []) == [header];
  }

  /** Events none of which falls today or tomorrow leave the groups empty. */
  lemma {:induction false} GroupedOutside(events: seq<CalendarEvent>, today: string, tomorrow: string)
    requires forall e :: e in events ==> e.date != today && e.date != tomorrow
    ensures Grouped(events, today, tomorrow) == []
    decreases |events|
  {
    if events != [] {
      var p := events[..|events| - 1];
      assert forall e :: e in p ==> e in events;
      GroupedOutside(p, today, tomorrow);
      assert events[|events| - 1] in events;
    }
  }

  /** The grouping loop of `process_economic_calendar`. */
  method GroupByDate(important: seq<CalendarEvent>, today: string, tomorrow: string) returns (groups: Dict<seq<CalendarEvent>>)
    ensures groups == Grouped(important, today, tomorrow)
  {
    groups := [];
    var i := 0;
    while i < |important|
      invariant 0 <= i <= |important|
      invariant groups == Grouped(important[..i], today, tomorrow)
    {
      var e := important[i];
      assert important[..i + 1][..i] == important[..i];
      if e.date == today || e.date == tomorrow {
        // `events_by_date[date] = []` for a new date, then the append
        var day := Get(groups, e.date).GetOr([]);
        groups := Put(groups, e.date, day + [e]);
      }
      i := i + 1;
    }
    assert important[..i] == important;
  }

  /** The lines of one event, appended in the order `process_economic_calendar`
      appends them. */
  method AppendEvent(formatted: seq<string>, e: CalendarEvent) returns (r: seq<string>)
    ensures r == formatted + EventLines(e)
  {
    r := formatted + [e.time + " [" + e.country + "] " + e.importance + " " + e.event];
    if e.actual != News.NA {
      r := r + ["  발표: " + e.actual];
    }
    if e.forecast != News.NA {
      r := r + ["  예상: " + e.forecast];
    }
    if e.previous != News.NA {
      r := r + ["  이전: " + e.previous];
    }
    r := r + [""];
  }

  /** The lines of one date appended: heading, then its events by time. */
  method AppendDate(formatted: seq<string>, groups: Dict<seq<CalendarEvent>>, d: string) returns (r: seq<string>)
    ensures r == formatted + DateBlock(groups)(d)
  {
    var heading := ["\n[" + d + "]"];
    var pre := formatted + heading;
    var dayEvents := Sort(Get(groups, d).GetOr([]), TimeLe);
    r := pre;
    var j := 0;
    while j < |dayEvents|
      invariant 0 <= j <= |dayEvents|
      invariant r == pre + FlatMap(dayEvents[..j], EventLines)
    {
      r := AppendEvent(r, dayEvents[j]);
      FlatMapSnoc(dayEvents, j, EventLines);
      AppendAssoc(pre, FlatMap(dayEvents[..j], EventLines), EventLines(dayEvents[j]));
      j := j + 1;
    }
    assert dayEvents[..j] == dayEvents;
    AppendAssoc(formatted, heading, FlatMap(dayEvents, EventLines));
    assert DateBlock(groups)(d) == heading + FlatMap(dayEvents, EventLines);
  }

  /** The rendering loop: the header, then each date's lines, for the dates
      in the order given. */
  method RenderSchedule(header: string, groups: Dict<seq<CalendarEvent>>, dates: seq<string>) returns (formatted: seq<string>)
    ensures formatted == [header] + FlatMap(dates, DateBlock(groups))
  {
    var block := DateBlock(groups);
    formatted := [header];
    var k := 0;
    while k < |dates|
      invariant 0 <= k <= |dates|
      invariant formatted == [header] + FlatMap(dates[..k], block)
    {
      formatted := AppendDate(formatted, groups, dates[k]);
      FlatMapSnoc(dates, k, block);
      AppendAssoc([header], FlatMap(dates[..k], block), block(dates[k]));
      k := k + 1;
    }
    assert dates[..k] == dates;
  }

  method ProcessEconomicCalendar(events: seq<CalendarEvent>, today: string, tomorrow: string) returns (text: string)
    ensures text == CalendarSummary(events, today, tomorrow)
  {
    if events == [] {
      return NO_SCHEDULE;
    }
    var header := CalendarHeader(today, tomorrow);
    var important := Filter(events, Important);
    if important == [] {
      return NO_SCHEDULE;
    }
    var groups := GroupByDate(important, today, tomorrow);
    var formatted := RenderSchedule(header, groups, Sort(Keys(groups), LexLe));
    text := Strip(Join("\n", formatted));
  }

}
