/**
 * utils/calendar.py: the economic-indicator calendar built on FRED. The
 * client is created only with an API key; the recent releases are given as
 * values (the FRED series reads are not part of this model) and are listed
 * as text, one block per release.
 */
module EconCalendar {
  import opened Wrappers
  import opened Numbers
  import opened Dicts
  import opened Seqs

  /** Korean names of the FRED series codes. */
  const INDICATOR_NAMES: Dict<string> := [
    ("GDP", "국내총생산(GDP)"), ("UNRATE", "실업률"), ("CPIAUCSL", "소비자물가지수"),
    ("FEDFUNDS", "기준금리"), ("INDPRO", "산업생산지수"), ("PAYEMS", "비농업부문고용"),
    ("PCE", "개인소비지출"), ("HOUST", "주택착공건수"), ("BOGMBASE", "본원통화"),
    ("RETAILSMNSA", "소매판매")]

  /** `INDICATOR_NAMES.get(code, code)`, one case per table entry. */
  function IndicatorName(code: string): (r: string) {
    match code
    case "GDP" => "국내총생산(GDP)"
    case "UNRATE" => "실업률"
    case "CPIAUCSL" => "소비자물가지수"
    case "FEDFUNDS" => "기준금리"
    case "INDPRO" => "산업생산지수"
    case "PAYEMS" => "비농업부문고용"
    case "PCE" => "개인소비지출"
    case "HOUST" => "주택착공건수"
    case "BOGMBASE" => "본원통화"
    case "RETAILSMNSA" => "소매판매"
    case _ => code
  }

  /** The case analysis is the table lookup: a listed code maps to the name
      the table gives it, and any other code maps to itself. */
  lemma IndicatorNameIsLookup(code: string)
    ensures IndicatorName(code) == Get(INDICATOR_NAMES, code).GetOr(code)
  {
    if code in Keys(INDICATOR_NAMES) {
      ListedLookup(code);
    } else {
      UnlistedLookup(code);
    }
  }

  lemma ListedLookup(code: string)
    requires code in Keys(INDICATOR_NAMES)
    ensures IndicatorName(code) == Get(INDICATOR_NAMES, code).GetOr(code)
  {
    var t := INDICATOR_NAMES;
    var i :| 0 <= i < |t| && Keys(t)[i] == code;
    IndicatorNamesListed(i);
  }

  lemma UnlistedLookup(code: string)
    requires code !in Keys(INDICATOR_NAMES)
    ensures IndicatorName(code) == Get(INDICATOR_NAMES, code).GetOr(code)
  {
    IndicatorCodesLow();
    IndicatorCodesHigh();
    var k := Keys(INDICATOR_NAMES);
    assert k[0] in k && k[1] in k && k[2] in k && k[3] in k && k[4] in k;
    assert k[5] in k && k[6] in k && k[7] in k && k[8] in k && k[9] in k;
    UnlistedName(code);
  }

  /** The first five codes of the table. */
  lemma IndicatorCodesLow()
    ensures |Keys(INDICATOR_NAMES)| == 10
    ensures Keys(INDICATOR_NAMES)[0] == "GDP" && Keys(INDICATOR_NAMES)[1] == "UNRATE"
    ensures Keys(INDICATOR_NAMES)[2] == "CPIAUCSL" && Keys(INDICATOR_NAMES)[3] == "FEDFUNDS"
    ensures Keys(INDICATOR_NAMES)[4] == "INDPRO"
  {
    var t := INDICATOR_NAMES;
    var k := Keys(t);
    assert k[0] == t[0].0 && k[1] == t[1].0 && k[2] == t[2].0 && k[3] == t[3].0 && k[4] == t[4].0;
  }

  /** The last five codes of the table. */
  lemma IndicatorCodesHigh()
    ensures |Keys(INDICATOR_NAMES)| == 10
    ensures Keys(INDICATOR_NAMES)[5] == "PAYEMS" && Keys(INDICATOR_NAMES)[6] == "PCE"
    ensures Keys(INDICATOR_NAMES)[7] == "HOUST" && Keys(INDICATOR_NAMES)[8] == "BOGMBASE"
    ensures Keys(INDICATOR_NAMES)[9] == "RETAILSMNSA"
  {
    var t := INDICATOR_NAMES;
    var k := Keys(t);
    assert k[5] == t[5].0 && k[6] == t[6].0 && k[7] == t[7].0 && k[8] == t[8].0 && k[9] == t[9].0;
  }

  lemma UnlistedName(code: string)
    requires code != "GDP" && code != "UNRATE" && code != "CPIAUCSL" && code != "FEDFUNDS" && code != "INDPRO"
    requires code != "PAYEMS" && code != "PCE" && code != "HOUST" && code != "BOGMBASE" && code != "RETAILSMNSA"
    ensures IndicatorName(code) == code
  {
  }

  /** No two table entries share a code, so the lookup of every listed code
      finds the name written beside it, and the case analysis agrees. */
  lemma IndicatorNamesListed(i: int)
    requires 0 <= i < |INDICATOR_NAMES|
    ensures Get(INDICATOR_NAMES, INDICATOR_NAMES[i].0) == Some(INDICATOR_NAMES[i].1)
    ensures IndicatorName(INDICATOR_NAMES[i].0) == INDICATOR_NAMES[i].1
  {
    var t := INDICATOR_NAMES;
    assert forall a :: 0 <= a < |t| ==> |t[a].0| >= 3;
    assert t[0].0[0] == 'G' && t[1].0[0] == 'U' && t[2].0[0] == 'C' && t[3].0[0] == 'F' && t[4].0[0] == 'I';
    assert t[5].0[0] == 'P' && t[6].0[0] == 'P' && t[7].0[0] == 'H' && t[8].0[0] == 'B' && t[9].0[0] == 'R';
    assert t[5].0[1] == 'A' && t[6].0[1] == 'C';
    assert forall a, b :: 0 <= a < b < |t| ==> t[a].0 != t[b].0;
    GetDistinct(t, i);
    IndicatorNameAt(i);
  }

  lemma IndicatorNameAt(i: int)
    requires 0 <= i < |INDICATOR_NAMES|
    ensures IndicatorName(INDICATOR_NAMES[i].0) == INDICATOR_NAMES[i].1
  {
    if i < 5 {
      assert i == 0 || i == 1 || i == 2 || i == 3 || i == 4;
    } else {
      assert i == 5 || i == 6 || i == 7 || i == 8 || i == 9;
    }
  }

  lemma {:induction false} GetDistinct<V>(d: Dict<V>, i: int)
    requires 0 <= i < |d|
    requires forall a, b :: 0 <= a < b < |d| ==> d[a].0 != d[b].0
    ensures Get(d, d[i].0) == Some(d[i].1)
    decreases |d|
  {
    if i > 0 {
      var rest := d[1..];
      assert forall a :: 0 <= a < |rest| ==> rest[a] == d[a + 1];
      GetDistinct(rest, i - 1);
    }
  }

  /** The client of a calendar: created only with a non-empty key. */
  datatype Calendar = Calendar(apiKey: string)

  const MISSING_KEY := "FRED API key is not set in environment variables"

  /** `EconomicCalendar()`: raises ValueError (Failure) when the key is empty. */
  function NewCalendar(apiKey: string): (r: Result<Calendar, string>)
    ensures r.Failure? <==> apiKey == ""
    ensures r.Failure? ==> r.error == MISSING_KEY
    ensures r.Success? ==> r.value.apiKey == apiKey
  {
    if apiKey == "" then Failure(MISSING_KEY) else Success(Calendar(apiKey))
  }

  /** An `EconomicEvent`: the latest release of a series and, when the series
      had two values, the one before it. */
  datatype EconomicEvent = EconomicEvent(
    date: string, indicator: string, value: real,
    previousValue: Option<real>, description: Option<string>)

  /** `(v - p) / p * 100` on float64, infinite or NaN for a zero previous value. */
  function PctChange(value: real, previous: real): (r: Ext)
    ensures previous != 0.0 ==> r == Finite((value - previous) / previous * 100.0)
    ensures previous == 0.0 ==> !r.Finite?
  {
    Scale(Div(value - previous, previous), 100.0)
  }

  /** The change text: empty without a previous value, otherwise the signed
      percent change in parentheses. */
  function ChangeText(fmt: Formatter, e: EconomicEvent): (r: string)
    ensures e.previousValue.None? <==> r == ""
    ensures e.previousValue.Some? ==> r == "(전기대비 " + fmt(Signed1, PctChange(e.value, e.previousValue.value)) + "%)"
  {
    match e.previousValue
    case None => ""
    case Some(p) => "(전기대비 " + fmt(Signed1, PctChange(e.value, p)) + "%)"
  }

  /** `f"{description}"` of an optional description. */
  function DescriptionText(d: Option<string>): string {
    match d
    case None => "None"
    case Some(s) => s
  }

  /** The block of one release. */
  function Block(fmt: Formatter, e: EconomicEvent): (r: string)
    ensures StartsWith(r, "- " + IndicatorName(e.indicator) + ": ")
    ensures |r| >= 2 && r[|r| - 2..] == "\n\n"
  {
    "- " + IndicatorName(e.indicator) + ": " + Fmt(fmt, Fixed2, e.value) + " " + ChangeText(fmt, e) + "\n"
    + "  날짜: " + e.date + "\n"
    + "  설명: " + DescriptionText(e.description) + "\n\n"
  }

  /** `Block` with its formatter fixed. */
  function BlockOf(fmt: Formatter): EconomicEvent -> string {
    e => Block(fmt, e)
  }

  /** The blocks of the releases, in order. */
  function Blocks(fmt: Formatter, events: seq<EconomicEvent>): string {
    FlatMap(events, BlockOf(fmt))
  }

  /** The blocks of two lists of releases, one after the other, are the
      blocks of the joined list. */
  lemma BlocksAppend(fmt: Formatter, a: seq<EconomicEvent>, b: seq<EconomicEvent>)
    ensures Blocks(fmt, a + b) == Blocks(fmt, a) + Blocks(fmt, b)
  {
    FlatMapAppend(a, b, BlockOf(fmt));
  }

  const HEADER := "최근 발표된 주요 경제지표:\n\n"

  /** `format_recent_data(events)`: the header, then one block per release in
      the order given. */
  method FormatRecentData(fmt: Formatter, events: seq<EconomicEvent>) returns (text: string)
    ensures text == HEADER + Blocks(fmt, events)
  {
    var block := BlockOf(fmt);
    text := HEADER;
    var i := 0;
    while i < |events|
      invariant 0 <= i <= |events|
      invariant text == HEADER + FlatMap(events[..i], block)
    {
      FlatMapSnoc(events, i, block);
      AppendAssoc(HEADER, FlatMap(events[..i], block), block(events[i]));
      text := text + block(events[i]);
      i := i + 1;
    }
    assert events[..i] == events;
  }

  /** The text of a single release starts with its Korean name (the code
      itself when the code is unknown) and shows no change without a previous
      value. */
  lemma SingleRelease(fmt: Formatter, e: EconomicEvent)
    ensures Blocks(fmt, [e]) == Block(fmt, e)
    ensures e.previousValue.None? ==> (Block(fmt, e) ==
      "- " + IndicatorName(e.indicator) + ": " + Fmt(fmt, Fixed2, e.value) + " " + "\n"
      + "  날짜: " + e.date + "\n" + "  설명: " + DescriptionText(e.description) + "\n\n")
  {
    assert [e][..0] == [];
    assert FlatMap([e], BlockOf(fmt)) == FlatMap([], BlockOf(fmt)) + BlockOf(fmt)(e);
    assert "" + Block(fmt, e) == Block(fmt, e);
  }
}
