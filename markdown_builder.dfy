/**
 * src/markdown_builder.py: the Markdown report. Each data section is the
 * processor's summary, an empty line and one subsection per entry of the
 * data dict; the report fills REPORT_TEMPLATE, whose placeholders are the
 * date and the US, Korean, currency, news and calendar sections only.
 * TREASURY_SECTION_TEMPLATE and BUFFETT_INDICATOR_TEMPLATE are imported by
 * the module but not defined in config/templates.py, so they are parameters
 * here, as are the project directory and number formatting.
 */
module MarkdownBuilder {
  import opened Wrappers
  import opened Numbers
  import opened Seqs
  import opened Dicts
  import Settings
  import UsMarket
  import KrMarket
  import UsTreasury
  import Forex
  import Buffett
  import News
  import OptionAnalysis
  import DataProcessor

  // ----- subsections -----

  /** The subsections of a data section: one rendered entry per item of the
      dict, in dict order. */
  function Subsections<V>(data: Dict<V>, render: (string, V) -> string): (r: seq<string>)
    ensures |r| == |data|
    ensures forall i :: 0 <= i < |data| ==> r[i] == render(data[i].0, data[i].1)
    decreases |data|
  {
    if data == [] then []
    else
      var last := data[|data| - 1];
      Subsections(data[..|data| - 1], render) + [render(last.0, last.1)]
  }

  /** The `for name, item in data.items(): sections.append(...)` loop. */
  method RenderAll<V>(data: Dict<V>, render: (string, V) -> string) returns (sections: seq<string>)
    ensures sections == Subsections(data, render)
  {
    sections := [];
    var i := 0;
    while i < |data|
      invariant 0 <= i <= |data|
      invariant sections == Subsections(data[..i], render)
    {
      sections := sections + [render(data[i].0, data[i].1)];
      assert data[..i + 1][..i] == data[..i];
      i := i + 1;
    }
    assert data[..i] == data;
  }

  /** `summary + "\n\n" + sep.join(sections)`. */
  function Section(summary: string, sep: string, sections: seq<string>): string {
    summary + "\n\n" + Join(sep, sections)
  }

  /** A section starts with its summary and an empty line; with no entries
      that is all of it, with one entry the entry follows directly. */
  lemma SectionShape(summary: string, sep: string, sections: seq<string>)
    ensures StartsWith(Section(summary, sep, sections), summary + "\n\n")
    ensures sections == [] ==> Section(summary, sep, sections) == summary + "\n\n"
    ensures |sections| == 1 ==> Section(summary, sep, sections) == summary + "\n\n" + sections[0]
  {
    var head := summary + "\n\n";
    assert Section(summary, sep, sections)[..|head|] == head;
  }

  // ----- market sections -----

  /** MARKET_SECTION_TEMPLATE filled in for one index, with the chart image
      of that index on the report's date. */
  function MarketSection(fmt: Formatter, baseDir: string, date: string, name: string,
                         close: real, change: real, volume: real, yearHighRatio: real): (r: string)
    ensures StartsWith(r, "\n### " + name + "\n- 종가: ")
    ensures var tail := Settings.ImageFilepath(baseDir, name, date) + ")\n";
      |r| >= |tail| && r[|r| - |tail|..] == tail
  {
    var head := "\n### " + name + "\n- 종가: ";
    var tail := Settings.ImageFilepath(baseDir, name, date) + ")\n";
    var r := head
      + (Fmt(fmt, Comma2, close) + " (" + Fmt(fmt, Signed2, change) + "%)"
      + "\n- 거래량: " + Fmt(fmt, NumFormat.Grouped, volume)
      + "\n- 52주 최고가 대비: " + Fmt(fmt, Fixed1, yearHighRatio) + "%"
      + "\n\n![" + name + " Price Movement](")
      + tail;
    assert r[..|head|] == head;
    assert r[|r| - |tail|..] == tail;
    r
  }

  function UsRender(fmt: Formatter, baseDir: string, date: string): (string, UsMarket.UsQuote) -> string {
    (name: string, q: UsMarket.UsQuote) => MarketSection(fmt, baseDir, date, name, q.close, q.change, q.volume, q.yearHighRatio)
  }

  function KrRender(fmt: Formatter, baseDir: string, date: string): (string, KrMarket.KrQuote) -> string {
    (name: string, q: KrMarket.KrQuote) => MarketSection(fmt, baseDir, date, name, q.close, q.change, q.volume, q.yearHighRatio)
  }

  /** TREASURY_SECTION_TEMPLATE, given the name, yield, change, 52-week high
      and 52-week low it is formatted with. */
  type TreasuryTemplate = (string, real, real, real, real) -> string

  function TreasuryRender(template: TreasuryTemplate): (string, UsTreasury.TreasuryQuote) -> string {
    (name: string, q: UsTreasury.TreasuryQuote) => template(name, q.yieldRate, q.change, q.yearHigh, q.yearLow)
  }

  // ----- currency section -----

  /** The figures a currency subsection shows: rate, 52-week low and high,
      and the unit of the rate. */
  datatype FxFigures = FxFigures(rate: real, low: real, high: real, unit: string)

  /** A yen pair is shown per 100 yen. */
  function FxShown(pair: string, q: Forex.FxQuote): FxFigures {
    if DataProcessor.Currency(pair) == "JPY" then FxFigures(q.rate * 100.0, q.yearLow * 100.0, q.yearHigh * 100.0, "원/100엔")
    else FxFigures(q.rate, q.yearLow, q.yearHigh, "원")
  }

  /** The yen rate and band are the won prices of 100 yen; every other pair
      is shown as quoted. In both cases the band keeps its order. */
  lemma FxShownMeaning(pair: string, q: Forex.FxQuote)
    ensures DataProcessor.Currency(pair) == "JPY" ==>
      && FxShown(pair, q).rate == 100.0 * q.rate
      && FxShown(pair, q).low == 100.0 * q.yearLow
      && FxShown(pair, q).high == 100.0 * q.yearHigh
      && FxShown(pair, q).unit == "원/100엔"
    ensures DataProcessor.Currency(pair) != "JPY" ==>
      FxShown(pair, q) == FxFigures(q.rate, q.yearLow, q.yearHigh, "원")
    ensures q.yearLow <= q.yearHigh ==> FxShown(pair, q).low <= FxShown(pair, q).high
  {
  }

  /** The subsection of one currency pair. */
  function FxSubsection(fmt: Formatter, pair: string, q: Forex.FxQuote): (r: string)
    ensures StartsWith(r, "### " + pair + "\n- 환율: ")
    ensures |r| >= 1 && r[|r| - 1] == '원'
  {
    var shown := FxShown(pair, q);
    "### " + pair
    + "\n- 환율: " + Fmt(fmt, Fixed2, shown.rate) + shown.unit + " (" + Fmt(fmt, Signed2, q.change) + "%)"
    + "\n- 52주 변동폭: " + Fmt(fmt, Fixed2, shown.low) + "원 ~ " + Fmt(fmt, Fixed2, shown.high) + "원"
  }

  function FxRender(fmt: Formatter): (string, Forex.FxQuote) -> string {
    (pair: string, q: Forex.FxQuote) => FxSubsection(fmt, pair, q)
  }

  // ----- Buffett indicator section -----

  /** The values BUFFETT_INDICATOR_TEMPLATE is formatted with; a NaN band
      edge is NaN. */
  datatype BuffettArgs = BuffettArgs(
    currentRatio: Ext, historicalMean: Ext, marketStatus: string,
    deviationFromTrend: Ext, zscore: Ext, lower2std: Ext, upper2std: Ext)

  type BuffettTemplate = BuffettArgs -> string

  const NO_STATUS := "정보 없음"

  function OrNaN(x: Option<real>): Ext {
    if x.Some? then Finite(x.value) else NaN
  }

  /** `data.get(key, 0)` over the status dict, or over `{}` (None). */
  function BuffettArgsOf(data: Option<Buffett.Status>): (r: BuffettArgs)
    ensures data.None? ==> r == BuffettArgs(Finite(0.0), Finite(0.0), NO_STATUS, Finite(0.0), Finite(0.0), Finite(0.0), Finite(0.0))
    ensures data.Some? ==>
      && r.currentRatio == Finite(data.value.currentRatio)
      && r.historicalMean == Finite(data.value.historicalMean)
      && r.marketStatus == Buffett.Label(data.value.marketStatus)
      && r.deviationFromTrend == data.value.deviationFromTrend
      && r.zscore == data.value.zscore
      && (r.lower2std.Finite? <==> data.value.lower2std.Some?)
      && (r.upper2std.Finite? <==> data.value.upper2std.Some?)
      && r.lower2std == (if data.value.lower2std.Some? then Finite(data.value.lower2std.value) else NaN)
      && r.upper2std == (if data.value.upper2std.Some? then Finite(data.value.upper2std.value) else NaN)
  {
    match data
    case None => BuffettArgs(Finite(0.0), Finite(0.0), NO_STATUS, Finite(0.0), Finite(0.0), Finite(0.0), Finite(0.0))
    case Some(s) =>
      BuffettArgs(Finite(s.currentRatio), Finite(s.historicalMean), Buffett.Label(s.marketStatus),
                  s.deviationFromTrend, s.zscore, OrNaN(s.lower2std), OrNaN(s.upper2std))
  }

  // ----- the report -----

  /** REPORT_TEMPLATE filled in. */
  function Report(date: string, us: string, kr: string, fx: string, news: string, calendar: string): (r: string)
    ensures StartsWith(r, "\n# " + date + " 시장 동향 리포트\n")
    ensures var tail := "\n## 5. 다가오는 경제 지표\n" + calendar + "\n";
      |r| >= |tail| && r[|r| - |tail|..] == tail
  {
    var title := "\n# " + date + " 시장 동향 리포트\n";
    var last := "\n## 5. 다가오는 경제 지표\n" + calendar + "\n";
    var r := title
      + ("\n## 1. 미국 시장 동향\n" + us + "\n"
      + "\n## 2. 한국 시장 동향\n" + kr + "\n"
      + "\n## 3. 주요 환율\n" + fx + "\n"
      + "\n## 4. 주요 뉴스\n" + news + "\n")
      + last;
    assert r[..|title|] == title;
    assert r[|r| - |last|..] == last;
    r
  }

  /** The arguments of `build_report`. */
  datatype ReportInputs = ReportInputs(
    usData: Dict<UsMarket.UsQuote>, usSummary: string,
    treasuryData: Dict<UsTreasury.TreasuryQuote>, treasurySummary: string,
    krData: Dict<KrMarket.KrQuote>, krSummary: string,
    fxData: Dict<Forex.FxQuote>, fxSummary: string,
    buffettData: Option<Buffett.Status>, buffettSummary: string,
    newsSummary: string, calendarSummary: string,
    optionsData: Option<Dict<OptionAnalysis.Analysis>>, optionsSummary: Option<string>)

  /** The text `build_report` returns for the builder's date. */
  function ReportText(fmt: Formatter, baseDir: string, date: string, inputs: ReportInputs): string {
    Report(date,
      Section(inputs.usSummary, "\n", Subsections(inputs.usData, UsRender(fmt, baseDir, date))),
      Section(inputs.krSummary, "\n", Subsections(inputs.krData, KrRender(fmt, baseDir, date))),
      Section(inputs.fxSummary, "\n\n", Subsections(inputs.fxData, FxRender(fmt))),
      inputs.newsSummary, inputs.calendarSummary)
  }

  /** The treasury, Buffett indicator and options inputs have no slot in the
      template: reports whose other inputs agree are equal, whatever those
      three sections hold. */
  lemma ReportIgnoresUnslottedSections(fmt: Formatter, baseDir: string, date: string, a: ReportInputs, b: ReportInputs)
    requires a.usData == b.usData && a.usSummary == b.usSummary
    requires a.krData == b.krData && a.krSummary == b.krSummary
    requires a.fxData == b.fxData && a.fxSummary == b.fxSummary
    requires a.newsSummary == b.newsSummary && a.calendarSummary == b.calendarSummary
    ensures ReportText(fmt, baseDir, date, a) == ReportText(fmt, baseDir, date, b)
  {
  }

  /** With no US, Korean or currency data, each of those sections is its
      summary and an empty line. */
  lemma EmptyDataSections(fmt: Formatter, baseDir: string, date: string, inputs: ReportInputs)
    requires inputs.usData == [] && inputs.krData == [] && inputs.fxData == []
    ensures ReportText(fmt, baseDir, date, inputs)
      == Report(date, inputs.usSummary + "\n\n", inputs.krSummary + "\n\n", inputs.fxSummary + "\n\n",
                inputs.newsSummary, inputs.calendarSummary)
  {
    SectionShape(inputs.usSummary, "\n", []);
    SectionShape(inputs.krSummary, "\n", []);
    SectionShape(inputs.fxSummary, "\n\n", []);
  }

  // ----- defaults of create_report -----

  /** `text or fallback`: a missing or empty text is replaced. */
  function TextOr(text: Option<string>, fallback: string): (r: string)
    ensures text.Some? && text.value != "" ==> r == text.value
    ensures text.None? || text.value == "" ==> r == fallback
    ensures fallback != "" ==> r != ""
  {
    if text.Some? && text.value != "" then text.value else fallback
  }

  /** `text or fallback` as seen from its result: a given non-empty text is
      kept, a missing or empty one is replaced by the fallback. */
  predicate KeptOr(text: Option<string>, fallback: string, r: string) {
    && (text.Some? && text.value != "" ==> r == text.value)
    && (text.None? || text.value == "" ==> r == fallback)
  }

  /** `data or {}` as seen from its result: a given dict is kept (an empty
      one stays empty), a missing one becomes empty. */
  predicate KeptOrEmpty<T(==)>(data: Option<Dict<T>>, r: Dict<T>) {
    && (data.Some? ==> r == data.value)
    && (data.None? ==> r == [])
  }

  const US_FALLBACK := "미국 시장 데이터를 가져올 수 없습니다."
  const TREASURY_FALLBACK := "미국 국채 데이터를 가져올 수 없습니다."
  const KR_FALLBACK := "한국 시장 데이터를 가져올 수 없습니다."
  const FX_FALLBACK := "환율 데이터를 가져올 수 없습니다."
  const BUFFETT_FALLBACK := "버핏 지표 데이터를 가져올 수 없습니다."
  const NEWS_FALLBACK := "뉴스 데이터를 가져올 수 없습니다."
  const CALENDAR_FALLBACK := "경제 지표 데이터를 가져올 수 없습니다."
  const OPTIONS_FALLBACK := "옵션 시장 데이터를 가져올 수 없습니다."

  /** The optional arguments of `create_report`; a data dict that is None or
      empty is `None` (the Buffett status dict is either complete or `{}`). */
  datatype RawInputs = RawInputs(
    usData: Option<Dict<UsMarket.UsQuote>>, usSummary: Option<string>,
    treasuryData: Option<Dict<UsTreasury.TreasuryQuote>>, treasurySummary: Option<string>,
    krData: Option<Dict<KrMarket.KrQuote>>, krSummary: Option<string>,
    fxData: Option<Dict<Forex.FxQuote>>, fxSummary: Option<string>,
    buffettData: Option<Buffett.Status>, buffettSummary: Option<string>,
    newsSummary: Option<string>, calendarSummary: Option<string>,
    optionsData: Option<Dict<OptionAnalysis.Analysis>>, optionsSummary: Option<string>)

  /** The arguments `create_report` passes on to `build_report`. After the
      defaults every summary is non-empty, a given non-empty summary is kept
      as it is, a missing or empty one is its fallback message, a given dict
      is kept and a missing one is empty. */
  function Defaulted(raw: RawInputs): (d: ReportInputs)
    ensures && d.usSummary != "" && d.treasurySummary != "" && d.krSummary != "" && d.fxSummary != ""
      && d.buffettSummary != "" && d.newsSummary != "" && d.calendarSummary != ""
      && d.optionsSummary.Some? && d.optionsSummary.value != ""
    ensures KeptOr(raw.usSummary, US_FALLBACK, d.usSummary)
    ensures KeptOr(raw.treasurySummary, TREASURY_FALLBACK, d.treasurySummary)
    ensures KeptOr(raw.krSummary, KR_FALLBACK, d.krSummary)
    ensures KeptOr(raw.fxSummary, FX_FALLBACK, d.fxSummary)
    ensures KeptOr(raw.buffettSummary, BUFFETT_FALLBACK, d.buffettSummary)
    ensures KeptOr(raw.newsSummary, NEWS_FALLBACK, d.newsSummary)
    ensures KeptOr(raw.calendarSummary, CALENDAR_FALLBACK, d.calendarSummary)
    ensures KeptOr(raw.optionsSummary, OPTIONS_FALLBACK, d.optionsSummary.value)
    ensures KeptOrEmpty(raw.usData, d.usData)
    ensures KeptOrEmpty(raw.treasuryData, d.treasuryData)
    ensures KeptOrEmpty(raw.krData, d.krData)
    ensures KeptOrEmpty(raw.fxData, d.fxData)
    ensures d.optionsData.Some? && KeptOrEmpty(raw.optionsData, d.optionsData.value)
    ensures d.buffettData == raw.buffettData
  {
    ReportInputs(
      raw.usData.GetOr([]), TextOr(raw.usSummary, US_FALLBACK),
      raw.treasuryData.GetOr([]), TextOr(raw.treasurySummary, TREASURY_FALLBACK),
      raw.krData.GetOr([]), TextOr(raw.krSummary, KR_FALLBACK),
      raw.fxData.GetOr([]), TextOr(raw.fxSummary, FX_FALLBACK),
      raw.buffettData, TextOr(raw.buffettSummary, BUFFETT_FALLBACK),
      TextOr(raw.newsSummary, NEWS_FALLBACK), TextOr(raw.calendarSummary, CALENDAR_FALLBACK),
      Some(raw.optionsData.GetOr([])), Some(TextOr(raw.optionsSummary, OPTIONS_FALLBACK)))
  }

  /** A report made with no arguments at all: empty sections under the
      fallback messages. */
  lemma DefaultReport(fmt: Formatter, baseDir: string, date: string)
    ensures var none := RawInputs(None, None, None, None, None, None, None, None, None, None, None, None, None, None);
      ReportText(fmt, baseDir, date, Defaulted(none))
        == Report(date, US_FALLBACK + "\n\n", KR_FALLBACK + "\n\n", FX_FALLBACK + "\n\n", NEWS_FALLBACK, CALENDAR_FALLBACK)
  {
    var none := RawInputs(None, None, None, None, None, None, None, None, None, None, None, None, None, None);
    EmptyDataSections(fmt, baseDir, date, Defaulted(none));
  }

  // ----- the builder -----

  class MarkdownBuilder {
    /** The report date, YYYY-MM-DD. */
    const date: string
    /** The project directory that the image paths are under. */
    const baseDir: string
    const fmt: Formatter

    /** `MarkdownBuilder(date)`: the given date, or today's when it is
        missing or empty. */
    constructor(date: Option<string>, today: string, baseDir: string, fmt: Formatter)
      ensures this.date == TextOr(date, today)
      ensures this.baseDir == baseDir && this.fmt == fmt
    {
      this.date := TextOr(date, today);
      this.baseDir := baseDir;
      this.fmt := fmt;
    }

    /** One market subsection per index, in dict order, each with its chart
        for the report's date. */
    method BuildUsMarketSection(data: Dict<UsMarket.UsQuote>, summary: string) returns (r: string)
      ensures r == Section(summary, "\n", Subsections(data, UsRender(fmt, baseDir, date)))
    {
      var sections := RenderAll(data, UsRender(fmt, baseDir, date));
      r := summary + "\n\n" + Join("\n", sections);
    }

    method BuildKrMarketSection(data: Dict<KrMarket.KrQuote>, summary: string) returns (r: string)
      ensures r == Section(summary, "\n", Subsections(data, KrRender(fmt, baseDir, date)))
    {
      var sections := RenderAll(data, KrRender(fmt, baseDir, date));
      r := summary + "\n\n" + Join("\n", sections);
    }

    method BuildUsTreasurySection(data: Dict<UsTreasury.TreasuryQuote>, summary: string, template: TreasuryTemplate) returns (r: string)
      ensures r == Section(summary, "\n", Subsections(data, TreasuryRender(template)))
    {
      var sections := RenderAll(data, TreasuryRender(template));
      r := summary + "\n\n" + Join("\n", sections);
    }

    /** Currency subsections are separated by an empty line. */
    method BuildForexSection(data: Dict<Forex.FxQuote>, summary: string) returns (r: string)
      ensures r == Section(summary, "\n\n", Subsections(data, FxRender(fmt)))
    {
      var sections := RenderAll(data, FxRender(fmt));
      r := summary + "\n\n" + Join("\n\n", sections);
    }

    method BuildBuffettIndicatorSection(data: Option<Buffett.Status>, summary: string, template: BuffettTemplate) returns (r: string)
      ensures r == summary + "\n\n" + template(BuffettArgsOf(data))
    {
      r := summary + "\n\n" + template(BuffettArgsOf(data));
    }

    /** The news, calendar and options sections are the processors' text
        unchanged. */
    method BuildNewsSection(newsData: Dict<seq<News.Article>>, summary: string) returns (r: string)
      ensures r == summary
    {
      r := summary;
    }

    method BuildCalendarSection(calendarData: seq<DataProcessor.CalendarEvent>, summary: string) returns (r: string)
      ensures r == summary
    {
      r := summary;
    }

    method BuildOptionsSection(data: Dict<OptionAnalysis.Analysis>, summary: string) returns (r: string)
      ensures r == summary
    {
      r := summary;
    }

    /** `build_report(...)`: every section is built, and the template keeps
        the US, Korean, currency, news and calendar ones. */
    method BuildReport(inputs: ReportInputs, treasuryTemplate: TreasuryTemplate, buffettTemplate: BuffettTemplate) returns (report: string)
      ensures report == ReportText(fmt, baseDir, date, inputs)
    {
      var us := BuildUsMarketSection(inputs.usData, inputs.usSummary);
      var options := BuildOptionsSection(inputs.optionsData.GetOr([]), TextOr(inputs.optionsSummary, OPTIONS_FALLBACK));
      var treasury := BuildUsTreasurySection(inputs.treasuryData, inputs.treasurySummary, treasuryTemplate);
      var kr := BuildKrMarketSection(inputs.krData, inputs.krSummary);
      var fx := BuildForexSection(inputs.fxData, inputs.fxSummary);
      var buffett := BuildBuffettIndicatorSection(inputs.buffettData, inputs.buffettSummary, buffettTemplate);
      report := Report(date, us, kr, fx, inputs.newsSummary, inputs.calendarSummary);
    }
  }

  /** `create_report(...)` up to the write: the defaults, the report text and
      the file it is saved to (`save_report` is not part of this model). */
  method CreateReport(date: Option<string>, today: string, baseDir: string, fmt: Formatter, raw: RawInputs,
                      treasuryTemplate: TreasuryTemplate, buffettTemplate: BuffettTemplate)
    returns (path: string, content: string)
    ensures content == ReportText(fmt, baseDir, TextOr(date, today), Defaulted(raw))
    ensures path == Settings.ReportFilepath(baseDir, TextOr(date, today))
  {
    var builder := new MarkdownBuilder(date, today, baseDir, fmt);
    content := builder.BuildReport(Defaulted(raw), treasuryTemplate, buffettTemplate);
    path := Settings.ReportFilepath(baseDir, builder.date);
  }
}
