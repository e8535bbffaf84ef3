# economy_blog market report: a Dafny model

economy_blog writes a daily Korean-language market report in Markdown. It
fetches US and Korean index histories, treasury yields, exchange rates,
option chains, the Buffett indicator inputs, news articles and an economic
calendar. It then condenses each data set into a summary and assembles the
sections into the report. This project models what happens after the
fetches:

- the record shaping in the fetcher modules (latest and previous row, 52-week
  range, percent change, guarded ratios, the `get_all_*` dictionaries);
- the threshold classifiers (volume, volatility, Fed spread, put/call signal,
  skew and term-structure trend, Buffett valuation);
- the narrative decision logic of `DataProcessor`;
- option expiry selection;
- the news and calendar text;
- the Markdown assembly with its defaults;
- the report and image paths.

Modelling conventions:

- **Dictionaries.** A Python dict is a sequence of `(key, value)` pairs in
  insertion order (`Dicts.Dict`). The `get_all_*` loops are
  `Dicts.Collect`, proved against `Dicts.Collected`.
- **Numbers.** They are exact `real`s. Where numpy divides by zero, the result
  is an `Numbers.Ext` (finite, plus or minus infinity, NaN), and comparisons
  with it follow IEEE rules. Where pandas yields NaN (the mean of an empty
  band, a short rolling window), the value is an `Option`.
- **Opaque functions.** Number formatting (`{:,.2f}` and the like) is a
  `Numbers.Formatter` parameter. The sample standard deviation is a parameter
  `std`, specified only as "defined for two or more values, and non-negative".
- **Fetches become parameters.** Every fetch (yfinance, pykrx, FRED, the
  news API) is a parameter holding its result, with `None` for a failure or
  exception. The wall clock is a `today` (and `tomorrow`) string parameter.
- **Summaries.**
  - The four market summaries of `DataProcessor` are sequences of phrase
    tokens (`DataProcessor.Phrase`): one token per sentence the code can
    emit, carrying the numbers the sentence prints.
  - The news and calendar summaries are modelled as the exact strings.
- **Imperative code.** Loops in the source are `method`s with loop
  invariants, proved equal to a recursive specification function. The
  properties are proved as lemmas about those functions. `MarkdownBuilder`
  and `OptionDataCollector` are classes, because the source keeps the report
  date and the ticker in fields.

## Model

| member | source | states |
|---|---|---|
| History.Previous | utils/us_market.py:44-47 | the previous row is the second-to-last row, or the latest row when the history has one row |
| History.MaxHigh | utils/us_market.py:50 | the 52-week high is an actual High of the history and no High exceeds it |
| History.MinLow | utils/us_market.py:51 | the 52-week low is an actual Low and no Low is below it |
| History.PercentChange | utils/us_market.py:54 | change × old == (new − old) × 100 |
| History.PercentChangeSign | utils/us_market.py:54 | for a positive base the change is positive, negative or zero exactly when the close rose, fell or stayed |
| History.Tail | utils/us_treasury.py:65 | `tail(n)` is the last min(n, len) rows |
| History.RollingMeanLast | utils/us_treasury.py:61-62 | the last value of a `rolling(w).mean()` is defined exactly when there are at least w rows |
| History.RollingMeanBounds | utils/us_treasury.py:61-62 | the rolling mean lies within the bounds of the values |
| UsMarket.GetMarketData | utils/us_market.py:39-66 | None exactly for an empty history; close and volume of the latest row; percent change against the previous close, 0 for one row; max High and min Low; the 52-week-high ratio is the percent change of the latest close against the max High |
| UsMarket.ChangeSign | utils/us_market.py:54 | daily change > 0 iff the close rose, < 0 iff it fell |
| UsMarket.YearHighRatioNonPositive | utils/us_market.py:57 | when every Close ≤ High, the distance to the 52-week high is ≤ 0 |
| UsMarket.GetAllUsMarketData | utils/us_market.py:73-89 | the loop builds exactly the collected dictionary of successful fetches over `US_INDICES` |
| UsMarket.AllUsMarketData | utils/us_market.py:73-89 | the market dictionary never holds a name twice |
| UsMarket.AllUsMarketDataKeys | utils/us_market.py:82-87 | a name is a key iff it is a `US_INDICES` name whose history was fetched and non-empty |
| UsMarket.AllUsMarketDataValue | utils/us_market.py:82-85 | each index's entry is exactly `get_market_data` of its history |
| KrMarket.VolumeRatio | utils/kr_market.py:53-55 | ratio × MA20 == volume when MA20 is defined and positive, otherwise 0 |
| KrMarket.GetMarketData | utils/kr_market.py:40-76 | None exactly for an empty frame; latest close and volume; change 0 for one row; MA20 is the last 20-row rolling mean of 거래량, defined iff at least 20 rows; the ratio is latest volume over MA20 (0 below 20 rows); max 고가 and min 저가; the 52-week-high ratio is the close against max 고가 |
| KrMarket.VolumeRatioAboveAverage | utils/kr_market.py:53-55 | with a positive MA20 the ratio exceeds 1 iff the volume exceeds the average |
| KrMarket.VolumeMa20NonNegative | utils/kr_market.py:49-50 | MA20 of non-negative volumes is non-negative |
| KrMarket.GetAllKrMarketData | utils/kr_market.py:83-99 | the loop builds exactly the collected dictionary |
| KrMarket.AllKrMarketData | utils/kr_market.py:83-99 | the market dictionary never holds a name twice |
| KrMarket.AllKrMarketDataKeys | utils/kr_market.py:92-97 | keys are distinct and are exactly the index names whose frame was fetched and non-empty |
| KrMarket.AllKrMarketDataValue | utils/kr_market.py:92-95 | each entry is `get_market_data` of its frame |
| KrMarket.VolumeDescription | utils/kr_market.py:113-122 | ≥ 2 very active, [1.5, 2) active, [0.8, 1.5) usual, < 0.8 low; the four cases partition the reals |
| KrMarket.VolumeDescriptionMonotone | utils/kr_market.py:113-122 | a larger ratio never gets a lower volume level |
| Forex.Ticker | utils/forex.py:30-31 | a ticker exists exactly when the pair contains one "/" (the tuple unpacking otherwise raises) |
| Forex.TickerOfPair | utils/forex.py:30-31 | "BASE/QUOTE" gives BASE + QUOTE + "=X" |
| Forex.SplitCount | utils/forex.py:30 | splitting on a character gives one more piece than its occurrences |
| Forex.GetForexData | utils/forex.py:28-67 | Some exactly for a well-formed pair with a non-empty history; latest close as rate; percent change, 0 for one row; max High and min Low |
| Forex.PairEntries | utils/forex.py:79 | the loop visits each configured pair in order |
| Forex.GetAllForexData | utils/forex.py:70-86 | the loop builds exactly the collected dictionary |
| Forex.AllForexData | utils/forex.py:70-86 | the pair dictionary never holds a pair twice |
| Forex.ConfiguredTickers | config/settings.py:31 | every configured pair yields a ticker |
| Forex.CurrenciesDistinct | config/settings.py:31 | the configured pairs are distinct |
| Forex.AllForexDataSpec | utils/forex.py:79-84 | each pair's entry is `get_forex_data` of it and it is a key iff its history is non-empty |
| UsTreasury.FedRate | utils/us_treasury.py:18-25 | the last observation of the series, or 5.50 when the fetch failed or is empty |
| UsTreasury.VolatilityRatio | utils/us_treasury.py:68-70 | ratio × long-term std == monthly std when the long-term std is positive, otherwise 0 |
| UsTreasury.GetTreasuryData | utils/us_treasury.py:52-85 | None exactly for an empty history; absolute change, 0 for one row; 90- and 180-row rolling means of Close, defined iff enough rows; monthly volatility is the std of the last 20 closes, long-term the std of all; their guarded ratio; spread over the Fed rate |
| UsTreasury.VolatilityRatioDefined | utils/us_treasury.py:65-70 | the ratio is always defined and non-negative, and 0 for a single row |
| UsTreasury.GetAllTreasuryData | utils/us_treasury.py:92-108 | the loop builds exactly the collected dictionary |
| UsTreasury.AllTreasuryData | utils/us_treasury.py:92-108 | the treasury dictionary never holds a maturity twice |
| UsTreasury.AllTreasuryDataSpec | utils/us_treasury.py:101-105 | keys are exactly the names with a non-empty history, each mapped to `get_treasury_data` with the fetched Fed rate |
| UsTreasury.VolatilityDescription | utils/us_treasury.py:113-121 | > 1.2 widening, < 0.8 narrowing, otherwise ordinary |
| UsTreasury.FedSpreadDescription | utils/us_treasury.py:124-128 | \|spread\| ≤ 0.25 near the Fed rate; otherwise above or below by the sign, carrying the gap \|spread\| |
| UsTreasury.FedSpreadSymmetric | utils/us_treasury.py:124-128 | negating the spread swaps above and below and keeps the gap |
| EconCalendar.IndicatorNameIsLookup | utils/calendar.py:36-47 | the name shown is the listed Korean name of a known code and the code itself for an unknown one (`dict.get(code, code)`) |
| EconCalendar.IndicatorNamesListed | utils/calendar.py:36-47 | every listed code maps to its listed name |
| EconCalendar.NewCalendar | utils/calendar.py:49-53 | construction fails with the key error exactly when the API key is empty |
| EconCalendar.PctChange | utils/calendar.py:96-98 | (v − p)/p·100 for p ≠ 0; a non-finite value for p = 0 |
| EconCalendar.ChangeText | utils/calendar.py:94-99 | empty exactly when there is no previous value, else the formatted change in "(전기대비 …%)" |
| EconCalendar.FormatRecentData | utils/calendar.py:89-109 | the loop yields the header followed by one block per event in order |
| EconCalendar.Block | utils/calendar.py:100-106 | a release block starts with "- ", the Korean indicator name and ": ", and ends with a blank line |
| EconCalendar.BlocksAppend | utils/calendar.py:93-107 | the blocks of concatenated event lists are the concatenated blocks |
| EconCalendar.SingleRelease | utils/calendar.py:103-107 | an event without a previous value renders with an empty change text |
| News.FormatNewsData | utils/news.py:94-117 | the article text is the newline join of its lines |
| News.FormatNewsDataLines | utils/news.py:112-117 | for single-line fields, splitting the text on newlines gives back exactly those lines |
| News.BlockLines | utils/news.py:105-117 | seven lines with a truthy Korean title, else six; blank first and last lines; the title line; the bracketed Korean title second when truthy; the time and source lines, with "N/A" for a missing key; the summary line is `ShownSummary`, including "None" for a null |
| News.ShownSummary | utils/news.py:110 | `summary_ko` whenever its key is present (a null shows "None"), otherwise `summary`, otherwise "N/A" |
| News.GetAllNews | utils/news.py:78-91 | always the three category keys in order, with failed fetches replaced by [] |
| ChartGenerator.KrTickers | utils/chart_generator.py:56 | the values of `KR_INDICES` in order |
| ChartGenerator.NormalizeTicker | utils/chart_generator.py:56-59 | the result always starts with "^"; KR codes and unprefixed tickers gain it, other "^" tickers are unchanged |
| ChartGenerator.NormalizeIdempotent | utils/chart_generator.py:56-59 | normalising twice equals normalising once |
| ChartGenerator.KrName | utils/chart_generator.py:35-41 | a known market maps to its Korean name, any other name to itself |
| ChartGenerator.ChartDate | utils/chart_generator.py:51 | a given non-empty date is kept, otherwise today |
| ChartGenerator.PriceChart | utils/chart_generator.py:44-95 | a path exactly when the normalised ticker's history is non-empty, and then the image path for the market and date |
| ChartGenerator.GenerateAllCharts | utils/chart_generator.py:98-120 | the flag is true iff every US and KR chart produced a path |
| ChartGenerator.ChartEach | utils/chart_generator.py:111-118 | one loop keeps the flag set iff it was set and the chart of every entry produced a path |
| Settings.ReportsDirShape | config/settings.py:10 | the reports directory path ends with the seven characters "reports", so never with a slash |
| Settings.PathJoin | config/settings.py:10-11 | POSIX `os.path.join`: an absolute second part replaces the first; otherwise the result is the first part, at most one inserted slash, then the second part |
| Settings.ReportsDir | config/settings.py:10 | the reports directory starts with the project directory, adds at most "/reports", and ends with "reports" |
| Settings.ReportFilepath | config/settings.py:41-43 | the report path ends with `<date>_market_report.md`; an absolute date replaces the directory |
| Settings.ImageFilepath | config/settings.py:46-51 | the image path ends with `<market>_price.png`; an absolute market name replaces the directory |
| Settings.ReportFilepathShape | config/settings.py:41-43 | the report path is REPORTS_DIR/date_market_report.md |
| Settings.ReportFilepathInjective | config/settings.py:41-43 | distinct relative dates give distinct report paths |
| Settings.AbsoluteDateEscapes | config/settings.py:41-43 | an absolute "date" discards the reports directory, as `os.path.join` does |
| Settings.ImageFilepathShape | config/settings.py:46-51 | the image path is REPORTS_DIR/images/date/name_price.png, under the reports directory |
| DataProcessor.Tally | src/data_processor.py:37-52 | rising iff more positive than negative changes, falling iff fewer, mixed iff equal |
| DataProcessor.TallyIgnoresUnchanged | src/data_processor.py:37-38 | a zero change counts for neither side |
| DataProcessor.Negated | src/data_processor.py:37-38 | elementwise negation of the changes |
| DataProcessor.TallyMirror | src/data_processor.py:37-52 | negating every change swaps rising and falling and keeps mixed |
| DataProcessor.FirstMaxAbs | src/data_processor.py:41 | the chosen index has the largest \|change\| and is the first such index in dict order |
| DataProcessor.MoveOf | src/data_processor.py:59 | "상승" exactly for a positive change, "하락" otherwise, zero included |
| DataProcessor.Lines | src/data_processor.py:58-77 | one phrase per entry in dict order |
| DataProcessor.AppendLines | src/data_processor.py:58-77 | the loop appends exactly those phrases |
| DataProcessor.UsHighNoteOf | src/data_processor.py:66-69 | \|ratio\| ≤ 5 near the high, < −20 deep correction, otherwise no note |
| DataProcessor.UsVolumeOf | src/data_processor.py:72-76 | > 1e9 busy, (5e8, 1e9] average, ≤ 5e8 quiet |
| DataProcessor.UsLine | src/data_processor.py:58-77 | an index sentence with its name and close, the absolute change, "상승" iff the change is positive, the near-high note iff within 5%, the correction note iff more than 20% below, and the volume word by the 1e9 and 5e8 thresholds |
| DataProcessor.UsChanges | src/data_processor.py:34 | the change of each entry in order |
| DataProcessor.UsSummary | src/data_processor.py:30-86 | the fixed message exactly for no data; otherwise direction, one phrase per index and, always, the closing sentence on the first largest move |
| DataProcessor.ProcessUsMarketData | src/data_processor.py:8-86 | the loop produces `UsSummary` |
| DataProcessor.KrHighNoteOf | src/data_processor.py:149-155 | \|ratio\| ≤ 5 at the high, < −20 far below, otherwise below; the note carries \|ratio\| |
| DataProcessor.KrVolumeOf | src/data_processor.py:158-166 | > 1e9, (5e8, 1e9], (3e8, 5e8], ≤ 3e8 |
| DataProcessor.KrLine | src/data_processor.py:137-166 | an index sentence with its name and close, the point move (0 for no change), the absolute change, "상승" iff positive, the 52-week note with the absolute ratio, and the volume word by the 1e9 and 3e8 thresholds |
| DataProcessor.PointsChangeIsPointMove | src/data_processor.py:139-141 | the reconstructed point move equals \|close − previous close\| |
| DataProcessor.KrChanges | src/data_processor.py:113 | the change of each entry in order |
| DataProcessor.KrHighlight | src/data_processor.py:170-175 | the closing sentence appears iff the largest \|change\| exceeds 1 |
| DataProcessor.KrSummary | src/data_processor.py:109-110 | the fixed message exactly for no data |
| DataProcessor.KrSummaryMeaning | src/data_processor.py:109-177 | direction first, then one phrase per index in dict order, and the closing sentence exactly when the largest move exceeds 1% |
| DataProcessor.ProcessKrMarketData | src/data_processor.py:88-177 | the loop produces `KrSummary` |
| DataProcessor.RangeNoteOf | src/data_processor.py:241-251 | near-high (≤ 0.1) takes precedence over near-low; otherwise the position (y−low)/(high−low)·100 |
| DataProcessor.RangePositionInside | src/data_processor.py:246-250 | a yield strictly inside its range has a finite position in (0, 100) |
| DataProcessor.TreasuryLine | src/data_processor.py:232-251 | a maturity sentence with its yield, the absolute change, "상승" iff positive, near the 52-week high iff within 0.1, near the low iff within 0.1 of it but not of the high |
| DataProcessor.CurveShapeOf | src/data_processor.py:258-267 | spread < 0 inverted, [0, 0.5) flattened, ≥ 0.5 normal |
| DataProcessor.CurveParagraph | src/data_processor.py:209-216 | absent when 10년물 or 2년물 is missing (the KeyError path), otherwise one paragraph on the 10y − 2y spread |
| DataProcessor.CurveParagraphMeaning | src/data_processor.py:254-267 | the paragraph reports an inverted curve exactly when the 10-year yield is below the 2-year yield, and a normal one exactly when it is at least 0.5 above; it states the distance between them |
| DataProcessor.TreasuryChanges | src/data_processor.py:203 | the change of each entry in order |
| DataProcessor.TreasuryHighlight | src/data_processor.py:270-275 | the closing sentence appears iff the largest \|change\| exceeds 0.05 |
| DataProcessor.TreasurySummary | src/data_processor.py:199-277 | fixed message exactly for no data; direction, per-maturity phrases, curve paragraph, closing sentence |
| DataProcessor.ProcessUsTreasuryData | src/data_processor.py:179-277 | the loop produces `TreasurySummary` |
| DataProcessor.FxPositionOf | src/data_processor.py:354-359 | > 90 near high, otherwise < 10 near low, otherwise in range (NaN in range) |
| DataProcessor.FxVolatilityOf | src/data_processor.py:365-370 | > 15 volatile, (8, 15] moderate, otherwise stable |
| DataProcessor.FxLine | src/data_processor.py:326-345 | JPY rates are shown per 100 yen (×100), other currencies unscaled |
| DataProcessor.FxPositionMeaning | src/data_processor.py:348-357 | near the high iff the rate lies in the top 10% of the range, near the low iff in the bottom 10% |
| DataProcessor.PositionThresholds | src/data_processor.py:348-357 | the percentage tests equal tests on the fraction of the range |
| DataProcessor.FxChanges | src/data_processor.py:303 | the change of each entry in order |
| DataProcessor.FxHighlight | src/data_processor.py:373-378 | the closing sentence appears iff the largest \|change\| exceeds 0.5, naming the base currency |
| DataProcessor.FxSummary | src/data_processor.py:299-380 | fixed message exactly for no data; direction, per-pair phrases, closing sentence |
| DataProcessor.ProcessForexData | src/data_processor.py:279-380 | the loop produces `FxSummary` |
| DataProcessor.NewsEntry | src/data_processor.py:404-416 | an entry is the newline join of its lines |
| DataProcessor.NewsEntryLines | src/data_processor.py:404-416 | for single-line fields, splitting an entry gives back its lines |
| DataProcessor.SummaryFallbackDiffers | src/data_processor.py:414 | an empty `summary_ko` falls back to `summary` here but not in `format_news_data` (utils/news.py line 110) |
| DataProcessor.CategoryParts | src/data_processor.py:401-416 | an empty category contributes nothing, a non-empty one something |
| DataProcessor.CategoryPartsMeaning | src/data_processor.py:402-416 | a non-empty category is its heading, then one entry per article in order |
| DataProcessor.DigestOrder | src/data_processor.py:395-416 | categories appear in the order 국내 경제, 글로벌 경제, 글로벌 비즈니스 |
| DataProcessor.DigestEmpty | src/data_processor.py:401-418 | the digest is empty iff every category list is empty |
| DataProcessor.DigestStep | src/data_processor.py:401-416 | one loop step appends one category's parts |
| DataProcessor.NewsSummary | src/data_processor.py:391-418 | the unavailable message exactly when the digest has no parts, else the newline join of the parts |
| DataProcessor.LeadTitle | src/data_processor.py:409 | the Korean title when truthy, else the title ("None" for null), else "N/A" |
| DataProcessor.DigestOfAllNews | src/data_processor.py:395-418 | the digest of `get_all_news` output is the three fetched lists in category order |
| DataProcessor.AppendCategory | src/data_processor.py:402-416 | the inner loop appends one category's parts |
| DataProcessor.ProcessNewsData | src/data_processor.py:382-418 | the loops produce `NewsSummary` |
| DataProcessor.OnDateMembers | src/data_processor.py:452-458 | a date's events are exactly the input events of that date |
| DataProcessor.GroupedGet | src/data_processor.py:452-458 | a window date with events maps to them in input order; every other date is absent |
| DataProcessor.GroupedDistinct | src/data_processor.py:452-458 | the grouped dictionary has distinct keys |
| DataProcessor.GroupedOutside | src/data_processor.py:452-458 | events outside today and tomorrow yield no groups |
| DataProcessor.TimeLeTotalPreorder | src/data_processor.py:465 | ordering by the time string is a total preorder |
| DataProcessor.EventLines | src/data_processor.py:467-478 | headline (time, country, stars, name), then a line for each value that is not "N/A" in the order released, forecast, previous, then a blank line; two lines when all three are "N/A" |
| DataProcessor.DateLines | src/data_processor.py:461-465 | the date heading comes first; a date without events gives only the heading |
| DataProcessor.ScheduleMeaning | src/data_processor.py:444-465 | dates are sorted and distinct, and are exactly the window dates with important events; each date's events are sorted by time and are a permutation of that date's important events |
| DataProcessor.DateShown | src/data_processor.py:444-461 | a date is shown iff it is today or tomorrow and has an event with two or more stars |
| DataProcessor.CalendarSummary | src/data_processor.py:432-449 | with no event of two or more stars the result is the no-schedule message |
| DataProcessor.Grouped | src/data_processor.py:452-458 | only today and tomorrow are keys of the grouping |
| DataProcessor.CalendarOutsideWindow | src/data_processor.py:441-480 | important events only on other dates give the stripped header alone |
| DataProcessor.GroupByDate | src/data_processor.py:452-458 | the grouping loop fills the dictionary `Grouped` describes |
| DataProcessor.AppendEvent | src/data_processor.py:467-478 | the per-event appends add exactly the event's lines |
| DataProcessor.AppendDate | src/data_processor.py:461-478 | one date's loop adds its heading and its events by time |
| DataProcessor.RenderSchedule | src/data_processor.py:461-478 | the rendering loops produce the header followed by each date's block in order |
| DataProcessor.ProcessEconomicCalendar | src/data_processor.py:420-480 | the method produces `CalendarSummary` |
| OptionAnalysis.GetSignal | utils/option_analysis.py:206-213 | > 1.2 bearish, < 0.8 bullish, otherwise neutral; never unknown |
| OptionAnalysis.SignalStrength | utils/option_analysis.py:215-222 | in [0, 1], 0 exactly when the signal is neutral, saturating at 1 |
| OptionAnalysis.SignalStrengthMonotone | utils/option_analysis.py:215-222 | strength grows with distance from the neutral band on each side |
| OptionAnalysis.PcRatio | utils/option_analysis.py:45-52 | ratio × calls == puts for positive calls, 0 otherwise |
| OptionAnalysis.AnalyzePutCallRatios | utils/option_analysis.py:17-81 | the empty result for empty calls or puts; otherwise volume and OI ratios and signals of those ratios |
| OptionAnalysis.RatioSignalCombination | utils/option_analysis.py:59-68 | the final signal is always the volume signal; strength is the max when the signals agree, else 0.7 × the volume strength |
| OptionAnalysis.SkewTrendOf | utils/option_analysis.py:224-231 | \|level\| < 0.02 neutral, ≥ 0.02 left-skewed, ≤ −0.02 right-skewed |
| OptionAnalysis.BandIvs | utils/option_analysis.py:102-124 | at most one IV per row, each the IV of a row of the chain |
| OptionAnalysis.BandIvsMembers | utils/option_analysis.py:110-124 | a value is among the band's IVs iff some row whose moneyness lies in the band carries it |
| OptionAnalysis.AnalyzeSkew | utils/option_analysis.py:83-151 | the empty result without a price or any IV data; otherwise skew level = put skew − call skew, a missing band mean counting 0, and its trend |
| OptionAnalysis.BandIvsWithin | utils/option_analysis.py:110-124 | IVs in a band stay within the chain's IV bounds |
| OptionAnalysis.MeanWithin | utils/option_analysis.py:110-124 | a defined band mean stays within those bounds |
| OptionAnalysis.SkewWithinRange | utils/option_analysis.py:110-137 | the ATM IV and both skews are bounded by the chain's IV range |
| OptionAnalysis.TermTrendOf | utils/option_analysis.py:233-240 | \|slope\| < 0.0001 flat, ≥ 0.0001 contango, ≤ −0.0001 backwardation |
| OptionAnalysis.ExpiryLeTotal | utils/option_analysis.py:187 | ordering by expiry date is a total preorder |
| OptionAnalysis.TermPoints | utils/option_analysis.py:170-181 | at most one point per entry |
| OptionAnalysis.TermPointsMembers | utils/option_analysis.py:170-181 | None iff an entry with a defined ATM IV has no expiry; otherwise every such entry gives its (expiry, ATM IV) point and every point comes from such an entry |
| OptionAnalysis.TermStructure | utils/option_analysis.py:153-204 | the empty result when there are no points; otherwise the points sorted by expiry, the `TermSlope` of those points and its trend |
| OptionAnalysis.TermSlope | utils/option_analysis.py:189-194 | with `days` between the first and last expiry, slope × days = last IV − first IV when days > 0, else 0 |
| OptionAnalysis.TermStructureOrder | utils/option_analysis.py:187-194 | the points are sorted, a permutation of the collected points, first a first-minimal and last a last-maximal element |
| OptionAnalysis.TermTrendMeaning | utils/option_analysis.py:190-199 | contango implies the last IV exceeds the first, backwardation the reverse |
| OptionAnalysis.SlopeSign | utils/option_analysis.py:190-194 | the sign of the slope is the sign of the IV difference for positive days |
| OptionAnalysis.AnalyzeTermStructure | utils/option_analysis.py:153-204 | the loop and sort produce `TermStructure` |
| OptionAnalysis.NoneAbsorbs | utils/option_analysis.py:170-181 | an unparsable expiry anywhere makes the whole result empty |
| OptionAnalysis.AnalyzeIndex | utils/option_analysis.py:285-302 | None exactly for an empty list; ratios and skew of the first element, and `TermStructure` of the whole list |
| OptionAnalysis.AnalyzeMarketOptions | utils/option_analysis.py:270-310 | the loop builds the collected dictionary of `AnalyzeIndex` |
| OptionAnalysis.MarketAnalysisSpec | utils/option_analysis.py:285-302 | an index is a key iff its list is non-empty, with value `AnalyzeIndex` of the list |
| OptionData.NearestExpiryData | utils/option_data.py:51-70 | the empty result exactly when there are no expiries; otherwise the first expiry, its chains and the current price |
| OptionData.MonthlyTargetAsWritten | utils/option_data.py:91-97 | a date in the same month within its last seven days, whose weekday is (2·w − 4) mod 7 for w the weekday of the month's last day |
| OptionData.AsWrittenShift | utils/option_data.py:95-96 | the weekday arithmetic of the written offset |
| OptionData.AsWrittenFridayOnlyAtMonthEnd | utils/option_data.py:95-96 | the written target is a Friday iff the month's last day is a Friday |
| OptionData.AsWrittenAugust2024 | utils/option_data.py:95-96 | August 2024 ends on a Saturday, and the written target is Sunday 2024-08-25 |
| OptionData.AugustLastFriday | utils/option_data.py:94-96 | the last Friday of August 2024, which the loop's comments name, is 2024-08-30 |
| OptionData.LastFriday | utils/option_data.py:86-96 | a Friday in the same month within its last seven days |
| OptionData.FridayShift | utils/option_data.py:95-96 | the corrected offset lands on Friday |
| OptionData.LastFridayUnique | utils/option_data.py:86-93 | any Friday in the month's last seven days is the last Friday |
| OptionData.SameWeekday | utils/option_data.py:93-96 | two days less than a week apart have different weekdays |
| OptionData.MonthlyTarget | utils/option_data.py:91-97 | the i-th target lies i months after today, within its month's last seven days (None beyond the calendar's range); under the written rule its weekday is (2·w − 4) mod 7, under the corrected rule a Friday |
| OptionData.CorrectedTargetIsLastFriday | utils/option_data.py:86-96 | the corrected target is its month's last Friday |
| OptionData.RulesAgreeIff | utils/option_data.py:95-96 | the written and corrected targets agree exactly when the month ends on a Friday |
| OptionData.Targets | utils/option_data.py:89-97 | the target list has one entry per month, each the monthly target under the given rule, and is None as soon as one target is out of range |
| OptionData.MinIndexIsFirstMinimum | utils/option_data.py:100-107 | `min` by key returns the first index of a smallest key |
| OptionData.ClosestIsFirstMinimum | utils/option_data.py:100-107 | the chosen expiry minimises the day distance to the target and no earlier expiry is as close |
| OptionData.Picks | utils/option_data.py:100-107 | one pick per target |
| OptionData.PicksListed | utils/option_data.py:100-107 | every pick is a listed expiry |
| OptionData.PicksAt | utils/option_data.py:100-107 | the pick for the i-th target is the expiry closest to that target |
| OptionData.Keep | utils/option_data.py:109-118 | kept entries are expiries of the list whose two chains are non-empty, with those chains and the price |
| OptionData.KeepAppend | utils/option_data.py:109-118 | filtering distributes over concatenation, so source order is kept |
| OptionData.KeepComplete | utils/option_data.py:109-118 | every expiry with two non-empty chains is kept |
| OptionData.MonthlyExpiryData | utils/option_data.py:72-124 | [] when there are no expiries or a target is out of range; at most `months` entries, each a listed expiry with non-empty chains |
| OptionData.MonthlyPicksKept | utils/option_data.py:100-118 | for every month, the expiry closest to its target is reported when both its chains are non-empty |
| OptionData.MonthlyPicksClosest | utils/option_data.py:100-107 | every monthly entry is the closest expiry to the target of one of the months |
| OptionData.MonthlyPicksLastFriday | utils/option_data.py:86-107 | under the corrected rule every monthly entry is the expiry closest to the last Friday of one of the months |
| OptionData.AugustAsWritten | utils/option_data.py:89-124 | on 2024-08-01 with expiries 08-23 and 08-30, the written rule reports the 08-23 expiry |
| OptionData.AugustCorrected | utils/option_data.py:89-124 | on the same input the corrected rule reports the 08-30 expiry |
| OptionData.AsWrittenMonthlyPicksEarlierExpiry | utils/option_data.py:95-107 | the written and the corrected monthly data differ on that input |
| OptionData.WeeklyExpiryData | utils/option_data.py:126-156 | at most `weeks` entries; an entry is reported iff it is in the `[:weeks]` prefix with non-empty chains |
| OptionData.AllExpiryData | utils/option_data.py:158-180 | exactly the expiries with two non-empty chains, each with the current price |
| OptionData.WeeklyIsPrefixOfAll | utils/option_data.py:140-164 | the weekly result is a prefix of the all-expiries result |
| OptionData.OptionDataCollector.constructor | utils/option_data.py:19-25 | the collector keeps the symbol and its ticker |
| OptionData.OptionDataCollector.GetNearestExpiryData | utils/option_data.py:51-70 | returns `NearestExpiryData` of its ticker |
| OptionData.OptionDataCollector.KeepLoop | utils/option_data.py:109-118 | the append loop produces `Keep` |
| OptionData.OptionDataCollector.GetMonthlyExpiryData | utils/option_data.py:72-124 | the two loops produce `MonthlyExpiryData` under the written target rule |
| OptionData.OptionDataCollector.GetWeeklyExpiryData | utils/option_data.py:126-156 | the loop produces `WeeklyExpiryData` |
| OptionData.OptionDataCollector.GetAllExpiryData | utils/option_data.py:158-180 | the loop produces `AllExpiryData` |
| OptionData.CollectorData | utils/option_data.py:225-235 | data exists exactly for the four known expiry types; "nearest" gives the one-element list |
| OptionData.Reported | utils/option_data.py:224-245 | a collector that raised leaves []; otherwise the index is reported exactly when its data is non-empty, with that data |
| OptionData.MarketOptionData | utils/option_data.py:220-247 | every key is a configured index name |
| OptionData.MarketOptionDataValue | utils/option_data.py:220-245 | each index maps to what its collector reported (absent for an unknown type or no data, [] on exception) |
| OptionData.OptionIndicesDistinct | utils/option_data.py:212-216 | the index names are distinct |
| OptionData.MarketOptionDataByType | utils/option_data.py:222-245 | a failed ticker maps to [], "nearest" to the nearest data, an unknown type to an absent key |
| OptionData.GetMarketOptionData | utils/option_data.py:200-247 | the loop produces `MarketOptionData` |
| Buffett.Matches | utils/buffett_indicator.py:90-92 | the GDP rows joined to one market row are exactly those with its date |
| Buffett.InnerJoin | utils/buffett_indicator.py:90-92 | joined rows come from both series, and every date pair present in both is joined |
| Buffett.Window | utils/buffett_indicator.py:100-105 | the rolling window is the last min(t + 1, 504) values up to t |
| Buffett.RollingStd | utils/buffett_indicator.py:110-114 | NaN while fewer than `min_periods` rows are in the window, otherwise the std of the window |
| Buffett.RollingMean | utils/buffett_indicator.py:103-107 | the trend is defined exactly from 252 observations on |
| Buffett.Band | utils/buffett_indicator.py:116-119 | a band is trend + k·std, defined iff both are defined |
| Buffett.Indicators | utils/buffett_indicator.py:95-97 | the ratio is Market_Value/GDP·100 on each joined row |
| Buffett.MakeRow | utils/buffett_indicator.py:95-119 | each row carries its ratio, trend and the four bands |
| Buffett.Series | utils/buffett_indicator.py:95-121 | one row per joined date |
| Buffett.CalculateIndicator | utils/buffett_indicator.py:79-125 | None exactly when either series is missing or empty; otherwise the series of the inner join |
| Buffett.JoinedGdpNonZero | utils/buffett_indicator.py:90-97 | the join keeps GDP non-zero |
| Buffett.SeriesRows | utils/buffett_indicator.py:90-97 | every output row comes from both inputs and has ratio = value/GDP·100 |
| Buffett.BandsOrdered | utils/buffett_indicator.py:116-119 | for std ≥ 0: lower 2σ ≤ lower 1σ ≤ trend ≤ upper 1σ ≤ upper 2σ |
| Buffett.RowBandsOrdered | utils/buffett_indicator.py:116-119 | the bands of every computed row are ordered |
| Buffett.LabelInjective | utils/buffett_indicator.py:155-164 | the five labels are distinct |
| Buffett.Valuation | utils/buffett_indicator.py:155-164 | the label from z > 2, > 1, < −2, < −1, otherwise fair (NaN fair) |
| Buffett.RangesMatchValuation | utils/buffett_indicator.py:211-217 | z lies in a backtest range iff z is not NaN and that range is the label the live status (lines 155-164) gives; the ranges are disjoint and cover every number |
| Buffett.Deviation | utils/buffett_indicator.py:143-147 | NaN for a NaN trend; for a non-zero trend the percent distance (current − trend)/trend·100, zero iff current equals the trend; a zero trend gives the IEEE quotient |
| Buffett.Indicator | utils/buffett_indicator.py:135-136 | the Buffett_Indicator column |
| Buffett.CurrentStatus | utils/buffett_indicator.py:127-170 | None exactly for no or empty data; latest ratio, trend and bands; the mean and std of the whole column; the deviation, z-score and its label |
| Buffett.SingleRowIsFair | utils/buffett_indicator.py:136-164 | a single row has NaN std, NaN z-score and the fair label |
| Buffett.ZScoreMeaning | utils/buffett_indicator.py:148-156 | "very overvalued" iff the ratio exceeds mean + 2·std |
| Buffett.QuotientAbove | utils/buffett_indicator.py:148-155 | d/s > k iff d > k·s for s > 0 |
| Buffett.FutureReturn | utils/buffett_indicator.py:203 | defined exactly when the row `days` later exists and both prices are known; return × now = (future − now) × 100 |
| Buffett.ExpandingZ | utils/buffett_indicator.py:206-208 | NaN when the expanding std is; otherwise (value − mean of the rows so far) / std |
| Buffett.Samples | utils/buffett_indicator.py:202-208 | one sample per row, holding that row's expanding z-score and forward return |
| Buffett.InBucket | utils/buffett_indicator.py:220-222 | the forward returns of exactly the samples whose z-score is in the range, in order |
| Buffett.Defined | utils/buffett_indicator.py:225 | the values of exactly the defined returns, in order |
| Buffett.Positives | utils/buffett_indicator.py:226 | the number of returns that are defined and positive |
| Buffett.MinOf | utils/buffett_indicator.py:228 | the minimum is attained and no value is below it, undefined for no values |
| Buffett.MaxOf | utils/buffett_indicator.py:229 | the maximum is attained and no value is above it |
| Buffett.BucketRow | utils/buffett_indicator.py:220-240 | a row exactly for a non-empty range, with its label, count equal to its size, the positive share × 100 (in [0, 100]), max drawdown the minimum and best return the maximum of the defined returns, drawdown ≤ best |
| Buffett.ProbabilityBounds | utils/buffett_indicator.py:226 | a share of positives times 100 lies in [0, 100] |
| Buffett.BacktestRows | utils/buffett_indicator.py:219-240 | each result row is the row of one of the ranges |
| Buffett.BacktestRowsComplete | utils/buffett_indicator.py:219-240 | every listed range that has a row contributes it |
| Buffett.CountsCoverSamples | utils/buffett_indicator.py:211-222 | the five range counts sum to the number of samples with a defined z-score |
| Buffett.BacktestIndicator | utils/buffett_indicator.py:172-246 | None exactly when the indicator series failed or the S&P download raised or lacks `Close`; otherwise the rows of the five ranges in order |
| MarkdownBuilder.Subsections | src/markdown_builder.py:35-46 | one rendered subsection per entry, in dict order |
| MarkdownBuilder.MarketSection | src/markdown_builder.py:38-47 | a market section starts with its "### name" heading and close line, and ends with the image link to that market's chart on the report date |
| MarkdownBuilder.RenderAll | src/markdown_builder.py:35-46 | the append loop produces those subsections |
| MarkdownBuilder.SectionShape | src/markdown_builder.py:49-108 | a section starts with summary + "\n\n", and is exactly that with no data |
| MarkdownBuilder.FxShownMeaning | src/markdown_builder.py:91-105 | JPY rate and band are ×100, other pairs unscaled, and the band stays ordered |
| MarkdownBuilder.FxSubsection | src/markdown_builder.py:94-105 | a pair subsection starts with its heading and rate line and ends with the 52-week range in 원 |
| MarkdownBuilder.BuffettArgsOf | src/markdown_builder.py:114-122 | missing Buffett values default to 0 and the status to "정보 없음"; the ±2σ band edges are the status values, NaN where undefined |
| MarkdownBuilder.ReportIgnoresUnslottedSections | src/markdown_builder.py:161-182 | treasury, Buffett and options inputs never change the report |
| MarkdownBuilder.Report | src/markdown_builder.py:161-182 | the report starts with the dated title and ends with the calendar section |
| MarkdownBuilder.EmptyDataSections | src/markdown_builder.py:49-108 | with empty data every market section is its summary + "\n\n" |
| MarkdownBuilder.TextOr | src/markdown_builder.py:240-254 | a falsy text is replaced by its fallback |
| MarkdownBuilder.Defaulted | src/markdown_builder.py:240-255 | every summary is non-empty; each of the eight summaries is kept when given non-empty and is its fixed message when missing or empty; each of the five dicts is kept when given and becomes {} when missing |
| MarkdownBuilder.DefaultReport | src/markdown_builder.py:240-255 | with every input missing, the report holds the five slotted fallback texts (US, KR, FX, news, calendar) |
| MarkdownBuilder.MarkdownBuilder.constructor | src/markdown_builder.py:24-29 | the report date is the given date, or today when it is falsy |
| MarkdownBuilder.MarkdownBuilder.BuildUsMarketSection | src/markdown_builder.py:31-49 | summary, "\n\n", then the market subsections joined by newlines |
| MarkdownBuilder.MarkdownBuilder.BuildKrMarketSection | src/markdown_builder.py:51-68 | the same for the Korean indices |
| MarkdownBuilder.MarkdownBuilder.BuildUsTreasurySection | src/markdown_builder.py:70-85 | the same with the treasury template |
| MarkdownBuilder.MarkdownBuilder.BuildForexSection | src/markdown_builder.py:87-108 | subsections joined by blank lines |
| MarkdownBuilder.MarkdownBuilder.BuildBuffettIndicatorSection | src/markdown_builder.py:110-124 | summary, "\n\n", then the Buffett template over the defaulted values |
| MarkdownBuilder.MarkdownBuilder.BuildNewsSection | src/markdown_builder.py:126-128 | the summary unchanged |
| MarkdownBuilder.MarkdownBuilder.BuildCalendarSection | src/markdown_builder.py:130-134 | the summary unchanged |
| MarkdownBuilder.MarkdownBuilder.BuildOptionsSection | src/markdown_builder.py:136-141 | the summary unchanged |
| MarkdownBuilder.MarkdownBuilder.BuildReport | src/markdown_builder.py:143-184 | the report template over the date and the five slotted sections |
| MarkdownBuilder.CreateReport | src/markdown_builder.py:199-256 | the content is the report of the defaulted inputs, and the path is the report path of the date |
| Sorting.SortCorrect | utils/option_analysis.py:187 | the sort result is sorted and a permutation of its input |
| Sorting.InsertPermutation | utils/option_analysis.py:187 | the insertion holds the elements of the list and the inserted one |
| Sorting.InsertSplit | utils/option_analysis.py:187 | inserting into a sorted list splices the element in after every element not above it and before the rest, all of which are above it |
| Sorting.Sort | utils/option_analysis.py:187 | a permutation of the input |
| Sorting.SortStable | src/data_processor.py:465 | the sort is stable: the elements with equal keys come out in their input order |
| Sorting.SortFirst | utils/option_analysis.py:187-190 | after a stable sort the first element is the first minimal one |
| Sorting.SortLast | utils/option_analysis.py:187-190 | after a stable sort the last element is the last maximal one |
| Sorting.LexLeTotalPreorder | src/data_processor.py:461 | Python's string order is a total preorder |
| Sorting.LexLe | src/data_processor.py:461 | a prefix is below the longer string; a first differing character decides; a non-empty string is never below the empty one |
| Sorting.PermutationDistinct | src/data_processor.py:461 | sorting distinct dates keeps them distinct |
| Dicts.Put | src/data_processor.py:454-458 | assigning a key keeps the key order and appends a new key |
| Dicts.PutGet | src/data_processor.py:454-458 | after assignment the key holds the new value and other keys keep theirs |
| Dicts.Collect | utils/us_market.py:80-89 | the `get_all_*` loop builds the collected dictionary |
| Dicts.CollectedKeys | utils/us_market.py:82-87 | a key is present iff an entry with that name was fetched successfully |
| Dicts.CollectedValue | utils/us_market.py:82-85 | with distinct names, each name holds its fetch result |
| Dates.WeekdayWithinMonth | utils/option_data.py:96 | moving k days back in a month moves the weekday k back mod 7 |
| Dates.MonthsLater | utils/option_data.py:92 | `relativedelta(months=i)` moves month and year i months on |
| Seqs.Strip | src/data_processor.py:86 | the stripped text starts and ends with a non-space |
| Seqs.StripIsSlice | src/data_processor.py:86 | the stripped text is the middle of the input, with only whitespace removed |
| Seqs.PyPrefix | utils/option_data.py:140 | Python's `[:n]`, negative n included |

## Left out

- Fetches. These are modelled as parameters holding their results (`None`
  for an exception):
  - yfinance, pykrx, FRED (`fredapi`) and the DeepSearch news API;
  - `EconomicCalendar.get_recent_data`, which only fetches;
  - `BuffettIndicator.get_wilshire_data` and `get_gdp_data`, including the
    linear interpolation of quarterly GDP to daily values.
- The wall clock. `datetime.now()` is a `today` string (plus `tomorrow`
  for the calendar, and a `Dates.Date` for the option targets).
- Floating point. Numbers are exact reals, and rounding is not modelled.
- Number formatting. The `{:,.2f}`-style formatting is an uninterpreted
  `Formatter`.
- Pandas statistics:
  - `std` is an uninterpreted function, known only to be defined for two or
    more values and non-negative;
  - the expanding z-score (`Buffett.ExpandingZ`) and the rolling bands use
    that `std`; the forward return (`Buffett.FutureReturn`) is a row index
    shift over the dated S&P prices.
- The text of the four market summaries (US, KR, treasury, FX) is modelled
  as phrase tokens, not their exact Korean text. The final `strip()` of
  those four is therefore not modelled. The news and calendar summaries are
  exact strings.
- UsMarket.GetMarketData: requires a non-zero previous close and 52-week high. In the source a zero there makes numpy return inf or NaN with a warning; the model does not follow that path.
- KrMarket.GetMarketData: requires a non-zero previous close and 52-week high, for the same reason.
- Forex.GetForexData: requires a non-zero previous close, for the same reason.
- Buffett.CalculateIndicator: requires non-zero GDP values, for the same reason.
- Buffett.Samples: requires non-zero S&P prices, for the same reason.
- Buffett.BacktestIndicator: requires non-zero S&P prices, for the same reason.
- OptionAnalysis.AnalyzeSkew: the in-place `moneyness` column added to the
  caller's frames is not modelled. The bands are computed without mutating
  the input.
- Option chains are rows of strike, volume, open interest and implied
  volatility. `_get_current_price` is a per-ticker value, so the model does
  not capture the price changing between calls.
- UsTreasury.AllTreasuryData: takes one Fed series and uses its `FedRate` for
  every maturity. The source calls `get_fed_rate()` once per ticker
  (utils/us_treasury.py:72), so a FRED failure on one call gives that
  maturity the 5.50 fallback while the others get the fetched rate. The
  model does not capture rates that differ between maturities.
- `datetime.strptime` on expiry strings. Dates are already parsed. A
  missing expiry (`None`) is the only parse failure modelled, and it gives
  the empty term-structure result.
- Dates. Like Python's `datetime`, the calendar model covers the years 1
  to 9999. A monthly target beyond 9999 is `None` in `OptionData.MonthlyTarget`,
  where Python raises inside the `try` and `get_monthly_expiry_data` returns [].
- OptionData.MarketOptionData: its own contract states only that keys are
  configured index names. The per-index values are stated by the lemmas
  beside it.
- `save_report`, `os.makedirs` and chart rendering (mplfinance, matplotlib)
  are file and plot I/O. `generate_price_chart` is modelled only by whether
  it returns a path and which one.
- `src/report_generator.py`, `src/logger.py` and `setup.py` are
  orchestration and I/O, and are not part of this model.
- Missing templates and settings. `TREASURY_SECTION_TEMPLATE` and
  `BUFFETT_INDICATOR_TEMPLATE` are imported by `src/markdown_builder.py` but
  not defined in `config/templates.py`, so they are template parameters.
  The same holds for the settings the fetchers import but
  `config/settings.py` lacks: `US_TREASURIES`, `KRX_INDICES`, `FEDAPI_KEY`,
  `FREDAPI_KEY` (imported by `utils/calendar.py`), `ECONOMIC_INDICATORS`,
  `CALENDAR_LOOKBACK_DAYS`.
- `build_report` raises when a data dict lacks a key, and the fetchers have
  exception paths. Neither is modelled: the records are typed.
  `build_buffett_indicator_section`'s `data.get` defaults are modelled with
  an `Option` of the whole status record.
- The calendar grouping's "create the list, then append" is modelled as one
  dictionary assignment per event. The resulting dictionary is the same.

## Findings

| source | as written | input that shows it | evidently intended | confidence | as-written member | corrected member |
|---|---|---|---|---|---|---|
| utils/option_data.py:95 | `offset = (4 - last_day.weekday()) % 7`, subtracted from the month's last day, lands on weekday (2·w − 4) mod 7, a Friday only when the last day already is one | August 2024: the last day 2024-08-31 is a Saturday, the offset is 6 and the target is Sunday 2024-08-25 | the last Friday of the month, as the comments at lines 86 and 93 say: offset `(w - 4) % 7`, giving 2024-08-30 | not executed | OptionData.MonthlyTargetAsWritten (OptionData.AsWrittenFridayOnlyAtMonthEnd, OptionData.AsWrittenAugust2024, OptionData.AsWrittenMonthlyPicksEarlierExpiry) | OptionData.LastFriday (OptionData.LastFridayUnique, OptionData.MonthlyPicksLastFriday) |

`OptionData.MonthlyTarget` takes the rule as a parameter (`AsWritten` or
`Corrected`). The collector (`OptionDataCollector.GetMonthlyExpiryData`,
`CollectorData`) runs the rule as written, so it reports what the program
reports. The corrected rule carries the intended property: every monthly
entry is the expiry closest to a month's last Friday
(`OptionData.MonthlyPicksLastFriday`).
