/**
 * utils/chart_generator.py: the yfinance ticker a chart is drawn for, the
 * Korean chart title, the file a chart is saved to and the success flag of
 * drawing every configured index. Fetching the history is a parameter
 * (`history(ticker, date)` is None when anything before the drawing raised,
 * including a date `strptime` refuses); drawing and saving the figure are not
 * modelled.
 */
module ChartGenerator {
  import opened Wrappers
  import opened Seqs
  import opened Dicts
  import opened History
  import Settings

  const MARKET_NAMES_KR: Dict<string> := [
    ("S&P 500", "S&P 500 지수"), ("NASDAQ", "나스닥 지수"), ("DOW", "다우존스 지수"),
    ("KOSPI", "코스피 지수"), ("KOSDAQ", "코스닥 지수")]

  /** `KR_INDICES.values()`. */
  function KrTickers(): (r: seq<string>)
    ensures |r| == |Settings.KR_INDICES| && forall i :: 0 <= i < |r| ==> r[i] == Settings.KR_INDICES[i].1
  {
    seq(|Settings.KR_INDICES|, i requires 0 <= i < |Settings.KR_INDICES| => Settings.KR_INDICES[i].1)
  }

  /** The ticker adjustment of `generate_price_chart`: a Korean index code and
      any ticker without a leading caret get one. */
  function NormalizeTicker(ticker: string): (r: string)
    ensures StartsWith(r, "^")
    ensures ticker in KrTickers() ==> r == "^" + ticker
    ensures !StartsWith(ticker, "^") ==> r == "^" + ticker
    ensures ticker !in KrTickers() && StartsWith(ticker, "^") ==> r == ticker
  {
    if ticker in KrTickers() then "^" + ticker
    else if !StartsWith(ticker, "^") then "^" + ticker
    else ticker
  }

  /** Adjusting an adjusted ticker changes nothing. */
  lemma NormalizeIdempotent(ticker: string)
    ensures NormalizeTicker(NormalizeTicker(ticker)) == NormalizeTicker(ticker)
  {
    var r := NormalizeTicker(ticker);
    var kr := KrTickers();
    assert r !in kr by {
      assert r[0] == '^';
      forall i | 0 <= i < |kr| ensures kr[i] != r {
        assert kr[i][0] == 'K';
      }
    }
  }

  /** `MARKET_NAMES_KR.get(market_name, market_name)`. */
  function KrName(marketName: string): (r: string)
    ensures marketName in Keys(MARKET_NAMES_KR) ==> Some(r) == Get(MARKET_NAMES_KR, marketName)
    ensures marketName !in Keys(MARKET_NAMES_KR) ==> r == marketName
  {
    Get(MARKET_NAMES_KR, marketName).GetOr(marketName)
  }

  /** The configured index names have their Korean titles. */
  lemma KrNamesOfIndices()
    ensures KrName("KOSPI") == "코스피 지수" && KrName("NASDAQ") == "나스닥 지수"
  {
    var m := MARKET_NAMES_KR;
    assert m[0].0 != "KOSPI" && m[1].0 != "KOSPI" && m[2].0 != "KOSPI" && m[3].0 == "KOSPI" by {
      assert m[0].0[0] == 'S' && m[1].0[0] == 'N' && m[2].0[0] == 'D';
    }
    assert m[0].0 != "NASDAQ" && m[1].0 == "NASDAQ";
    assert m[1..][1..][1..][0] == m[3];
  }

  /** `date or datetime.now().strftime(DATE_FORMAT)`. */
  function ChartDate(date: Option<string>, today: string): (r: string)
    ensures date.Some? && date.value != "" ==> r == date.value
    ensures date.None? || date.value == "" ==> r == today
  {
    if date.Some? && date.value != "" then date.value else today
  }

  /** `generate_price_chart(ticker, market_name, date)`: the saved file when the
      history of the adjusted ticker arrived non-empty, None otherwise. */
  function PriceChart(baseDir: string, ticker: string, marketName: string, date: Option<string>, today: string,
                      history: (string, string) -> Option<seq<Bar>>): (r: Option<string>)
    ensures var h := history(NormalizeTicker(ticker), ChartDate(date, today));
      r.Some? <==> h.Some? && h.value != []
    ensures r.Some? ==> r.value == Settings.ImageFilepath(baseDir, marketName, ChartDate(date, today))
  {
    var d := ChartDate(date, today);
    match history(NormalizeTicker(ticker), d)
    case None => None
    case Some(h) => if h == [] then None else Some(Settings.ImageFilepath(baseDir, marketName, d))
  }

  /** The title drawn on a chart. */
  function ChartTitle(marketName: string): string {
    KrName(marketName) + " 가격 추이"
  }

  /** `generate_all_charts(date)`: true exactly when every US and every
      Korean index chart was produced. */
  method GenerateAllCharts(baseDir: string, date: Option<string>, today: string,
                           history: (string, string) -> Option<seq<Bar>>) returns (success: bool)
    ensures success <==>
      (forall i :: 0 <= i < |Settings.US_INDICES| ==>
        PriceChart(baseDir, Settings.US_INDICES[i].1, Settings.US_INDICES[i].0, date, today, history).Some?)
      && (forall i :: 0 <= i < |Settings.KR_INDICES| ==>
        PriceChart(baseDir, Settings.KR_INDICES[i].1, Settings.KR_INDICES[i].0, date, today, history).Some?)
  {
    success := true;
    success := ChartEach(baseDir, Settings.US_INDICES, date, today, history, success);
    success := ChartEach(baseDir, Settings.KR_INDICES, date, today, history, success);
  }

  /** One loop of `generate_all_charts`: draw the chart of every
      `(name, ticker)` entry and clear the flag when one fails. */
  method ChartEach(baseDir: string, indices: seq<(string, string)>, date: Option<string>, today: string,
                   history: (string, string) -> Option<seq<Bar>>, success0: bool) returns (success: bool)
    ensures success <==> (success0 &&
      forall i :: 0 <= i < |indices| ==> PriceChart(baseDir, indices[i].1, indices[i].0, date, today, history).Some?)
  {
    success := success0;
    var i := 0;
    while i < |indices|
      invariant 0 <= i <= |indices|
      invariant success <==> (success0 &&
        forall j :: 0 <= j < i ==> PriceChart(baseDir, indices[j].1, indices[j].0, date, today, history).Some?)
    {
      if PriceChart(baseDir, indices[i].1, indices[i].0, date, today, history).None? {
        success := false;
      }
      i := i + 1;
    }
  }
}
