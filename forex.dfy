/**
 * utils/forex.py: the yfinance ticker of a currency pair, the quote computed
 * from its history and the dict of quotes for the configured pairs.
 */
module Forex {
  import opened Wrappers
  import opened Seqs
  import opened History
  import opened Dicts
  import Settings

  datatype FxQuote = FxQuote(rate: real, change: real, yearHigh: real, yearLow: real)

  /** `base, quote = pair.split("/")` and `f"{base}{quote}=X"`; the unpacking
      raises (None) unless there are exactly two parts. */
  function Ticker(pair: string): (r: Option<string>)
    ensures r.Some? <==> CountChar(pair, '/') == 1
  {
    var parts := Split(pair, '/');
    SplitCount(pair, '/');
    if |parts| == 2 then Some(parts[0] + parts[1] + "=X") else None
  }

  /** The number of pieces is one more than the number of separators. */
  lemma {:induction false} SplitCount(s: string, c: char)
    ensures |Split(s, c)| == CountChar(s, c) + 1
    decreases |s|
  {
    if s != [] {
      SplitCount(s[1..], c);
    }
  }

  /** A pair written BASE/QUOTE with no other slash gives BASEQUOTE=X. */
  lemma TickerOfPair(base: string, quote: string)
    requires '/' !in base && '/' !in quote
    ensures Ticker(base + "/" + quote) == Some(base + quote + "=X")
  {
    SplitAfterPiece(base, '/', quote);
    SplitNoSeparator(quote, '/');
    assert base + "/" + quote == base + ['/'] + quote;
    SplitCount(base + "/" + quote, '/');
  }

  predicate Divisible(pair: string, history: string -> Option<seq<Bar>>) {
    match Ticker(pair)
    case None => true
    case Some(t) => history(t).None? || history(t).value == [] || Previous(history(t).value).close != 0.0
  }

  /** `get_forex_data(pair)`. */
  function GetForexData(pair: string, history: string -> Option<seq<Bar>>): (r: Option<FxQuote>)
    requires Divisible(pair, history)
    ensures r.Some? <==> Ticker(pair).Some? && history(Ticker(pair).value).Some? && history(Ticker(pair).value).value != []
    ensures r.Some? ==> var h := history(Ticker(pair).value).value;
      && r.value.rate == Latest(h).close
      && r.value.change == PercentChange(Latest(h).close, Previous(h).close)
      && (|h| == 1 ==> r.value.change == 0.0)
      && r.value.yearHigh == MaxHigh(h) && r.value.yearLow == MinLow(h)
  {
    match Ticker(pair)
    case None => None
    case Some(t) =>
      match history(t)
      case None => None
      case Some(h) =>
        if h == [] then None
        else
          var latest := Latest(h);
          Some(FxQuote(latest.close, PercentChange(latest.close, Previous(h).close), MaxHigh(h), MinLow(h)))
  }

  function Fetcher(history: string -> Option<seq<Bar>>): string --> Option<FxQuote> {
    (p: string) requires Divisible(p, history) => GetForexData(p, history)
  }

  /** The configured pairs as dict items keyed by the pair itself. */
  function PairEntries(pairs: seq<string>): (r: seq<(string, string)>)
    ensures |r| == |pairs| && forall i :: 0 <= i < |pairs| ==> r[i] == (pairs[i], pairs[i])
  {
    seq(|pairs|, i requires 0 <= i < |pairs| => (pairs[i], pairs[i]))
  }

  /** `get_all_forex_data()`. */
  function AllForexData(history: string -> Option<seq<Bar>>): (r: Dict<FxQuote>)
    requires forall i :: 0 <= i < |Settings.CURRENCIES| ==> Divisible(Settings.CURRENCIES[i], history)
    ensures DistinctKeys(r)
  {
    CollectedDistinct(PairEntries(Settings.CURRENCIES), Fetcher(history));
    Collected(PairEntries(Settings.CURRENCIES), Fetcher(history))
  }

  method GetAllForexData(history: string -> Option<seq<Bar>>) returns (d: Dict<FxQuote>)
    requires forall i :: 0 <= i < |Settings.CURRENCIES| ==> Divisible(Settings.CURRENCIES[i], history)
    ensures d == AllForexData(history)
  {
    d := Collect(PairEntries(Settings.CURRENCIES), Fetcher(history));
  }

  lemma TickerUsd() ensures Ticker("USD/KRW") == Some("USDKRW=X") {
    assert "USD/KRW" == "USD" + "/" + "KRW";
    TickerOfPair("USD", "KRW");
    assert "USD" + "KRW" + "=X" == "USDKRW=X";
  }

  lemma TickerEur() ensures Ticker("EUR/KRW") == Some("EURKRW=X") {
    assert "EUR/KRW" == "EUR" + "/" + "KRW";
    TickerOfPair("EUR", "KRW");
    assert "EUR" + "KRW" + "=X" == "EURKRW=X";
  }

  lemma TickerJpy() ensures Ticker("JPY/KRW") == Some("JPYKRW=X") {
    assert "JPY/KRW" == "JPY" + "/" + "KRW";
    TickerOfPair("JPY", "KRW");
    assert "JPY" + "KRW" + "=X" == "JPYKRW=X";
  }

  lemma TickerCny() ensures Ticker("CNY/KRW") == Some("CNYKRW=X") {
    assert "CNY/KRW" == "CNY" + "/" + "KRW";
    TickerOfPair("CNY", "KRW");
    assert "CNY" + "KRW" + "=X" == "CNYKRW=X";
  }

  /** Every configured pair is well formed, so its ticker is defined. */
  lemma ConfiguredTickers(i: int)
    requires 0 <= i < |Settings.CURRENCIES|
    ensures Ticker(Settings.CURRENCIES[i]).Some?
  {
    var c := Settings.CURRENCIES;
    if i == 0 {
      assert c[0] == "USD/KRW";
      TickerUsd();
    } else if i == 1 {
      assert c[1] == "EUR/KRW";
      TickerEur();
    } else if i == 2 {
      assert c[2] == "JPY/KRW";
      TickerJpy();
    } else {
      assert c[3] == "CNY/KRW";
      TickerCny();
    }
  }

  lemma CurrenciesDistinct()
    ensures forall a, b :: 0 <= a < b < |Settings.CURRENCIES| ==> Settings.CURRENCIES[a] != Settings.CURRENCIES[b]
  {
    var c := Settings.CURRENCIES;
    assert c[0][0] == 'U' && c[1][0] == 'E' && c[2][0] == 'J' && c[3][0] == 'C';
  }

  /** The result holds exactly the configured pairs whose history arrived
      non-empty, each with its own quote. */
  lemma AllForexDataSpec(history: string -> Option<seq<Bar>>, i: int)
    requires forall i :: 0 <= i < |Settings.CURRENCIES| ==> Divisible(Settings.CURRENCIES[i], history)
    requires 0 <= i < |Settings.CURRENCIES|
    ensures Ticker(Settings.CURRENCIES[i]).Some?
    ensures Get(AllForexData(history), Settings.CURRENCIES[i]) == GetForexData(Settings.CURRENCIES[i], history)
    ensures Settings.CURRENCIES[i] in Keys(AllForexData(history)) <==>
      var t := Ticker(Settings.CURRENCIES[i]).value; history(t).Some? && history(t).value != []
  {
    ConfiguredTickers(i);
    CurrenciesDistinct();
    var e := PairEntries(Settings.CURRENCIES);
    CollectedValue(e, Fetcher(history), i);
  }
}
