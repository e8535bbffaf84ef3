/**
 * utils/news.py: the text block printed for one article and the
 * per-category news dict. The DeepSearch requests are parameters: a
 * category's fetch is None when the request raised.
 */
module News {
  import opened Wrappers
  import opened Seqs
  import opened Dicts

  /** A field of a decoded article: a missing key, a JSON null or a string. */
  datatype Field = Absent | Null | Str(s: string)

  /** `f"{news.get(key, default)}"`: a missing key shows the default and a
      null shows as "None". */
  function Shown(f: Field, default: string): string {
    match f
    case Absent => default
    case Null => "None"
    case Str(s) => s
  }

  /** Python truthiness of a field value: a non-empty string. */
  predicate Truthy(f: Field) {
    f.Str? && f.s != ""
  }

  /** The keys of an article that the program reads. */
  datatype Article = Article(
    title: Field, titleKo: Field, summary: Field, summaryKo: Field,
    publishedAt: Field, publisher: Field)

  const NA := "N/A"

  /** `news.get("summary_ko", news.get("summary", "N/A"))`: the Korean
      summary whenever its key is present, whatever its value. */
  function ShownSummary(a: Article): (r: string)
    ensures a.summaryKo.Str? ==> r == a.summaryKo.s
    ensures a.summaryKo.Null? ==> r == "None"
    ensures a.summaryKo.Absent? ==> r == Shown(a.summary, NA)
  {
    if !a.summaryKo.Absent? then Shown(a.summaryKo, NA) else Shown(a.summary, NA)
  }

  /** The lines of an article's block, one labelled field per line, with the
      Korean title on a line of its own when it is truthy. */
  function BlockLines(a: Article): (r: seq<string>)
    ensures |r| == if Truthy(a.titleKo) then 7 else 6
    ensures r[0] == "" && r[|r| - 1] == ""
    ensures r[1] == "제목: " + Shown(a.title, NA)
    ensures Truthy(a.titleKo) ==> r[2] == "(" + a.titleKo.s + ")"
    ensures r[|r| - 2] == "요약: " + ShownSummary(a)
    ensures r[|r| - 3] == "출처: " + Shown(a.publisher, NA)
    ensures r[|r| - 4] == "시간: " + Shown(a.publishedAt, NA)
  {
    ["", "제목: " + Shown(a.title, NA)]
    + (if Truthy(a.titleKo) then ["(" + a.titleKo.s + ")"] else [])
    + ["시간: " + Shown(a.publishedAt, NA), "출처: " + Shown(a.publisher, NA), "요약: " + ShownSummary(a), ""]
  }

  /** `format_news_data(news)`: the block is its lines joined by newlines. */
  function FormatNewsData(a: Article): (r: string)
    ensures r == Join("\n", BlockLines(a))
  {
    var bracketed := "(" + Shown(a.titleKo, NA) + ")";
    var korean := if Truthy(a.titleKo) then "\n" + bracketed else "";
    var title := "제목: " + Shown(a.title, NA);
    var time := "시간: " + Shown(a.publishedAt, NA);
    var source := "출처: " + Shown(a.publisher, NA);
    var summary := "요약: " + ShownSummary(a);
    if Truthy(a.titleKo) then
      KoreanBlockJoin(a, title, bracketed, time, source, summary);
      "\n" + title + korean + "\n" + time + "\n" + source + "\n" + summary + "\n"
    else
      PlainBlockJoin(a, title, time, source, summary);
      assert title + korean == title;
      "\n" + title + korean + "\n" + time + "\n" + source + "\n" + summary + "\n"
  }

  lemma KoreanBlockJoin(a: Article, title: string, bracketed: string, time: string, source: string, summary: string)
    requires Truthy(a.titleKo) && bracketed == "(" + Shown(a.titleKo, NA) + ")"
    requires title == "제목: " + Shown(a.title, NA) && time == "시간: " + Shown(a.publishedAt, NA)
    requires source == "출처: " + Shown(a.publisher, NA) && summary == "요약: " + ShownSummary(a)
    ensures Join("\n", BlockLines(a)) == "\n" + title + ("\n" + bracketed) + "\n" + time + "\n" + source + "\n" + summary + "\n"
  {
    assert Shown(a.titleKo, NA) == a.titleKo.s;
    assert BlockLines(a) == ["", title, bracketed, time, source, summary, ""];
    JoinSeven(title, bracketed, time, source, summary);
  }

  lemma PlainBlockJoin(a: Article, title: string, time: string, source: string, summary: string)
    requires !Truthy(a.titleKo)
    requires title == "제목: " + Shown(a.title, NA) && time == "시간: " + Shown(a.publishedAt, NA)
    requires source == "출처: " + Shown(a.publisher, NA) && summary == "요약: " + ShownSummary(a)
    ensures Join("\n", BlockLines(a)) == "\n" + title + "\n" + time + "\n" + source + "\n" + summary + "\n"
  {
    assert BlockLines(a) == ["", title, time, source, summary, ""];
    JoinSix(title, time, source, summary);
  }

  lemma JoinSix(t: string, p: string, s: string, m: string)
    ensures Join("\n", ["", t, p, s, m, ""]) == "\n" + t + "\n" + p + "\n" + s + "\n" + m + "\n"
  {
    JoinPair(t);
    var j2 := "\n" + t;
    JoinStep(["", t], p, j2);
    assert ["", t] + [p] == ["", t, p];
    var j3 := j2 + "\n" + p;
    JoinStep(["", t, p], s, j3);
    assert ["", t, p] + [s] == ["", t, p, s];
    var j4 := j3 + "\n" + s;
    JoinStep(["", t, p, s], m, j4);
    assert ["", t, p, s] + [m] == ["", t, p, s, m];
    JoinLast(["", t, p, s, m], j4 + "\n" + m);
    assert ["", t, p, s, m] + [""] == ["", t, p, s, m, ""];
  }

  lemma JoinSeven(t: string, k: string, p: string, s: string, m: string)
    ensures Join("\n", ["", t, k, p, s, m, ""]) == "\n" + t + ("\n" + k) + "\n" + p + "\n" + s + "\n" + m + "\n"
  {
    JoinPair(t);
    JoinStep(["", t], k, "\n" + t);
    assert ["", t] + [k] == ["", t, k];
    var j2 := "\n" + t + ("\n" + k);
    assert "\n" + t + "\n" + k == j2;
    JoinStep(["", t, k], p, j2);
    assert ["", t, k] + [p] == ["", t, k, p];
    var j3 := j2 + "\n" + p;
    JoinStep(["", t, k, p], s, j3);
    assert ["", t, k, p] + [s] == ["", t, k, p, s];
    var j4 := j3 + "\n" + s;
    JoinStep(["", t, k, p, s], m, j4);
    assert ["", t, k, p, s] + [m] == ["", t, k, p, s, m];
    JoinLast(["", t, k, p, s, m], j4 + "\n" + m);
    assert ["", t, k, p, s, m] + [""] == ["", t, k, p, s, m, ""];
  }

  /** One more part adds a line break and the part. */
  lemma JoinStep(parts: seq<string>, x: string, j: string)
    requires parts != [] && Join("\n", parts) == j
    ensures Join("\n", parts + [x]) == j + "\n" + x
  {
    JoinSnoc("\n", parts, x);
  }

  /** Joining an empty string and `t` gives a line break followed by `t`. */
  lemma JoinPair(t: string)
    ensures Join("\n", ["", t]) == "\n" + t
  {
    JoinSnoc("\n", [""], t);
    assert [""] + [t] == ["", t];
    assert "" + "\n" + t == "\n" + t;
  }

  /** A trailing empty part adds a final line break. */
  lemma JoinLast(parts: seq<string>, j: string)
    requires parts != [] && Join("\n", parts) == j
    ensures Join("\n", parts + [""]) == j + "\n"
  {
    JoinSnoc("\n", parts, "");
    assert j + "\n" + "" == j + "\n";
  }

  /** No field the block shows contains a line break. */
  predicate SingleLine(a: Article) {
    '\n' !in Shown(a.title, NA) && '\n' !in Shown(a.titleKo, NA) && '\n' !in Shown(a.summary, NA)
    && '\n' !in Shown(a.summaryKo, NA) && '\n' !in Shown(a.publishedAt, NA) && '\n' !in Shown(a.publisher, NA)
  }

  /** Reading the block back line by line recovers every field: the block of
      an article whose fields are single lines splits into exactly its lines. */
  lemma FormatNewsDataLines(a: Article)
    requires SingleLine(a)
    ensures Split(FormatNewsData(a), '\n') == BlockLines(a)
  {
    var ls := BlockLines(a);
    forall i | 0 <= i < |ls| ensures '\n' !in ls[i] {
    }
    SplitJoin(ls, '\n');
  }

  const KR_ECONOMIC := "kr_economic"
  const GLOBAL_ECONOMIC := "global_economic"
  const GLOBAL_BUSINESS := "global_business"

  /** `get_all_news()` given the three fetch results (None for a fetch that
      raised): every category is present, in this order, and a failed or
      empty fetch leaves an empty list. */
  function GetAllNews(kr: Option<seq<Article>>, economy: Option<seq<Article>>, business: Option<seq<Article>>): (r: Dict<seq<Article>>)
    ensures Keys(r) == [KR_ECONOMIC, GLOBAL_ECONOMIC, GLOBAL_BUSINESS]
    ensures Get(r, KR_ECONOMIC) == Some(kr.GetOr([]))
    ensures Get(r, GLOBAL_ECONOMIC) == Some(economy.GetOr([]))
    ensures Get(r, GLOBAL_BUSINESS) == Some(business.GetOr([]))
  {
    var r := [(KR_ECONOMIC, kr.GetOr([])), (GLOBAL_ECONOMIC, economy.GetOr([])), (GLOBAL_BUSINESS, business.GetOr([]))];
    assert KR_ECONOMIC != GLOBAL_ECONOMIC && KR_ECONOMIC != GLOBAL_BUSINESS by {
      assert |KR_ECONOMIC| == 11 && |GLOBAL_ECONOMIC| == 15 && |GLOBAL_BUSINESS| == 15;
    }
    assert GLOBAL_ECONOMIC != GLOBAL_BUSINESS by {
      assert GLOBAL_ECONOMIC[7] == 'e' && GLOBAL_BUSINESS[7] == 'b';
    }
    assert r[1..][1..] == [r[2]];
    assert Get(r[1..], GLOBAL_BUSINESS) == Get([r[2]], GLOBAL_BUSINESS);
    r
  }
}
