/**
 * config/settings.py: the directory layout of the generated reports, the
 * report and image file names, and the configured tickers. The project
 * directory (derived from the module's own file location) is a parameter.
 */
module Settings {
  import opened Seqs

  /** POSIX `os.path.join(a, b)`: an absolute `b` replaces `a`; otherwise a
      slash is inserted unless `a` is empty or already ends with one. */
  function PathJoin(a: string, b: string): (r: string)
    ensures IsAbsolute(b) ==> r == b
    ensures !IsAbsolute(b) ==>
      && |a| + |b| <= |r| <= |a| + |b| + 1
      && r[..|a|] == a && r[|r| - |b|..] == b
      && (|r| == |a| + |b| + 1 ==> r[|a|] == '/')
  {
    if |b| > 0 && b[0] == '/' then b
    else if a == "" || a[|a| - 1] == '/' then a + b
    else a + "/" + b
  }

  predicate IsAbsolute(p: string) {
    |p| > 0 && p[0] == '/'
  }

  const REPORT_SUFFIX := "_market_report.md"
  const IMAGE_SUFFIX := "_price.png"
  const LOOKBACK_DAYS := 30
  const NEWS_LIMIT := 5

  /** Index and currency configuration, in dictionary order. */
  const US_INDICES: seq<(string, string)> := [("S&P 500", "^GSPC"), ("NASDAQ", "^IXIC"), ("DOW", "^DJI")]
  const KR_INDICES: seq<(string, string)> := [("KOSPI", "KS11"), ("KOSDAQ", "KQ11")]
  const CURRENCIES: seq<string> := ["USD/KRW", "EUR/KRW", "JPY/KRW", "CNY/KRW"]

  /** REPORTS_DIR. */
  function ReportsDir(baseDir: string): (r: string)
    ensures StartsWith(r, baseDir) && |r| <= |baseDir| + 8
    ensures |r| >= 7 && r[|r| - 7..] == "reports"
  {
    PathJoin(baseDir, "reports")
  }

  /** IMAGES_DIR. */
  function ImagesDir(baseDir: string): string {
    PathJoin(ReportsDir(baseDir), "images")
  }

  /** `get_daily_image_path()`, with TODAY as a parameter. */
  function DailyImagePath(baseDir: string, today: string): string {
    PathJoin(ImagesDir(baseDir), today)
  }

  /** `get_report_filepath(date)`. */
  function ReportFilepath(baseDir: string, date: string): (r: string)
    ensures |r| >= |date + REPORT_SUFFIX| && r[|r| - |date + REPORT_SUFFIX|..] == date + REPORT_SUFFIX
    ensures IsAbsolute(date) ==> r == date + REPORT_SUFFIX
  {
    PathJoin(ReportsDir(baseDir), date + REPORT_SUFFIX)
  }

  /** `get_image_filepath(market_name, date)`. */
  function ImageFilepath(baseDir: string, marketName: string, date: string): (r: string)
    ensures |r| >= |marketName + IMAGE_SUFFIX| && r[|r| - |marketName + IMAGE_SUFFIX|..] == marketName + IMAGE_SUFFIX
    ensures IsAbsolute(marketName) ==> r == marketName + IMAGE_SUFFIX
  {
    PathJoin(PathJoin(ImagesDir(baseDir), date), marketName + IMAGE_SUFFIX)
  }

  /** The reports directory ends in "reports", so never in a slash. */
  lemma ReportsDirShape(baseDir: string)
    ensures |ReportsDir(baseDir)| >= 7
    ensures ReportsDir(baseDir)[|ReportsDir(baseDir)| - 7..] == "reports"
    ensures ReportsDir(baseDir)[|ReportsDir(baseDir)| - 1] == 's'
  {
    var r := ReportsDir(baseDir);
    assert r[|r| - 1] == r[|r| - 7..][6];
  }

  /** The report file sits directly in the reports directory under the name
      `<date>_market_report.md`. */
  lemma ReportFilepathShape(baseDir: string, date: string)
    requires !IsAbsolute(date)
    ensures ReportFilepath(baseDir, date) == ReportsDir(baseDir) + "/" + date + REPORT_SUFFIX
  {
    ReportsDirShape(baseDir);
    assert (date + REPORT_SUFFIX)[0] != '/' by {
      if date == [] {
        assert (date + REPORT_SUFFIX)[0] == '_';
      } else {
        assert (date + REPORT_SUFFIX)[0] == date[0];
      }
    }
  }

  /** Different dates give different report files. */
  lemma {:induction false} ReportFilepathInjective(baseDir: string, d1: string, d2: string)
    requires !IsAbsolute(d1) && !IsAbsolute(d2)
    requires ReportFilepath(baseDir, d1) == ReportFilepath(baseDir, d2)
    ensures d1 == d2
  {
    ReportFilepathShape(baseDir, d1);
    ReportFilepathShape(baseDir, d2);
    var prefix := ReportsDir(baseDir) + "/";
    var p1 := prefix + d1 + REPORT_SUFFIX;
    var p2 := prefix + d2 + REPORT_SUFFIX;
    assert |d1| == |d2|;
    assert d1 == p1[|prefix|..|prefix| + |d1|];
    assert d2 == p2[|prefix|..|prefix| + |d2|];
  }

  /** An absolute "date" would escape the reports directory, which is why the
      two lemmas above exclude it. */
  lemma AbsoluteDateEscapes(baseDir: string)
    ensures ReportFilepath(baseDir, "/tmp/x") == "/tmp/x" + REPORT_SUFFIX
  {
  }

  /** The image of a market on a date is `<images>/<date>/<market>_price.png`,
      inside the reports directory (a date ending in a slash gets no second
      slash). */
  lemma ImageFilepathShape(baseDir: string, marketName: string, date: string)
    requires date != "" && !IsAbsolute(date) && date[|date| - 1] != '/' && !IsAbsolute(marketName)
    ensures ImageFilepath(baseDir, marketName, date)
      == ReportsDir(baseDir) + "/images/" + date + "/" + marketName + IMAGE_SUFFIX
    ensures StartsWith(ImageFilepath(baseDir, marketName, date), ReportsDir(baseDir) + "/")
  {
    var r := ReportsDir(baseDir);
    var day := r + "/" + "images" + "/" + date;
    var file := marketName + IMAGE_SUFFIX;
    assert PathJoin(ImagesDir(baseDir), date) == day by {
      ImagesDirShape(baseDir);
      PathJoinPlain(r + "/" + "images", date);
    }
    assert ImageFilepath(baseDir, marketName, date) == day + "/" + file by {
      assert day[|day| - 1] == date[|date| - 1];
      AppendNotAbsolute(marketName, IMAGE_SUFFIX);
      PathJoinPlain(day, file);
    }
    ImageFileSpelledOut(r, date, marketName);
    PrefixOfAppend(r + "/", "images/" + date + "/" + file);
  }

  /** The images directory is the reports directory's "images". */
  lemma ImagesDirShape(baseDir: string)
    ensures ImagesDir(baseDir) == ReportsDir(baseDir) + "/" + "images"
  {
    ReportsDirShape(baseDir);
    PathJoinPlain(ReportsDir(baseDir), "images");
  }

  /** Joining a relative path to a non-empty path that does not end with a
      slash inserts exactly one slash. */
  lemma PathJoinPlain(a: string, b: string)
    requires a != "" && a[|a| - 1] != '/' && !IsAbsolute(b)
    ensures PathJoin(a, b) == a + "/" + b
  {
  }

  /** A relative name followed by a suffix that does not start with a slash
      is relative. */
  lemma AppendNotAbsolute(a: string, b: string)
    requires !IsAbsolute(a) && !IsAbsolute(b)
    ensures !IsAbsolute(a + b)
  {
    if a == [] {
      assert a + b == b;
    } else {
      assert (a + b)[0] == a[0];
    }
  }

  lemma ImageFileSpelledOut(r: string, date: string, m: string)
    ensures r + "/" + "images" + "/" + date + "/" + (m + IMAGE_SUFFIX) == r + "/images/" + date + "/" + m + IMAGE_SUFFIX
    ensures r + "/" + "images" + "/" + date + "/" + (m + IMAGE_SUFFIX) == r + "/" + ("images/" + date + "/" + (m + IMAGE_SUFFIX))
  {
    assert "/" + "images" + "/" == "/images/";
    var x := r + "/images/" + date + "/";
    assert x + (m + IMAGE_SUFFIX) == x + m + IMAGE_SUFFIX;
  }

  lemma PrefixOfAppend(p: string, s: string)
    ensures StartsWith(p + s, p)
  {
    assert (p + s)[..|p|] == p;
  }
}
