/**
 * utils/option_data.py: choosing option expiries of an index and collecting
 * their call and put chains. The market-data service behind `yf.Ticker` is a
 * value of type `Ticker`; the clock (`datetime.now()`) is the `today`
 * parameter.
 */
module OptionData {
  import opened Wrappers
  import opened Seqs
  import opened Dicts
  import opened Dates

  /** One row of an option chain frame. */
  datatype OptionQuote = OptionQuote(strike: real, volume: real, openInterest: real, impliedVolatility: real)

  /** An option chain frame: its rows, and whether it has an
      `impliedVolatility` column. */
  datatype Chain = Chain(rows: seq<OptionQuote>, hasIv: bool)

  /** `pd.DataFrame()`. */
  const EMPTY_CHAIN := Chain([], false)

  /** `frame.empty`. */
  predicate IsEmpty(c: Chain) {
    c.rows == []
  }

  /** The dict describing the options of one expiry. */
  datatype ExpiryData = ExpiryData(expiry: Option<Day>, calls: Chain, puts: Chain, underlyingPrice: real)

  /** What the market-data service answers for one symbol; `None` stands for
      a call that raised. */
  datatype Ticker = Ticker(
    options: Option<seq<Day>>,
    optionChain: Day -> Option<(Chain, Chain)>,
    lastClose: Option<real>)

  /** `get_expiry_dates`: the listed expiries, or [] when the lookup raises. */
  function ExpiryDates(t: Ticker): seq<Day> {
    t.options.GetOr([])
  }

  /** `get_option_chain`: the call and put frames, or two empty frames when the
      lookup raises. */
  function OptionChain(t: Ticker, e: Day): (Chain, Chain) {
    t.optionChain(e).GetOr((EMPTY_CHAIN, EMPTY_CHAIN))
  }

  /** `_get_current_price`: the last close, or 0.0 when it cannot be read. */
  function CurrentPrice(t: Ticker): real {
    t.lastClose.GetOr(0.0)
  }

  /** `_empty_result`. */
  const EMPTY_RESULT := ExpiryData(None, EMPTY_CHAIN, EMPTY_CHAIN, 0.0)

  /** `get_nearest_expiry_data`: the first listed expiry with its chains,
      unfiltered; the empty result when nothing is listed. */
  function NearestExpiryData(t: Ticker): (r: ExpiryData)
    ensures r.expiry.None? <==> ExpiryDates(t) == []
    ensures ExpiryDates(t) == [] ==> r == EMPTY_RESULT
    ensures ExpiryDates(t) != [] ==>
      && r.expiry == Some(ExpiryDates(t)[0])
      && (r.calls, r.puts) == OptionChain(t, ExpiryDates(t)[0])
      && r.underlyingPrice == CurrentPrice(t)
  {
    var all := ExpiryDates(t);
    if all == [] then EMPTY_RESULT
    else
      var (calls, puts) := OptionChain(t, all[0]);
      ExpiryData(Some(all[0]), calls, puts, CurrentPrice(t))
  }

  // ----- month-end targets -----

  /** The target date of the monthly loop as the code computes it: the last day
      of the month moved back by `(4 - weekday) % 7` days. It stays in the
      last week of the month, but its weekday is `(2w - 4) % 7` for a last day
      of weekday `w`. */
  function MonthlyTargetAsWritten(y: int, m: int): (d: Date)
    requires MIN_YEAR <= y <= MAX_YEAR && 1 <= m <= 12
    ensures Valid(d) && d.year == y && d.month == m
    ensures DaysInMonth(y, m) - 7 < d.day <= DaysInMonth(y, m)
    ensures Weekday(d) == (2 * Weekday(LastDayOfMonth(y, m)) - FRIDAY) % 7
  {
    var last := LastDayOfMonth(y, m);
    var w := Weekday(last);
    var offset := (FRIDAY - w) % 7;
    WeekdayWithinMonth(last, offset);
    ModShift(w, offset);
    AsWrittenShift(w);
    Date(y, m, last.day - offset)
  }

  lemma AsWrittenShift(w: int)
    requires 0 <= w <= 6
    ensures (w - (FRIDAY - w) % 7) % 7 == (2 * w - FRIDAY) % 7
  {
  }

  /** The formula gives a Friday only in months that end on a Friday. */
  lemma AsWrittenFridayOnlyAtMonthEnd(y: int, m: int)
    requires MIN_YEAR <= y <= MAX_YEAR && 1 <= m <= 12
    ensures Weekday(MonthlyTargetAsWritten(y, m)) == FRIDAY <==> Weekday(LastDayOfMonth(y, m)) == FRIDAY
  {
    var w := Weekday(LastDayOfMonth(y, m));
    assert Weekday(MonthlyTargetAsWritten(y, m)) == (2 * w - FRIDAY) % 7;
    AsWrittenFridayIff(w);
  }

  /** `(2w - 4) % 7` is 4 only for `w` = 4. */
  lemma AsWrittenFridayIff(w: int)
    requires 0 <= w <= 6
    ensures (2 * w - FRIDAY) % 7 == FRIDAY <==> w == FRIDAY
  {
    if w == 0 {} else if w == 1 {} else if w == 2 {} else if w == 3 {}
    else if w == 4 {} else if w == 5 {} else {}
  }

  /** August 2024 ends on a Saturday: the formula picks Sunday the 25th. */
  lemma AsWrittenAugust2024()
    ensures Weekday(LastDayOfMonth(2024, 8)) == 5
    ensures MonthlyTargetAsWritten(2024, 8) == Date(2024, 8, 25)
    ensures Weekday(Date(2024, 8, 25)) == 6
  {
    assert DaysBeforeYear(2024) == 738885;
    assert DaysBeforeMonth(2024, 8) == 213;
    assert Ordinal(Date(2024, 8, 31)) == 739129;
  }

  /** The last Friday of August 2024 is the 30th. */
  lemma AugustLastFriday()
    ensures LastFriday(2024, 8) == Date(2024, 8, 30)
  {
    assert DaysBeforeYear(2024) == 738885;
    assert DaysBeforeMonth(2024, 8) == 213;
    assert Ordinal(Date(2024, 8, 31)) == 739129;
  }

  /** The last Friday of a month, which the month-end loop sets out to find:
      the last day moved back by `(weekday - 4) % 7` days. */
  function LastFriday(y: int, m: int): (d: Date)
    requires MIN_YEAR <= y <= MAX_YEAR && 1 <= m <= 12
    ensures Valid(d) && d.year == y && d.month == m
    ensures Weekday(d) == FRIDAY
    ensures DaysInMonth(y, m) - 7 < d.day <= DaysInMonth(y, m)
  {
    var last := LastDayOfMonth(y, m);
    var w := Weekday(last);
    var offset := (w - FRIDAY) % 7;
    WeekdayWithinMonth(last, offset);
    ModShift(w, offset);
    FridayShift(w);
    Date(y, m, last.day - offset)
  }

  lemma FridayShift(w: int)
    requires 0 <= w <= 6
    ensures (w - (w - FRIDAY) % 7) % 7 == FRIDAY
  {
  }

  /** Any Friday in the last week of a month is its last Friday. */
  lemma LastFridayUnique(y: int, m: int, d: Date)
    requires MIN_YEAR <= y <= MAX_YEAR && 1 <= m <= 12
    requires Valid(d) && d.year == y && d.month == m && Weekday(d) == FRIDAY
    requires d.day + 7 > DaysInMonth(y, m)
    ensures d == LastFriday(y, m)
  {
    var f := LastFriday(y, m);
    if d.day < f.day {
      SameWeekday(f, f.day - d.day);
    } else if d.day > f.day {
      SameWeekday(d, d.day - f.day);
    }
  }

  lemma SameWeekday(d: Date, k: int)
    requires Valid(d) && 0 < k < 7 && k < d.day
    ensures Weekday(Date(d.year, d.month, d.day - k)) != Weekday(d)
  {
    WeekdayWithinMonth(d, k);
  }

  /** Which month-end formula the monthly loop uses: `AsWritten` is the
      offset `(4 - weekday) % 7` of the code, `Corrected` the offset
      `(weekday - 4) % 7` that reaches the last Friday its comments name. The
      collector runs `AsWritten`. */
  datatype MonthEndRule = AsWritten | Corrected

  /** The target of month `i` of the loop: the month-end date of the month
      `i` months after today under `rule`, or `None` where the date
      arithmetic leaves the years Python can represent (the month after the
      target month must exist too). Either way the target is in the last
      seven days of its month, where a weekday names one date only. */
  function MonthlyTarget(today: Day, i: nat, rule: MonthEndRule): (r: Option<Day>)
    ensures r.None? <==> MonthsLater(today.year, today.month, i + 1).0 > MAX_YEAR
    ensures r.Some? ==>
      && (r.value.year, r.value.month) == MonthsLater(today.year, today.month, i)
      && r.value.day + 7 > DaysInMonth(r.value.year, r.value.month)
    ensures r.Some? && rule == AsWritten ==>
      Weekday(r.value) == (2 * Weekday(LastDayOfMonth(r.value.year, r.value.month)) - FRIDAY) % 7
    ensures r.Some? && rule == Corrected ==> Weekday(r.value) == FRIDAY
  {
    var (y, m) := MonthsLater(today.year, today.month, i);
    if MonthsLater(today.year, today.month, i + 1).0 > MAX_YEAR then None
    else if rule == AsWritten then Some(MonthlyTargetAsWritten(y, m))
    else Some(LastFriday(y, m))
  }

  /** Under the corrected rule the target is the month's last Friday. */
  lemma CorrectedTargetIsLastFriday(today: Day, i: nat)
    requires MonthlyTarget(today, i, Corrected).Some?
    ensures var (y, m) := MonthsLater(today.year, today.month, i);
      MIN_YEAR <= y <= MAX_YEAR && MonthlyTarget(today, i, Corrected).value == LastFriday(y, m)
  {
    var d := MonthlyTarget(today, i, Corrected).value;
    LastFridayUnique(d.year, d.month, d);
  }

  /** The two rules agree exactly in the months that end on a Friday. */
  lemma RulesAgreeIff(today: Day, i: nat)
    requires MonthlyTarget(today, i, AsWritten).Some?
    ensures var (y, m) := MonthsLater(today.year, today.month, i);
      MIN_YEAR <= y <= MAX_YEAR &&
      (MonthlyTarget(today, i, AsWritten) == MonthlyTarget(today, i, Corrected) <==> Weekday(LastDayOfMonth(y, m)) == FRIDAY)
  {
    var a := MonthlyTarget(today, i, AsWritten).value;
    var c := MonthlyTarget(today, i, Corrected).value;
    AsWrittenFridayOnlyAtMonthEnd(a.year, a.month);
    if Weekday(a) == FRIDAY {
      LastFridayUnique(a.year, a.month, a);
      LastFridayUnique(c.year, c.month, c);
    }
  }

  /** The targets of months 0..n-1 under `rule`, or `None` if computing one
      of them raises. */
  function Targets(today: Day, n: nat, rule: MonthEndRule): (r: Option<seq<Day>>)
    ensures r.Some? ==> |r.value| == n && forall i :: 0 <= i < n ==> MonthlyTarget(today, i, rule) == Some(r.value[i])
    ensures r.None? <==> exists i :: 0 <= i < n && MonthlyTarget(today, i, rule).None?
    decreases n
  {
    if n == 0 then Some([])
    else
      match (Targets(today, n - 1, rule), MonthlyTarget(today, n - 1, rule))
      case (Some(ts), Some(t)) => Some(ts + [t])
      case _ => None
  }

  /** One more computable target extends the targets by it. */
  lemma TargetsStep(today: Day, i: nat, ts: seq<Day>, rule: MonthEndRule)
    requires Targets(today, i, rule) == Some(ts) && MonthlyTarget(today, i, rule).Some?
    ensures Targets(today, i + 1, rule) == Some(ts + [MonthlyTarget(today, i, rule).value])
  {
  }

  /** A target that cannot be computed makes every longer run fail. */
  lemma TargetsFail(today: Day, i: nat, n: nat, rule: MonthEndRule)
    requires i < n && MonthlyTarget(today, i, rule).None?
    ensures Targets(today, n, rule) == None
  {
  }

  // ----- choosing and collecting expiries -----

  /** `abs(x - target)` in days. */
  function Distance(a: Day, b: Day): nat {
    var diff := Ordinal(a) - Ordinal(b);
    if diff < 0 then -diff else diff
  }

  /** The day distance of each expiry to the target. */
  function Distances(all: seq<Day>, target: Day): (ds: seq<nat>)
    ensures |ds| == |all| && forall k :: 0 <= k < |all| ==> ds[k] == Distance(all[k], target)
  {
    seq(|all|, k requires 0 <= k < |all| => Distance(all[k], target))
  }

  /** `min` over indices by key: the first index of a smallest key, a later
      key replacing the minimum only when strictly smaller. */
  function MinIndex(ds: seq<nat>): (i: nat)
    requires ds != []
    ensures i < |ds|
    decreases |ds|
  {
    if |ds| == 1 then 0
    else
      var j := MinIndex(ds[..|ds| - 1]);
      if ds[|ds| - 1] < ds[j] then |ds| - 1 else j
  }

  /** The index found holds the smallest key, and every earlier key is larger. */
  lemma {:induction false} MinIndexIsFirstMinimum(ds: seq<nat>)
    requires ds != []
    ensures forall k :: 0 <= k < |ds| ==> ds[MinIndex(ds)] <= ds[k]
    ensures forall k :: 0 <= k < MinIndex(ds) ==> ds[k] > ds[MinIndex(ds)]
    decreases |ds|
  {
    if |ds| > 1 {
      var n := |ds| - 1;
      var p := ds[..n];
      MinIndexIsFirstMinimum(p);
      var j := MinIndex(p);
      assert p[j] == ds[j];
      var c := MinIndex(ds);
      assert c == if ds[n] < ds[j] then n else j;
      forall k | 0 <= k < |ds| ensures ds[c] <= ds[k] {
        if k < n {
          assert p[k] == ds[k];
        }
      }
      forall k | 0 <= k < c ensures ds[k] > ds[c] {
        assert p[k] == ds[k];
      }
    }
  }

  /** `min(all, key=distance to target)`: the index of the first expiry at the
      smallest distance. */
  function Closest(all: seq<Day>, target: Day): (i: nat)
    requires all != []
    ensures i < |all|
  {
    MinIndex(Distances(all, target))
  }

  /** The chosen expiry is at the smallest distance, and no earlier expiry is
      as close. */
  lemma ClosestIsFirstMinimum(all: seq<Day>, target: Day)
    requires all != []
    ensures forall j :: 0 <= j < |all| ==> Distance(all[Closest(all, target)], target) <= Distance(all[j], target)
    ensures forall j :: 0 <= j < Closest(all, target) ==> Distance(all[j], target) > Distance(all[Closest(all, target)], target)
  {
    MinIndexIsFirstMinimum(Distances(all, target));
  }

  /** The expiry chosen for each target. */
  function Picks(all: seq<Day>, targets: seq<Day>): (r: seq<Day>)
    requires all != []
    ensures |r| == |targets|
    decreases |targets|
  {
    if targets == [] then []
    else Picks(all, targets[..|targets| - 1]) + [all[Closest(all, targets[|targets| - 1])]]
  }

  /** The pick for target `i` is the expiry closest to that target. */
  lemma {:induction false} PicksAt(all: seq<Day>, targets: seq<Day>, i: int)
    requires all != [] && 0 <= i < |targets|
    ensures Picks(all, targets)[i] == all[Closest(all, targets[i])]
    decreases |targets|
  {
    var n := |targets| - 1;
    if i < n {
      PicksAt(all, targets[..n], i);
      assert targets[..n][i] == targets[i];
    }
  }

  /** Every pick is a listed expiry. */
  lemma PicksListed(all: seq<Day>, targets: seq<Day>)
    requires all != []
    ensures forall x :: x in Picks(all, targets) ==> x in all
  {
    var r := Picks(all, targets);
    forall x | x in r ensures x in all {
      var i :| 0 <= i < |r| && r[i] == x;
      PicksAt(all, targets, i);
    }
  }

  predicate HasChains(t: Ticker, e: Day) {
    !IsEmpty(OptionChain(t, e).0) && !IsEmpty(OptionChain(t, e).1)
  }

  function Entry(t: Ticker, e: Day, price: real): ExpiryData {
    ExpiryData(Some(e), OptionChain(t, e).0, OptionChain(t, e).1, price)
  }

  /** The loop shared by the monthly, weekly and all collectors: fetch the
      chains of each expiry in turn and keep those where neither is empty. */
  function Keep(t: Ticker, expiries: seq<Day>, price: real): (r: seq<ExpiryData>)
    ensures |r| <= |expiries|
    ensures forall d :: d in r ==>
      && d.expiry.Some? && d.expiry.value in expiries && HasChains(t, d.expiry.value)
      && d == Entry(t, d.expiry.value, price)
    decreases |expiries|
  {
    if expiries == [] then []
    else
      var e := expiries[|expiries| - 1];
      Keep(t, expiries[..|expiries| - 1], price) + (if HasChains(t, e) then [Entry(t, e, price)] else [])
  }

  /** Keeping preserves order: the entries kept from `a + b` are those kept
      from `a` followed by those kept from `b`. */
  lemma {:induction false} KeepAppend(t: Ticker, a: seq<Day>, b: seq<Day>, price: real)
    ensures Keep(t, a + b, price) == Keep(t, a, price) + Keep(t, b, price)
    decreases |b|
  {
    if b == [] {
      assert a + b == a;
    } else {
      var b' := b[..|b| - 1];
      assert (a + b)[..|a + b| - 1] == a + b';
      KeepAppend(t, a, b', price);
    }
  }

  /** Every expiry whose two chains are non-empty is kept. */
  lemma {:induction false} KeepComplete(t: Ticker, expiries: seq<Day>, price: real, e: Day)
    requires e in expiries && HasChains(t, e)
    ensures Entry(t, e, price) in Keep(t, expiries, price)
    decreases |expiries|
  {
    var n := |expiries| - 1;
    if expiries[n] != e {
      var p := expiries[..n];
      assert expiries == p + [expiries[n]];
      KeepComplete(t, p, price, e);
    }
  }

  /** `get_monthly_expiry_data`: for each month-end target under `rule`, the
      listed expiry closest to it, kept when both chains are non-empty. An
      expiry may be chosen for several months. The collector uses
      `AsWritten`. */
  function MonthlyExpiryData(t: Ticker, today: Day, months: int, rule: MonthEndRule): (r: seq<ExpiryData>)
    ensures ExpiryDates(t) == [] ==> r == []
    ensures |r| <= if months > 0 then months else 0
    ensures forall d :: d in r ==>
      && d.expiry.Some? && d.expiry.value in ExpiryDates(t) && HasChains(t, d.expiry.value)
      && d == Entry(t, d.expiry.value, CurrentPrice(t))
  {
    var all := ExpiryDates(t);
    if all == [] then []
    else
      match Targets(today, if months > 0 then months else 0, rule)
      case None => []
      case Some(targets) =>
        PicksListed(all, targets);
        Keep(t, Picks(all, targets), CurrentPrice(t))
  }

  /** Each monthly entry is the expiry closest to the target of one of the
      months under `rule`: under `AsWritten` the day of weekday
      `(2w - 4) % 7` in the month's last week, under `Corrected` its last
      Friday. */
  lemma MonthlyPicksClosest(t: Ticker, today: Day, months: int, rule: MonthEndRule)
    ensures forall d :: d in MonthlyExpiryData(t, today, months, rule) ==>
      (exists i :: 0 <= i < months && MonthlyTarget(today, i, rule).Some? &&
        d.expiry == Some(ExpiryDates(t)[Closest(ExpiryDates(t), MonthlyTarget(today, i, rule).value)]))
  {
    var all := ExpiryDates(t);
    var n := if months > 0 then months else 0;
    var targets := Targets(today, n, rule);
    if all != [] && targets.Some? {
      var picks := Picks(all, targets.value);
      forall d | d in MonthlyExpiryData(t, today, months, rule)
        ensures exists i :: 0 <= i < months && MonthlyTarget(today, i, rule).Some? && d.expiry == Some(all[Closest(all, MonthlyTarget(today, i, rule).value)])
      {
        var k :| 0 <= k < |picks| && picks[k] == d.expiry.value;
        PicksAt(all, targets.value, k);
        assert MonthlyTarget(today, k, rule) == Some(targets.value[k]);
      }
    }
  }

  /** Conversely, for each of the months the expiry closest to its target
      under `rule` is reported whenever both of its chains are non-empty. */
  lemma MonthlyPicksKept(t: Ticker, today: Day, months: int, rule: MonthEndRule, i: int)
    requires ExpiryDates(t) != [] && 0 <= i < months && Targets(today, months, rule).Some?
    requires HasChains(t, ExpiryDates(t)[Closest(ExpiryDates(t), MonthlyTarget(today, i, rule).value)])
    ensures Entry(t, ExpiryDates(t)[Closest(ExpiryDates(t), MonthlyTarget(today, i, rule).value)], CurrentPrice(t))
      in MonthlyExpiryData(t, today, months, rule)
  {
    var all := ExpiryDates(t);
    var targets := Targets(today, months, rule).value;
    assert targets[i] == MonthlyTarget(today, i, rule).value;
    PicksAt(all, targets, i);
    KeepComplete(t, Picks(all, targets), CurrentPrice(t), all[Closest(all, targets[i])]);
  }

  /** `d` is the listed expiry closest to the last Friday of month `i`. */
  predicate ClosestToLastFriday(t: Ticker, today: Day, i: nat, d: ExpiryData) {
    var (y, m) := MonthsLater(today.year, today.month, i);
    && MIN_YEAR <= y <= MAX_YEAR
    && ExpiryDates(t) != []
    && d.expiry == Some(ExpiryDates(t)[Closest(ExpiryDates(t), LastFriday(y, m))])
  }

  /** Under the corrected rule each monthly entry is the expiry closest to the
      last Friday of one of the months, as the loop's comments intend. */
  lemma MonthlyPicksLastFriday(t: Ticker, today: Day, months: int)
    ensures forall d :: d in MonthlyExpiryData(t, today, months, Corrected) ==>
      exists i: nat :: i < months && ClosestToLastFriday(t, today, i, d)
  {
    MonthlyPicksClosest(t, today, months, Corrected);
    forall d | d in MonthlyExpiryData(t, today, months, Corrected)
      ensures exists i: nat :: i < months && ClosestToLastFriday(t, today, i, d)
    {
      var i: nat :| i < months && MonthlyTarget(today, i, Corrected).Some? &&
        d.expiry == Some(ExpiryDates(t)[Closest(ExpiryDates(t), MonthlyTarget(today, i, Corrected).value)]);
      CorrectedTargetIsLastFriday(today, i);
      assert ClosestToLastFriday(t, today, i, d);
    }
  }

  /** The days of the August 2024 counterexample. */
  const AUG_1: Day := Date(2024, 8, 1)
  const AUG_23: Day := Date(2024, 8, 23)
  const AUG_25: Day := Date(2024, 8, 25)
  const AUG_30: Day := Date(2024, 8, 30)

  /** One month's targets are the target of the current month: under
      `AsWritten` the formula's date, under `Corrected` the last Friday. */
  lemma FirstTarget(today: Day, rule: MonthEndRule)
    requires today.year < MAX_YEAR
    ensures Targets(today, 1, rule) == Some([if rule == AsWritten
      then MonthlyTargetAsWritten(today.year, today.month) else LastFriday(today.year, today.month)])
  {
    assert MonthsLater(today.year, today.month, 0) == (today.year, today.month);
    var t := MonthlyTarget(today, 0, rule).value;
    var none: seq<Day> := [];
    assert Targets(today, 0, rule) == Some(none);
    assert none + [t] == [t];
  }

  /** A Friday from the 25th on of today's month is the one corrected target
      of a one-month run. */
  lemma CorrectedFirstTarget(today: Day, f: Day)
    requires today.year < MAX_YEAR
    requires f.year == today.year && f.month == today.month
    requires Weekday(f) == FRIDAY && f.day >= 25
    ensures Targets(today, 1, Corrected) == Some([f])
  {
    FirstTarget(today, Corrected);
    LastFridayUnique(today.year, today.month, f);
  }

  /** For today = 2024-08-01 the code's one-month target is Sunday the 25th. */
  lemma AugustTargetAsWritten()
    ensures Targets(AUG_1, 1, AsWritten) == Some([AUG_25])
  {
    FirstTarget(AUG_1, AsWritten);
    AsWrittenAugust2024();
  }

  /** The corrected one-month target is Friday the 30th. */
  lemma AugustTargetCorrected()
    ensures Targets(AUG_1, 1, Corrected) == Some([AUG_30])
  {
    AugustThirtiethIsFriday();
    CorrectedFirstTarget(AUG_1, AUG_30);
  }

  /** 2024-08-30 is a Friday. */
  lemma AugustThirtiethIsFriday()
    ensures Weekday(AUG_30) == FRIDAY
  {
    assert DaysBeforeYear(2024) == 738885;
    assert DaysBeforeMonth(2024, 8) == 213;
  }

  /** Between expiries on 2024-08-23 and 2024-08-30, the 23rd is closest to
      the 25th. */
  lemma AugustPickAsWritten()
    ensures Picks([AUG_23, AUG_30], [AUG_25]) == [AUG_23]
  {
    assert DaysBeforeYear(2024) == 738885;
    assert DaysBeforeMonth(2024, 8) == 213;
    assert Distances([AUG_23, AUG_30], AUG_25) == [2, 5];
  }

  /** The 30th is closest to itself. */
  lemma AugustPickCorrected()
    ensures Picks([AUG_23, AUG_30], [AUG_30]) == [AUG_30]
  {
    assert Distances([AUG_23, AUG_30], AUG_30) == [7, 0] by {
      assert DaysBeforeYear(2024) == 738885;
      assert DaysBeforeMonth(2024, 8) == 213;
    }
    assert MinIndex([7, 0]) == 1;
  }

  /** A market whose every listed expiry has non-empty chains. */
  function FullTicker(all: seq<Day>): Ticker {
    var c := Chain([OptionQuote(100.0, 1.0, 1.0, 0.2)], true);
    Ticker(Some(all), e => Some((c, c)), Some(100.0))
  }

  /** With one target and its pick known, the monthly data of a full market
      is that pick with its chains. */
  lemma MonthlyOfOne(all: seq<Day>, today: Day, rule: MonthEndRule, target: Day, pick: Day)
    requires all != [] && Targets(today, 1, rule) == Some([target]) && Picks(all, [target]) == [pick]
    ensures MonthlyExpiryData(FullTicker(all), today, 1, rule) == [Entry(FullTicker(all), pick, 100.0)]
  {
    var t := FullTicker(all);
    assert HasChains(t, pick);
    assert [pick][..0] == [];
  }

  /** The August 2024 market of the counterexample: expiries on the 23rd and
      the 30th, both with chains. */
  function AugustTicker(): Ticker {
    FullTicker([AUG_23, AUG_30])
  }

  /** The code reports the expiry of the 23rd. */
  lemma AugustAsWritten()
    ensures MonthlyExpiryData(AugustTicker(), AUG_1, 1, AsWritten) == [Entry(AugustTicker(), AUG_23, 100.0)]
  {
    AugustTargetAsWritten();
    AugustPickAsWritten();
    MonthlyOfOne([AUG_23, AUG_30], AUG_1, AsWritten, AUG_25, AUG_23);
  }

  /** The corrected rule reports the expiry of the 30th. */
  lemma AugustCorrected()
    ensures MonthlyExpiryData(AugustTicker(), AUG_1, 1, Corrected) == [Entry(AugustTicker(), AUG_30, 100.0)]
  {
    AugustTargetCorrected();
    AugustPickCorrected();
    MonthlyOfOne([AUG_23, AUG_30], AUG_1, Corrected, AUG_30, AUG_30);
  }

  /** So for today = 2024-08-01 and one month the two rules report different
      expiries: the code misses the month's last Friday. */
  lemma AsWrittenMonthlyPicksEarlierExpiry()
    ensures MonthlyExpiryData(AugustTicker(), AUG_1, 1, AsWritten)
      != MonthlyExpiryData(AugustTicker(), AUG_1, 1, Corrected)
  {
    AugustAsWritten();
    AugustCorrected();
    assert Entry(AugustTicker(), AUG_23, 100.0).expiry != Entry(AugustTicker(), AUG_30, 100.0).expiry;
  }

  /** `get_weekly_expiry_data`: the first `weeks` listed expiries, kept when
      both chains are non-empty. */
  function WeeklyExpiryData(t: Ticker, weeks: int): (r: seq<ExpiryData>)
    ensures weeks >= 0 ==> |r| <= weeks
    ensures forall d :: d in r ==>
      && d.expiry.Some? && d.expiry.value in PyPrefix(ExpiryDates(t), weeks) && HasChains(t, d.expiry.value)
      && d == Entry(t, d.expiry.value, CurrentPrice(t))
    ensures forall e :: e in PyPrefix(ExpiryDates(t), weeks) && HasChains(t, e) ==> Entry(t, e, CurrentPrice(t)) in r
  {
    var r := Keep(t, PyPrefix(ExpiryDates(t), weeks), CurrentPrice(t));
    forall e | e in PyPrefix(ExpiryDates(t), weeks) && HasChains(t, e) ensures Entry(t, e, CurrentPrice(t)) in r {
      KeepComplete(t, PyPrefix(ExpiryDates(t), weeks), CurrentPrice(t), e);
    }
    r
  }

  /** `get_all_expiry_data`: every listed expiry, kept when both chains are
      non-empty. */
  function AllExpiryData(t: Ticker): (r: seq<ExpiryData>)
    ensures forall d :: d in r ==>
      && d.expiry.Some? && d.expiry.value in ExpiryDates(t) && HasChains(t, d.expiry.value)
      && d == Entry(t, d.expiry.value, CurrentPrice(t))
    ensures forall e :: e in ExpiryDates(t) && HasChains(t, e) ==> Entry(t, e, CurrentPrice(t)) in r
  {
    var r := Keep(t, ExpiryDates(t), CurrentPrice(t));
    forall e | e in ExpiryDates(t) && HasChains(t, e) ensures Entry(t, e, CurrentPrice(t)) in r {
      KeepComplete(t, ExpiryDates(t), CurrentPrice(t), e);
    }
    r
  }

  /** The weekly entries are the first ones of the full collection. */
  lemma WeeklyIsPrefixOfAll(t: Ticker, weeks: int)
    requires weeks >= 0
    ensures StartsWithSeq(AllExpiryData(t), WeeklyExpiryData(t, weeks))
  {
    var all := ExpiryDates(t);
    var n := if weeks <= |all| then weeks else |all|;
    assert all == all[..n] + all[n..];
    KeepAppend(t, all[..n], all[n..], CurrentPrice(t));
  }

  /** `OptionDataCollector`: the symbol and the service's answers for it. */
  class OptionDataCollector {
    const symbol: string
    const ticker: Ticker

    constructor(symbol: string, ticker: Ticker)
      ensures this.symbol == symbol && this.ticker == ticker
    {
      this.symbol := symbol;
      this.ticker := ticker;
    }

    method GetNearestExpiryData() returns (r: ExpiryData)
      ensures r == NearestExpiryData(ticker)
    {
      var all := ExpiryDates(ticker);
      if all == [] {
        return EMPTY_RESULT;
      }
      var (calls, puts) := OptionChain(ticker, all[0]);
      r := ExpiryData(Some(all[0]), calls, puts, CurrentPrice(ticker));
    }

    /** The keep-non-empty loop over a list of expiries. */
    method KeepLoop(expiries: seq<Day>, price: real) returns (data: seq<ExpiryData>)
      ensures data == Keep(ticker, expiries, price)
    {
      data := [];
      var i := 0;
      while i < |expiries|
        invariant 0 <= i <= |expiries|
        invariant data == Keep(ticker, expiries[..i], price)
      {
        assert expiries[..i + 1][..i] == expiries[..i];
        var (calls, puts) := OptionChain(ticker, expiries[i]);
        if !IsEmpty(calls) && !IsEmpty(puts) {
          data := data + [ExpiryData(Some(expiries[i]), calls, puts, price)];
        }
        i := i + 1;
      }
      assert expiries[..i] == expiries;
    }

    /** The loop building the month-end targets with the code's offset;
        `None` when one of them raises. */
    static method TargetLoop(today: Day, n: nat) returns (targets: Option<seq<Day>>)
      ensures targets == Targets(today, n, AsWritten)
    {
      var ts: seq<Day> := [];
      var i := 0;
      while i < n
        invariant 0 <= i <= n
        invariant Targets(today, i, AsWritten) == Some(ts)
      {
        var target := MonthlyTarget(today, i, AsWritten);
        if target.None? {
          TargetsFail(today, i, n, AsWritten);
          return None;
        }
        TargetsStep(today, i, ts, AsWritten);
        ts := ts + [target.value];
        i := i + 1;
      }
      targets := Some(ts);
    }

    /** The closest-expiry choice for each target, in order. */
    static method PickLoop(all: seq<Day>, targets: seq<Day>) returns (picks: seq<Day>)
      requires all != []
      ensures picks == Picks(all, targets)
    {
      picks := [];
      var j := 0;
      while j < |targets|
        invariant 0 <= j <= |targets|
        invariant picks == Picks(all, targets[..j])
      {
        assert targets[..j + 1][..j] == targets[..j];
        picks := picks + [all[Closest(all, targets[j])]];
        j := j + 1;
      }
      assert targets[..j] == targets;
    }

    method GetMonthlyExpiryData(today: Day, months: int) returns (data: seq<ExpiryData>)
      ensures data == MonthlyExpiryData(ticker, today, months, AsWritten)
    {
      var all := ExpiryDates(ticker);
      if all == [] {
        return [];
      }
      var targets := TargetLoop(today, if months > 0 then months else 0);
      if targets.None? {
        return [];
      }
      var picks := PickLoop(all, targets.value);
      data := KeepLoop(picks, CurrentPrice(ticker));
    }

    method GetWeeklyExpiryData(weeks: int) returns (data: seq<ExpiryData>)
      ensures data == WeeklyExpiryData(ticker, weeks)
    {
      data := KeepLoop(PyPrefix(ExpiryDates(ticker), weeks), CurrentPrice(ticker));
    }

    method GetAllExpiryData() returns (data: seq<ExpiryData>)
      ensures data == AllExpiryData(ticker)
    {
      var currentPrice := CurrentPrice(ticker);
      data := KeepLoop(ExpiryDates(ticker), currentPrice);
    }
  }

  // ----- the per-index dispatch -----

  const OPTION_INDICES: seq<(string, string)> := [("SPX", "^SPX"), ("NDX", "^NDX"), ("VIX", "^VIX")]

  /** The collector call selected by `expiry_type`; `None` for an unknown
      type, which skips the index. */
  function CollectorData(t: Ticker, today: Day, expiryType: string, periods: int): (r: Option<seq<ExpiryData>>)
    ensures r.Some? <==> expiryType in {"nearest", "weekly", "monthly", "all"}
    ensures expiryType == "nearest" ==> r == Some([NearestExpiryData(t)])
  {
    if expiryType == "nearest" then Some([NearestExpiryData(t)])
    else if expiryType == "weekly" then Some(WeeklyExpiryData(t, periods))
    else if expiryType == "monthly" then Some(MonthlyExpiryData(t, today, periods, AsWritten))
    else if expiryType == "all" then Some(AllExpiryData(t))
    else None
  }

  /** What the loop body leaves under an index: `[]` when building its
      collector raised (`tickers` gives `None`), the collected list when it
      is non-empty, nothing otherwise. */
  function Reported(tickers: string -> Option<Ticker>, today: Day, expiryType: string, periods: int, symbol: string): (r: Option<seq<ExpiryData>>)
    ensures tickers(symbol).None? ==> r == Some([])
    ensures tickers(symbol).Some? ==>
      && (r.None? <==> CollectorData(tickers(symbol).value, today, expiryType, periods) in {None, Some([])})
      && (r.Some? ==> r == CollectorData(tickers(symbol).value, today, expiryType, periods) && r.value != [])
  {
    match tickers(symbol)
    case None => Some([])
    case Some(t) =>
      match CollectorData(t, today, expiryType, periods)
      case None => None
      case Some(data) => if data == [] then None else Some(data)
  }

  /** `get_market_option_data` over a list of (name, symbol) indices. */
  function MarketOptionData(indices: seq<(string, string)>, tickers: string -> Option<Ticker>, today: Day, expiryType: string, periods: int): (r: Dict<seq<ExpiryData>>)
    ensures forall k :: k in Keys(r) ==> k in Keys(indices)
    decreases |indices|
  {
    if indices == [] then []
    else
      var n := |indices| - 1;
      var d := MarketOptionData(indices[..n], tickers, today, expiryType, periods);
      KeysPrefix(indices, n);
      assert Keys(indices)[n] == indices[n].0;
      match Reported(tickers, today, expiryType, periods, indices[n].1)
      case None => d
      case Some(data) => Put(d, indices[n].0, data)
  }

  /** With distinct names, the value under each index name is what its loop
      iteration reported, and an index that reported nothing is absent. */
  lemma {:induction false} MarketOptionDataValue(indices: seq<(string, string)>, tickers: string -> Option<Ticker>, today: Day, expiryType: string, periods: int, k: int)
    requires forall i, j :: 0 <= i < j < |indices| ==> indices[i].0 != indices[j].0
    requires 0 <= k < |indices|
    ensures Get(MarketOptionData(indices, tickers, today, expiryType, periods), indices[k].0)
      == Reported(tickers, today, expiryType, periods, indices[k].1)
    decreases |indices|, 1
  {
    if k < |indices| - 1 {
      MarketOptionDataEarlier(indices, tickers, today, expiryType, periods, k);
    } else {
      MarketOptionDataLast(indices, tickers, today, expiryType, periods);
    }
  }

  /** An earlier index keeps the value the prefix gave it. */
  lemma {:induction false} MarketOptionDataEarlier(indices: seq<(string, string)>, tickers: string -> Option<Ticker>, today: Day, expiryType: string, periods: int, k: int)
    requires forall i, j :: 0 <= i < j < |indices| ==> indices[i].0 != indices[j].0
    requires 0 <= k < |indices| - 1
    ensures Get(MarketOptionData(indices, tickers, today, expiryType, periods), indices[k].0)
      == Reported(tickers, today, expiryType, periods, indices[k].1)
    decreases |indices|, 0
  {
    var n := |indices| - 1;
    var p := indices[..n];
    assert forall i :: 0 <= i < n ==> p[i] == indices[i];
    MarketOptionDataValue(p, tickers, today, expiryType, periods, k);
    var d := MarketOptionData(p, tickers, today, expiryType, periods);
    var rep := Reported(tickers, today, expiryType, periods, indices[n].1);
    if rep.Some? {
      PutGet(d, indices[n].0, rep.value, indices[k].0);
    }
  }

  /** The last index maps to what it reported, since no earlier index has
      its name. */
  lemma MarketOptionDataLast(indices: seq<(string, string)>, tickers: string -> Option<Ticker>, today: Day, expiryType: string, periods: int)
    requires forall i, j :: 0 <= i < j < |indices| ==> indices[i].0 != indices[j].0
    requires indices != []
    ensures Get(MarketOptionData(indices, tickers, today, expiryType, periods), indices[|indices| - 1].0)
      == Reported(tickers, today, expiryType, periods, indices[|indices| - 1].1)
  {
    var n := |indices| - 1;
    var p := indices[..n];
    var d := MarketOptionData(p, tickers, today, expiryType, periods);
    var rep := Reported(tickers, today, expiryType, periods, indices[n].1);
    if rep.Some? {
      PutGet(d, indices[n].0, rep.value, indices[n].0);
    } else {
      assert forall i :: 0 <= i < n ==> p[i] == indices[i];
      assert indices[n].0 !in Keys(d);
    }
  }

  /** One more index extends the dict by what that index reported. */
  lemma MarketOptionDataSnoc(indices: seq<(string, string)>, i: int, tickers: string -> Option<Ticker>, today: Day, expiryType: string, periods: int)
    requires 0 <= i < |indices|
    ensures MarketOptionData(indices[..i + 1], tickers, today, expiryType, periods)
      == match Reported(tickers, today, expiryType, periods, indices[i].1)
         case None => MarketOptionData(indices[..i], tickers, today, expiryType, periods)
         case Some(data) => Put(MarketOptionData(indices[..i], tickers, today, expiryType, periods), indices[i].0, data)
  {
    assert indices[..i + 1][..i] == indices[..i];
  }

  lemma OptionIndicesDistinct()
    ensures forall i, j :: 0 <= i < j < |OPTION_INDICES| ==> OPTION_INDICES[i].0 != OPTION_INDICES[j].0
  {
    assert OPTION_INDICES[0].0[0] == 'S' && OPTION_INDICES[1].0[0] == 'N' && OPTION_INDICES[2].0[0] == 'V';
  }

  /** With the "nearest" type every index whose collector was built appears,
      holding the one nearest-expiry entry; an unknown type reports only the
      indices whose collector failed, each with []. */
  lemma MarketOptionDataByType(tickers: string -> Option<Ticker>, today: Day, expiryType: string, periods: int, k: int)
    requires 0 <= k < |OPTION_INDICES|
    ensures var r := Get(MarketOptionData(OPTION_INDICES, tickers, today, expiryType, periods), OPTION_INDICES[k].0);
      && (tickers(OPTION_INDICES[k].1).None? ==> r == Some([]))
      && (expiryType == "nearest" && tickers(OPTION_INDICES[k].1).Some? ==>
            r == Some([NearestExpiryData(tickers(OPTION_INDICES[k].1).value)]))
      && (expiryType !in {"nearest", "weekly", "monthly", "all"} && tickers(OPTION_INDICES[k].1).Some? ==> r.None?)
  {
    OptionIndicesDistinct();
    MarketOptionDataValue(OPTION_INDICES, tickers, today, expiryType, periods, k);
  }

  /** The loop of `get_market_option_data`. */
  method GetMarketOptionData(tickers: string -> Option<Ticker>, today: Day, expiryType: string, periods: int) returns (marketData: Dict<seq<ExpiryData>>)
    ensures marketData == MarketOptionData(OPTION_INDICES, tickers, today, expiryType, periods)
  {
    var indices := OPTION_INDICES;
    marketData := [];
    var i := 0;
    while i < |indices|
      invariant 0 <= i <= |indices|
      invariant marketData == MarketOptionData(indices[..i], tickers, today, expiryType, periods)
    {
      MarketOptionDataSnoc(indices, i, tickers, today, expiryType, periods);
      var (name, symbol) := indices[i];
      var t := tickers(symbol);
      if t.None? {
        marketData := Put(marketData, name, []);
      } else {
        var collector := new OptionDataCollector(symbol, t.value);
        var data: seq<ExpiryData>;
        var known := true;
        if expiryType == "nearest" {
          var nearest := collector.GetNearestExpiryData();
          data := [nearest];
        } else if expiryType == "weekly" {
          data := collector.GetWeeklyExpiryData(periods);
        } else if expiryType == "monthly" {
          data := collector.GetMonthlyExpiryData(today, periods);
        } else if expiryType == "all" {
          data := collector.GetAllExpiryData();
        } else {
          data := [];
          known := false;
        }
        assert CollectorData(t.value, today, expiryType, periods) == if known then Some(data) else None;
        if known && data != [] {
          marketData := Put(marketData, name, data);
        }
      }
      i := i + 1;
    }
    assert indices[..i] == indices;
  }
}
