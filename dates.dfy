/**
 * A proleptic Gregorian calendar with the conventions of Python's
 * `datetime.date`: years 1..9999, `toordinal()` counting 0001-01-01 as day 1,
 * and `weekday()` numbering Monday 0 through Sunday 6.
 */
module Dates {

  const MIN_YEAR := 1
  const MAX_YEAR := 9999

  /** Python's weekday number of a Friday. */
  const FRIDAY := 4

  predicate IsLeap(y: int) {
    y % 4 == 0 && (y % 100 != 0 || y % 400 == 0)
  }

  function DaysInMonth(y: int, m: int): (r: int)
    requires 1 <= m <= 12
    ensures 28 <= r <= 31
  {
    if m == 2 then (if IsLeap(y) then 29 else 28)
    else if m == 4 || m == 6 || m == 9 || m == 11 then 30
    else 31
  }

  /** Days in the months of year `y` before month `m`. */
  function DaysBeforeMonth(y: int, m: int): int
    requires 1 <= m <= 12
    decreases m
  {
    if m == 1 then 0 else DaysBeforeMonth(y, m - 1) + DaysInMonth(y, m - 1)
  }

  /** Days in the years before year `y`. */
  function DaysBeforeYear(y: int): int {
    var y1 := y - 1;
    y1 * 365 + y1 / 4 - y1 / 100 + y1 / 400
  }

  datatype Date = Date(year: int, month: int, day: int)

  predicate Valid(d: Date) {
    MIN_YEAR <= d.year <= MAX_YEAR && 1 <= d.month <= 12 && 1 <= d.day <= DaysInMonth(d.year, d.month)
  }

  /** A date Python can represent. */
  type Day = d: Date | Valid(d) witness Date(2000, 1, 1)

  /** `date.toordinal()`. */
  function Ordinal(d: Date): int
    requires Valid(d)
  {
    DaysBeforeYear(d.year) + DaysBeforeMonth(d.year, d.month) + d.day
  }

  /** `date.weekday()`: Monday is 0, Sunday is 6. */
  function Weekday(d: Date): (w: int)
    requires Valid(d)
    ensures 0 <= w <= 6
  {
    (Ordinal(d) + 6) % 7
  }

  /** Moving back `k` days without leaving the month lowers the ordinal by `k`. */
  lemma OrdinalWithinMonth(d: Date, k: int)
    requires Valid(d) && 0 <= k < d.day
    ensures Valid(Date(d.year, d.month, d.day - k))
    ensures Ordinal(Date(d.year, d.month, d.day - k)) == Ordinal(d) - k
  {
  }

  /** Year and month `i` months after year `y`, month `m` (the calendar part
      of `dateutil.relativedelta(months=i)`). */
  function MonthsLater(y: int, m: int, i: nat): (r: (int, int))
    requires 1 <= m <= 12
    ensures 1 <= r.1 <= 12
    ensures r.0 * 12 + r.1 == y * 12 + m + i
  {
    var total := m - 1 + i;
    (y + total / 12, total % 12 + 1)
  }

  /** The last day of a month. */
  function LastDayOfMonth(y: int, m: int): (d: Date)
    requires MIN_YEAR <= y <= MAX_YEAR && 1 <= m <= 12
    ensures Valid(d) && d.year == y && d.month == m && d.day == DaysInMonth(y, m)
  {
    Date(y, m, DaysInMonth(y, m))
  }

  /** Moving back `k` days inside a month moves the weekday back by `k`
      (modulo 7). */
  lemma WeekdayWithinMonth(d: Date, k: int)
    requires Valid(d) && 0 <= k < d.day
    ensures Valid(Date(d.year, d.month, d.day - k))
    ensures Weekday(Date(d.year, d.month, d.day - k)) == (Weekday(d) - k) % 7
  {
    OrdinalWithinMonth(d, k);
    var o := Ordinal(d);
    assert Weekday(Date(d.year, d.month, d.day - k)) == (o - k + 6) % 7;
    ModShift(o + 6, k);
  }

  lemma ModShift(a: int, k: int)
    ensures (a - k) % 7 == (a % 7 - k) % 7
  {
    var q := a / 7;
    assert a == 7 * q + a % 7;
    assert a - k == 7 * q + (a % 7 - k);
    ModAddMultiple(a % 7 - k, q);
  }

  lemma ModAddMultiple(x: int, q: int)
    ensures (7 * q + x) % 7 == x % 7
  {
    var r := x % 7;
    var p := x / 7;
    assert x == 7 * p + r && 0 <= r < 7;
    assert 7 * q + x == 7 * (q + p) + r;
  }
}
