/** Calendar dates as Python's `datetime` sees them: the proleptic Gregorian calendar over years
    1..9999, the day ordinal (1 = 0001-01-01), the weekday (0 = Monday .. 6 = Sunday) and
    `date + timedelta(days = n)`. */
module Calendar {
  import opened Common

  datatype Date = Date(year: int, month: int, day: int)

  const MinYear: int := 1
  const MaxYear: int := 9999

  predicate IsLeap(y: int) {
    y % 4 == 0 && (y % 100 != 0 || y % 400 == 0)
  }

  function DaysInYear(y: int): int { if IsLeap(y) then 366 else 365 }

  function DaysInMonth(y: int, m: int): (r: int)
    requires 1 <= m <= 12
    ensures 28 <= r <= 31
  {
    if m == 2 then (if IsLeap(y) then 29 else 28)
    else if m == 4 || m == 6 || m == 9 || m == 11 then 30
    else 31
  }

  predicate Valid(d: Date) {
    MinYear <= d.year <= MaxYear && 1 <= d.month <= 12 && 1 <= d.day <= DaysInMonth(d.year, d.month)
  }

  /** Days in the years before `y` (Python's `_days_before_year`). */
  function DaysBeforeYear(y: int): int {
    var k := y - 1;
    k * 365 + k / 4 - k / 100 + k / 400
  }

  /** Days in the months of year `y` before month `m` (Python's `_days_before_month`). */
  function DaysBeforeMonth(y: int, m: int): int
    requires 1 <= m <= 12
  {
    var table := [0, 31, 59, 90, 120, 151, 181, 212, 243, 273, 304, 334];
    table[m - 1] + (if m > 2 && IsLeap(y) then 1 else 0)
  }

  /** Python's `date.toordinal()`. */
  function Ordinal(d: Date): int
    requires Valid(d)
  {
    DaysBeforeYear(d.year) + DaysBeforeMonth(d.year, d.month) + d.day
  }

  /** pandas' `dt.dayofweek` (Python's `date.weekday()`): 0 is Monday, 6 is Sunday. */
  function Weekday(d: Date): (r: int)
    requires Valid(d)
    ensures 0 <= r < 7
  {
    (Ordinal(d) + 6) % 7
  }

  /** Chronological order of dates. */
  predicate Before(a: Date, b: Date) {
    a.year < b.year || (a.year == b.year && (a.month < b.month || (a.month == b.month && a.day < b.day)))
  }

  /** The day after `d`, or None past the last representable date 9999-12-31 (Python raises OverflowError). */
  function NextDay(d: Date): (r: Option<Date>)
    requires Valid(d)
    ensures r.None? <==> d == Date(MaxYear, 12, 31)
    ensures r.Some? ==> Valid(r.value) && Ordinal(r.value) == Ordinal(d) + 1 && Before(d, r.value)
  {
    if d.day < DaysInMonth(d.year, d.month) then
      Some(Date(d.year, d.month, d.day + 1))
    else if d.month < 12 then
      MonthStep(d.year, d.month);
      Some(Date(d.year, d.month + 1, 1))
    else if d.year < MaxYear then
      YearStep(d.year);
      Some(Date(d.year + 1, 1, 1))
    else
      None
  }

  lemma MonthStep(y: int, m: int)
    requires 1 <= m < 12
    ensures DaysBeforeMonth(y, m + 1) == DaysBeforeMonth(y, m) + DaysInMonth(y, m)
  {
  }

  lemma DivStep(k: int, n: int)
    requires n == 4 || n == 100 || n == 400
    ensures (k + 1) / n == k / n + (if (k + 1) % n == 0 then 1 else 0)
  {
    var q, r := k / n, k % n;
    if n == 4 {
      assert k == q * 4 + r && 0 <= r < 4;
    } else if n == 100 {
      assert k == q * 100 + r && 0 <= r < 100;
    } else {
      assert k == q * 400 + r && 0 <= r < 400;
    }
    if r == n - 1 {
      assert k + 1 == (q + 1) * n;
    } else {
      assert k + 1 == q * n + (r + 1) && 0 <= r + 1 < n;
    }
  }

  lemma YearStep(y: int)
    ensures DaysBeforeYear(y + 1) == DaysBeforeYear(y) + DaysInYear(y)
    ensures DaysBeforeMonth(y, 12) + DaysInMonth(y, 12) == DaysInYear(y)
  {
    var k := y - 1;
    DivStep(k, 4);
    DivStep(k, 100);
    DivStep(k, 400);
    assert (k + 1) % 4 == y % 4 && (k + 1) % 100 == y % 100 && (k + 1) % 400 == y % 400;
  }

  /** `d + timedelta(days = n)`, or None when the result would pass 9999-12-31. */
  function AddDays(d: Date, n: nat): (r: Option<Date>)
    requires Valid(d)
    ensures r.Some? ==> Valid(r.value) && Ordinal(r.value) == Ordinal(d) + n
    decreases n
  {
    if n == 0 then Some(d)
    else
      match NextDay(d)
      case None => None
      case Some(d') => AddDays(d', n - 1)
  }

  /** The weekday advances by one, modulo seven, from one day to the next. */
  lemma WeekdayNextDay(d: Date)
    requires Valid(d) && NextDay(d).Some?
    ensures Weekday(NextDay(d).value) == (Weekday(d) + 1) % 7
  {
    ModSevenStep(Ordinal(d) + 6);
  }

  lemma ModSevenStep(x: int)
    ensures (x + 1) % 7 == (x % 7 + 1) % 7
  {
    var q, w := x / 7, x % 7;
    assert x == 7 * q + w && 0 <= w < 7;
    if w == 6 {
      assert x + 1 == 7 * (q + 1);
    } else {
      assert x + 1 == 7 * q + (w + 1);
    }
  }

  /** 2024-01-01 was a Monday: the weekday numbering agrees with Python's. */
  lemma WeekdayAnchor()
    ensures Valid(Date(2024, 1, 1)) && Weekday(Date(2024, 1, 1)) == 0
  {
  }
}
