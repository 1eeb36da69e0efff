/**
 * The proleptic Gregorian calendar as the widgets use it through Carbon:
 * month lengths, stepping a date by whole days, stepping a (year, month)
 * pair by whole months, and a linear clock in seconds for cache expiry.
 * Time zones and daylight saving are not modelled.
 */
module Calendar {

  datatype Date = Date(year: int, month: int, day: int)

  /** A wall-clock instant: a date and a time of day (seconds precision). */
  datatype DateTime = DateTime(date: Date, hour: int, minute: int, second: int)

  /** A calendar month of a given year. */
  datatype YearMonth = YearMonth(year: int, month: int)

  predicate IsLeapYear(y: int) {
    y % 4 == 0 && (y % 100 != 0 || y % 400 == 0)
  }

  function DaysInYear(y: int): int {
    if IsLeapYear(y) then 366 else 365
  }

  /** Carbon's `daysInMonth`. */
  function DaysInMonth(y: int, m: int): (n: int)
    requires 1 <= m <= 12
    ensures 28 <= n <= 31
    ensures n == 31 <==> m in {1, 3, 5, 7, 8, 10, 12}
    ensures m == 2 ==> (n == 29 <==> IsLeapYear(y))
  {
    if m == 2 then (if IsLeapYear(y) then 29 else 28)
    else if m == 4 || m == 6 || m == 9 || m == 11 then 30
    else 31
  }

  predicate ValidDate(d: Date) {
    1 <= d.month <= 12 && 1 <= d.day <= DaysInMonth(d.year, d.month)
  }

  predicate ValidDateTime(t: DateTime) {
    ValidDate(t.date) && 0 <= t.hour < 24 && 0 <= t.minute < 60 && 0 <= t.second < 60
  }

  /** Days from 0000-01-01 to the first day of year y (negative before year 0). */
  function DaysBeforeYear(y: int): int
    decreases if y < 0 then -y else y
  {
    if y == 0 then 0
    else if y > 0 then DaysBeforeYear(y - 1) + DaysInYear(y - 1)
    else DaysBeforeYear(y + 1) - DaysInYear(y)
  }

  /** Days from the first of January to the first day of month m of year y. */
  function DaysBeforeMonth(y: int, m: int): int
    requires 1 <= m <= 12
  {
    [0, 31, 59, 90, 120, 151, 181, 212, 243, 273, 304, 334][m - 1]
      + (if m > 2 && IsLeapYear(y) then 1 else 0)
  }

  /** Position of a date on a line of consecutive days. */
  function DayNumber(d: Date): int
    requires 1 <= d.month <= 12
  {
    DaysBeforeYear(d.year) + DaysBeforeMonth(d.year, d.month) + d.day - 1
  }

  lemma YearStep(y: int)
    ensures DaysBeforeYear(y) == DaysBeforeYear(y - 1) + DaysInYear(y - 1)
  {
    if y > 0 {
    } else {
      assert DaysBeforeYear(y - 1) == DaysBeforeYear(y) - DaysInYear(y - 1);
    }
  }

  lemma MonthStep(y: int, m: int)
    requires 1 <= m < 12
    ensures DaysBeforeMonth(y, m + 1) == DaysBeforeMonth(y, m) + DaysInMonth(y, m)
  {
  }

  /** The calendar day before d (Carbon's `subDay`). */
  function PrevDay(d: Date): (r: Date)
    requires ValidDate(d)
    ensures ValidDate(r) && DayNumber(r) == DayNumber(d) - 1
  {
    if d.day > 1 then Date(d.year, d.month, d.day - 1)
    else if d.month > 1 then
      MonthStep(d.year, d.month - 1);
      Date(d.year, d.month - 1, DaysInMonth(d.year, d.month - 1))
    else
      YearStep(d.year);
      Date(d.year - 1, 12, 31)
  }

  /** The calendar day after d (Carbon's `addDay`). */
  function NextDay(d: Date): (r: Date)
    requires ValidDate(d)
    ensures ValidDate(r) && DayNumber(r) == DayNumber(d) + 1
  {
    if d.day < DaysInMonth(d.year, d.month) then Date(d.year, d.month, d.day + 1)
    else if d.month < 12 then
      MonthStep(d.year, d.month);
      Date(d.year, d.month + 1, 1)
    else
      YearStep(d.year + 1);
      Date(d.year + 1, 1, 1)
  }

  lemma NextPrev(d: Date)
    requires ValidDate(d)
    ensures NextDay(PrevDay(d)) == d && PrevDay(NextDay(d)) == d
  {
  }

  /** d moved by n whole days: forward for n > 0 (`addDays`), back for n < 0 (`subDays`). */
  function ShiftDays(d: Date, n: int): (r: Date)
    requires ValidDate(d)
    ensures ValidDate(r) && DayNumber(r) == DayNumber(d) + n
    decreases if n < 0 then -n else n
  {
    if n == 0 then d
    else if n > 0 then NextDay(ShiftDays(d, n - 1))
    else PrevDay(ShiftDays(d, n + 1))
  }

  /** Shifting by a and then by b is shifting by a + b. */
  lemma {:induction false} ShiftAdd(d: Date, a: int, b: int)
    requires ValidDate(d)
    ensures ShiftDays(ShiftDays(d, a), b) == ShiftDays(d, a + b)
    decreases if b < 0 then -b else b
  {
    if b > 0 {
      ShiftAdd(d, a, b - 1);
      if a + b - 1 < 0 {
        NextPrev(ShiftDays(d, a + b));
      }
    } else if b < 0 {
      ShiftAdd(d, a, b + 1);
      if a + b + 1 > 0 {
        NextPrev(ShiftDays(d, a + b));
      }
    }
  }

  /** Consecutive shifts are consecutive calendar days. */
  lemma ShiftNext(d: Date, k: int)
    requires ValidDate(d)
    ensures ShiftDays(d, k + 1) == NextDay(ShiftDays(d, k))
  {
    ShiftAdd(d, k, 1);
  }

  function MonthOrdinal(ym: YearMonth): int {
    ym.year * 12 + ym.month - 1
  }

  /**
   * (year, month) moved i months back by arithmetic on the month ordinal. This
   * is `subMonths(i)` followed by `->year`, `->month` only when the day of the
   * month exists i months back; Carbon's day overflow on days 29 to 31 is not
   * modelled.
   */
  function MonthsBack(ym: YearMonth, i: int): (r: YearMonth)
    requires 1 <= ym.month <= 12
    ensures 1 <= r.month <= 12
    ensures MonthOrdinal(r) == MonthOrdinal(ym) - i
  {
    var o := MonthOrdinal(ym) - i;
    YearMonth(o / 12, o % 12 + 1)
  }

  function TimeOfDay(t: DateTime): int {
    t.hour * 3600 + t.minute * 60 + t.second
  }

  /** Seconds on a linear clock; the cache compares these against expiry times. */
  function Stamp(t: DateTime): int
    requires 1 <= t.date.month <= 12
  {
    DayNumber(t.date) * 86400 + TimeOfDay(t)
  }

  function MonthOf(d: Date): YearMonth {
    YearMonth(d.year, d.month)
  }

  /** `min(daysInMonth, day)`: the days of month ym elapsed by day number `day`. */
  function DaysElapsed(ym: YearMonth, day: int): int
    requires 1 <= ym.month <= 12
  {
    if DaysInMonth(ym.year, ym.month) < day then DaysInMonth(ym.year, ym.month) else day
  }

  /** Point j of a twelve-month chart ending with `current`: the month `subMonths(11 - j)`. */
  function MonthPoint(current: YearMonth, j: int): YearMonth
    requires 1 <= current.month <= 12
  {
    MonthsBack(current, 11 - j)
  }

  /** Two months with the same ordinal are the same month. */
  lemma MonthOrdinalInjective(a: YearMonth, b: YearMonth)
    requires 1 <= a.month <= 12 && 1 <= b.month <= 12
    requires MonthOrdinal(a) == MonthOrdinal(b)
    ensures a == b
  {
  }

  /** A twelve-month chart ends with the current month, and consecutive points are consecutive months. */
  lemma MonthPointOrder(current: YearMonth, j: int)
    requires 1 <= current.month <= 12
    ensures MonthPoint(current, 11) == current
    ensures MonthOrdinal(MonthPoint(current, j + 1)) == MonthOrdinal(MonthPoint(current, j)) + 1
  {
    MonthOrdinalInjective(MonthPoint(current, 11), current);
  }

  /** Point j of an n-day chart ending on `today`: the date `subDays(n - 1 - j)`. */
  function DayPoint(today: Date, n: int, j: int): Date
    requires ValidDate(today)
  {
    ShiftDays(today, j - (n - 1))
  }

  /** An n-day chart ends today, and its consecutive points are consecutive days. */
  lemma DayPointOrder(today: Date, n: int, j: int)
    requires ValidDate(today)
    ensures DayPoint(today, n, n - 1) == today
    ensures DayPoint(today, n, j + 1) == NextDay(DayPoint(today, n, j))
  {
    ShiftNext(today, j - (n - 1));
  }
}
