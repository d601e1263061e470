/** UTC calendar days, as far as the day-of-month argument of the limiter needs them. */
module Calendar {

  const DAY_MS := 86400000

  datatype Date = Date(year: int, month: int, day: int)

  predicate LeapYear(y: int) {
    y % 4 == 0 && (y % 100 != 0 || y % 400 == 0)
  }

  function MonthLength(y: int, m: int): (n: nat)
    ensures 28 <= n <= 31
  {
    if m == 2 then (if LeapYear(y) then 29 else 28)
    else if m == 4 || m == 6 || m == 9 || m == 11 then 30
    else 31
  }

  function Next(d: Date): Date {
    if d.day < MonthLength(d.year, d.month) then d.(day := d.day + 1)
    else if d.month < 12 then Date(d.year, d.month + 1, 1)
    else Date(d.year + 1, 1, 1)
  }

  /** The date n days after 1 January 1970. */
  function DateOf(n: nat): (d: Date)
    ensures 1 <= d.day <= MonthLength(d.year, d.month)
    ensures 1 <= d.month <= 12
  {
    if n == 0 then Date(1970, 1, 1) else Next(DateOf(n - 1))
  }

  function DayIndex(t: nat): nat {
    t / DAY_MS
  }

  function DayOfMonth(day: nat): (r: nat)
    ensures 1 <= r <= 31
  {
    DateOf(day).day
  }

  /** Days of the year before a month. */
  function DaysBefore(y: int, m: int): int
    requires 1 <= m <= 12
  {
    [0, 31, 59, 90, 120, 151, 181, 212, 243, 273, 304, 334][m - 1] + (if m > 2 && LeapYear(y) then 1 else 0)
  }

  /** Leap years before a year, counted from year 1. */
  function LeapsBefore(y: int): int {
    (y - 1) / 4 - (y - 1) / 100 + (y - 1) / 400
  }

  /** Days from 1 January 1970 to a date, counted by years, months and days. */
  function DayNumber(d: Date): int
    requires 1 <= d.month <= 12
  {
    365 * (d.year - 1970) + LeapsBefore(d.year) - LeapsBefore(1970) + DaysBefore(d.year, d.month) + d.day - 1
  }

  lemma QuotientSteps(y: int)
    ensures y / 4 == (y - 1) / 4 + if y % 4 == 0 then 1 else 0
    ensures y / 100 == (y - 1) / 100 + if y % 100 == 0 then 1 else 0
    ensures y / 400 == (y - 1) / 400 + if y % 400 == 0 then 1 else 0
  {
  }

  lemma Divisors(y: int)
    ensures y % 100 == 0 ==> y % 4 == 0
    ensures y % 400 == 0 ==> y % 100 == 0
  {
    assert y % 100 == 0 ==> y == 4 * (25 * (y / 100));
    assert y % 400 == 0 ==> y == 100 * (4 * (y / 400));
  }

  lemma LeapStep(y: int)
    ensures LeapsBefore(y + 1) == LeapsBefore(y) + if LeapYear(y) then 1 else 0
  {
    QuotientSteps(y);
    Divisors(y);
  }

  lemma NextNumber(d: Date)
    requires 1 <= d.month <= 12 && 1 <= d.day <= MonthLength(d.year, d.month)
    ensures var next := Next(d);
            1 <= next.month <= 12 && DayNumber(next) == DayNumber(d) + 1
  {
    LeapStep(d.year);
    hide LeapsBefore;
  }

  /** The calendar is the Gregorian one: counting days forward agrees with counting years and months. */
  lemma {:induction false} DateOfIsGregorian(n: nat)
    ensures DayNumber(DateOf(n)) == n
  {
    if n > 0 {
      DateOfIsGregorian(n - 1);
      NextNumber(DateOf(n - 1));
    }
  }

  /** A date of the Gregorian calendar. */
  predicate Valid(d: Date) {
    1 <= d.month <= 12 && 1 <= d.day <= MonthLength(d.year, d.month)
  }

  predicate Before(d: Date, e: Date) {
    d.year < e.year || (d.year == e.year && (d.month < e.month || (d.month == e.month && d.day < e.day)))
  }

  lemma {:induction false} LaterYear(y: int, z: int)
    requires y <= z
    ensures LeapsBefore(y) <= LeapsBefore(z)
    decreases z - y
  {
    if y < z {
      LeapStep(y);
      hide LeapsBefore, LeapYear;
      LaterYear(y + 1, z);
    }
  }

  /** Day numbers run with the calendar. */
  lemma NumbersIncrease(d: Date, e: Date)
    requires Valid(d) && Valid(e) && Before(d, e)
    ensures DayNumber(d) < DayNumber(e)
  {
    if d.year < e.year {
      LeapStep(d.year);
      LaterYear(d.year + 1, e.year);
    }
    hide LeapsBefore;
  }

  /** And the other way round: a day number is the number of one date only. */
  lemma DayNumberIsDate(d: Date)
    requires Valid(d) && d.year >= 1970
    ensures DayNumber(d) >= 0 && DateOf(DayNumber(d)) == d
  {
    var first := Date(1970, 1, 1);
    if d != first {
      NumbersIncrease(first, d);
    }
    var n := DayNumber(d);
    DateOfIsGregorian(n);
    var e := DateOf(n);
    hide DayNumber, DateOf, MonthLength;
    if d != e {
      if Before(d, e) {
        NumbersIncrease(d, e);
      } else {
        NumbersIncrease(e, d);
      }
    }
  }

  /** Walking k days on either stays in the month, or has wrapped exactly once. */
  lemma {:induction false} Walk(a: nat, k: nat)
    requires k <= 27
    ensures var d, e := DateOf(a), DateOf(a + k);
            (e.day == d.day + k && e.month == d.month && e.year == d.year) ||
            e.day == d.day + k - MonthLength(d.year, d.month)
  {
    if k > 0 {
      Walk(a, k - 1);
    }
  }

  /** A day-of-month number never recurs within 28 days. */
  lemma RecursAfter28Days(a: nat, b: nat)
    requires a < b && DayOfMonth(a) == DayOfMonth(b)
    ensures b - a >= 28
  {
    if b - a < 28 {
      Walk(a, b - a);
    }
  }
}
