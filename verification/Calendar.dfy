/**
 Local time without daylight saving: instants are milliseconds, days are counted from
 1 January 1970 (a Thursday), and dates follow the Gregorian calendar.
 */
module Calendar {
  const DAY_MS: int := 24 * 60 * 60 * 1000

  function Day(t: nat): nat { t / DAY_MS }
  function Midnight(day: nat): nat { day * DAY_MS }
  function Weekday(day: nat): int { (4 + day) % 7 }

  datatype Date = Date(year: nat, month: int, day: int)

  predicate Leap(year: nat) {
    year % 4 == 0 && (year % 100 != 0 || year % 400 == 0)
  }

  function DaysIn(year: nat, month: int): int {
    if month == 2 then (if Leap(year) then 29 else 28)
    else if month == 4 || month == 6 || month == 9 || month == 11 then 30
    else 31
  }

  predicate Valid(d: Date) {
    1 <= d.month <= 12 && 1 <= d.day <= DaysIn(d.year, d.month)
  }

  function Next(d: Date): Date {
    if d.day < DaysIn(d.year, d.month) then d.(day := d.day + 1)
    else if d.month < 12 then Date(d.year, d.month + 1, 1)
    else Date(d.year + 1, 1, 1)
  }

  function DateOf(day: nat): (d: Date)
    ensures Valid(d)
  {
    if day == 0 then Date(1970, 1, 1) else Next(DateOf(day - 1))
  }

  predicate Before(a: Date, b: Date) {
    a.year < b.year || (a.year == b.year && (a.month < b.month || (a.month == b.month && a.day < b.day)))
  }

  lemma {:induction false} DatesIncrease(j: nat, k: nat)
    requires j < k
    ensures Before(DateOf(j), DateOf(k))
  {
    if j < k - 1 { DatesIncrease(j, k - 1); }
  }

  /** Comparing year, month and day compares days. */
  lemma SameDateIsSameDay(j: nat, k: nat)
    ensures DateOf(j) == DateOf(k) <==> j == k
  {
    if j < k { DatesIncrease(j, k); }
    if k < j { DatesIncrease(k, j); }
  }

  /** Within a month the day number counts up. */
  lemma {:induction false} WithinMonth(day: nat, i: nat)
    requires DateOf(day).day + i <= DaysIn(DateOf(day).year, DateOf(day).month)
    ensures DateOf(day + i) == DateOf(day).(day := DateOf(day).day + i)
  {
    if i > 0 { WithinMonth(day, i - 1); }
  }

  /** The first of the next month. */
  lemma NextMonth(day: nat) returns (first: nat)
    ensures var d := DateOf(day);
            DateOf(first) == if d.month < 12 then Date(d.year, d.month + 1, 1) else Date(d.year + 1, 1, 1)
    ensures first == day + 1 + DaysIn(DateOf(day).year, DateOf(day).month) - DateOf(day).day
  {
    var left := DaysIn(DateOf(day).year, DateOf(day).month) - DateOf(day).day;
    WithinMonth(day, left);
    first := day + left + 1;
  }

  /** The first of the same month. */
  lemma {:induction false} FirstOfMonth(day: nat) returns (first: nat)
    ensures first <= day && first + DateOf(day).day - 1 == day && DateOf(first) == DateOf(day).(day := 1)
  {
    if DateOf(day).day == 1 { first := day; } else { first := FirstOfMonth(day - 1); }
  }

  // The same calendar by arithmetic: how many days lie between 1 January 1970 and a date.

  /** The number of leap years before this one, by the Gregorian rule. */
  function LeapsBefore(year: nat): int
    requires year >= 1
  {
    (year - 1) / 4 - (year - 1) / 100 + (year - 1) / 400
  }

  function NewYear(year: nat): int
    requires year >= 1
  {
    365 * (year - 1970) + LeapsBefore(year) - LeapsBefore(1970)
  }

  /** The first days of the months of a common year, counted from its first. */
  const MONTH_STARTS: seq<nat> := [0, 31, 59, 90, 120, 151, 181, 212, 243, 273, 304, 334]

  function DayNumber(d: Date): int
    requires d.year >= 1970 && 1 <= d.month <= 12
  {
    var leapDay := if d.month > 2 && LeapsBefore(d.year + 1) > LeapsBefore(d.year) then 1 else 0;
    NewYear(d.year) + MONTH_STARTS[d.month - 1] + leapDay + d.day - 1
  }

  lemma LeapsCount(year: nat)
    requires year >= 1
    ensures LeapsBefore(year + 1) == LeapsBefore(year) + if Leap(year) then 1 else 0
  {
    DividesStep(year, 4);
    DividesStep(year, 100);
    DividesStep(year, 400);
  }

  lemma DividesStep(n: nat, m: nat)
    requires n >= 1 && m >= 2
    ensures n / m == (n - 1) / m + if n % m == 0 then 1 else 0
  {
    var q, r := n / m, n % m;
    assert n == q * m + r;
    if r == 0 {
      assert n - 1 == (q - 1) * m + (m - 1);
      Quotient(n - 1, m, q - 1, m - 1);
    } else {
      assert n - 1 == q * m + (r - 1);
      Quotient(n - 1, m, q, r - 1);
    }
  }

  lemma AtLeastOnce(d: int, m: nat)
    requires d >= 1
    ensures d * m >= m
  {
    assert d * m == (d - 1) * m + m;
  }

  lemma Quotient(n: nat, m: nat, q: int, r: nat)
    requires m >= 1 && n == q * m + r && r < m
    ensures n / m == q
  {
    var d := n / m - q;
    assert n == (n / m) * m + n % m;
    assert d * m == r - n % m;
    if d >= 1 { AtLeastOnce(d, m); }
    if d <= -1 { AtLeastOnce(-d, m); }
  }

  /** Every date has the number that the count of days gives it. */
  lemma {:induction false} DayNumberIsRight(day: nat)
    ensures DateOf(day).year >= 1970 && DayNumber(DateOf(day)) == day
  {
    if day > 0 {
      DayNumberIsRight(day - 1);
      var d := DateOf(day - 1);
      LeapsCount(d.year);
      NextHasNextNumber(d);
    } else {
      LeapsCount(1970);
    }
  }

  /** A month ends where the next one starts. */
  lemma MonthEnds(year: nat, month: int)
    requires 1 <= month <= 12
    ensures var leapDay := if month == 2 && Leap(year) then 1 else 0;
            MONTH_STARTS[month - 1] + DaysIn(year, month) - leapDay == if month < 12 then MONTH_STARTS[month] else 365
  {
    hide Leap;
  }

  lemma NextHasNextNumber(d: Date)
    requires d.year >= 1970 && Valid(d)
    ensures DayNumber(Next(d)) == DayNumber(d) + 1
  {
    LeapsCount(d.year);
    if d.day == DaysIn(d.year, d.month) {
      MonthEnds(d.year, d.month);
      if d.month == 12 { assert NewYear(d.year + 1) == NewYear(d.year) + 365 + if Leap(d.year) then 1 else 0; }
    }
    hide LeapsBefore, Leap, DaysIn;
  }

  lemma DayBounds(t: nat)
    ensures Midnight(Day(t)) <= t < Midnight(Day(t) + 1)
  {
  }

  lemma DayAt(day: nat, offset: nat)
    requires offset < DAY_MS
    ensures Day(Midnight(day) + offset) == day
  {
  }

  lemma DayMonotone(s: nat, t: nat)
    requires s <= t
    ensures Day(s) <= Day(t)
  {
  }
}
