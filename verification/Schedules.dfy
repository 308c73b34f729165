/**
 When a scheduled task is due, and when it will be due next (isTaskDue.ts, nextOccurrence.ts).
 The two files interpret the same schedule in opposite directions; they are proved to agree.
 */
module Schedules {
  import opened Common
  import opened Calendar
  import opened RecoveryModel

  const HORIZON: nat := 400

  function DigitValue(c: char): nat {
    if Digit(c) then c as nat - '0' as nat else 0
  }

  /** Milliseconds from midnight to the scheduled time; `setSchedule` admits 24-hour "HH:MM" only. */
  function SlotOf(s: Schedule): (slot: Option<nat>)
    ensures slot.Some? ==> slot.value < DAY_MS
  {
    if !s.enabled || s.time.None? || !ValidTime(s.time.value) then None
    else
      var t := s.time.value;
      var hours, minutes := 10 * DigitValue(t[0]) + DigitValue(t[1]), 10 * DigitValue(t[3]) + DigitValue(t[4]);
      Some((60 * hours + minutes) * 60_000)
  }

  function Digits(n: nat): string
    requires n < 100
  {
    ['0' + (n / 10) as char, '0' + (n % 10) as char]
  }

  lemma DigitsBack(c: char, d: char)
    requires Digit(c) && Digit(d)
    ensures 10 * DigitValue(c) + DigitValue(d) < 100 && Digits(10 * DigitValue(c) + DigitValue(d)) == [c, d]
  {
  }

  lemma HoursAndMinutes(hours: nat, minutes: nat)
    requires minutes < 60
    ensures (60 * hours + minutes) / 60 == hours && (60 * hours + minutes) % 60 == minutes
  {
  }

  /** The slot is the wall-clock time the text says. */
  lemma SlotReadsBack(s: Schedule)
    requires SlotOf(s).Some?
    ensures var minutes := SlotOf(s).value / 60_000;
            SlotOf(s).value == minutes * 60_000 && minutes / 60 < 100
              && s.time.value == Digits(minutes / 60) + ":" + Digits(minutes % 60)
  {
    var t := s.time.value;
    var hours, minutes := 10 * DigitValue(t[0]) + DigitValue(t[1]), 10 * DigitValue(t[3]) + DigitValue(t[4]);
    assert minutes < 60;
    DigitsBack(t[0], t[1]);
    DigitsBack(t[3], t[4]);
    HoursAndMinutes(hours, minutes);
    assert SlotOf(s).value == (60 * hours + minutes) * 60_000;
    assert SlotOf(s).value / 60_000 == 60 * hours + minutes;
    hide Digits, DigitValue, SlotOf;
    assert t == [t[0], t[1]] + ":" + [t[3], t[4]];
  }

  function Min(a: int, b: int): int { if a < b then a else b }

  /** A day beyond the month's length means its last day. */
  predicate MatchesDayOfMonth(day: int, k: nat) {
    DateOf(k).day == Min(day, DaysIn(DateOf(k).year, DateOf(k).month))
  }

  predicate DayMatches(s: Schedule, k: nat) {
    match s.frequency
    case Daily => true
    case Weekly => s.daysOfWeek.Some? && Weekday(k) in s.daysOfWeek.value
    case Monthly => s.dayOfMonth.Some? && MatchesDayOfMonth(s.dayOfMonth.value, k)
  }

  /** `isSameLocalDate`. */
  predicate SameDate(s: nat, t: nat) {
    DateOf(Day(s)) == DateOf(Day(t))
  }

  /** `isTaskDue`; `latest` is when the newest scheduled run started. */
  predicate IsDue(active: bool, s: Schedule, now: nat, latest: Option<nat>) {
    && active && SlotOf(s).Some?
    && !(latest.Some? && SameDate(latest.value, now))
    && DayMatches(s, Day(now))
    && now >= Midnight(Day(now)) + SlotOf(s).value
  }

  /**
   An inactive task, or one without an enabled time, is never due; nor is one again on the date of its last scheduled
   run.
   */
  lemma NotDueWhenOff(active: bool, s: Schedule, now: nat, latest: Option<nat>)
    requires !active || !s.enabled || s.time.None? || (latest.Some? && Day(latest.value) == Day(now))
    ensures !IsDue(active, s, now, latest)
  {
    if latest.Some? { SameDateIsSameDay(Day(latest.value), Day(now)); }
  }

  /** Day `k` still has a slot to come. */
  predicate Open(s: Schedule, slot: nat, now: nat, ranToday: bool, k: nat) {
    DayMatches(s, k) && (k == Day(now) ==> !ranToday && Midnight(k) + slot > now)
  }

  /** The first open slot from today on, within the horizon. */
  ghost predicate FirstOpen(s: Schedule, now: nat, ranToday: bool, r: Option<nat>) {
    match r
    case None => SlotOf(s).Some? ==> forall k :: Day(now) <= k < Day(now) + HORIZON ==>
      !Open(s, SlotOf(s).value, now, ranToday, k)
    case Some(t) =>
      && SlotOf(s).Some? && t == Midnight(Day(t)) + SlotOf(s).value && Day(now) <= Day(t)
      && Open(s, SlotOf(s).value, now, ranToday, Day(t))
      && forall k :: Day(now) <= k < Day(t) ==> !Open(s, SlotOf(s).value, now, ranToday, k)
  }

  /** `nextScheduledRunAt`. */
  method NextScheduledRunAt(s: Schedule, now: nat, ranToday: bool) returns (r: Option<nat>)
    ensures FirstOpen(s, now, ranToday, r)
  {
    var slot := SlotOf(s);
    if slot.None? { return None; }
    if s.frequency.Weekly? && (s.daysOfWeek.None? || s.daysOfWeek.value == []) { return None; }
    if s.frequency.Monthly? && s.dayOfMonth.None? { return None; }
    var offset := 0;
    while offset < HORIZON
      invariant offset <= HORIZON
      invariant forall k :: Day(now) <= k < Day(now) + offset ==> !Open(s, slot.value, now, ranToday, k)
    {
      var k := Day(now) + offset;
      offset := offset + 1;
      if !DayMatches(s, k) { continue; }
      var t := Midnight(k) + slot.value;
      DayAt(k, slot.value);
      if k == Day(now) && ranToday { continue; }
      if k == Day(now) && t <= now { continue; }
      return Some(t);
    }
    return None;
  }

  // Every schedule that can match at all matches soon.

  /** A schedule that can never fire. */
  predicate Never(s: Schedule) {
    || SlotOf(s).None?
    || (s.frequency.Weekly? && (s.daysOfWeek.None? || forall d :: d in s.daysOfWeek.value ==> !(0 <= d < 7)))
    || (s.frequency.Monthly? && (s.dayOfMonth.None? || s.dayOfMonth.value < 1))
  }

  /** The longest wait, in days. */
  function Period(f: Frequency): nat {
    match f
    case Daily => 1
    case Weekly => 7
    case Monthly => 31
  }

  lemma WeekdayWithin(k: nat, d: int) returns (j: nat)
    requires 0 <= d < 7
    ensures k < j <= k + 7 && Weekday(j) == d
  {
    j := k + 1 + (d - Weekday(k + 1)) % 7;
  }

  lemma MonthDayWithin(k: nat, d: int) returns (j: nat)
    requires d >= 1
    ensures k < j <= k + 31 && MatchesDayOfMonth(d, j)
  {
    var date := DateOf(k);
    var here := Min(d, DaysIn(date.year, date.month));
    if date.day < here {
      j := k + (here - date.day);
      WithinMonth(k, here - date.day);
    } else {
      var first := NextMonth(k);
      var there := Min(d, DaysIn(DateOf(first).year, DateOf(first).month));
      j := first + (there - 1);
      WithinMonth(first, there - 1);
    }
  }

  // Which days match, on the calendar.

  /** A monthly schedule means its day, or, in a month that is too short for it, the day before the next month. */
  lemma MonthlyMeans(d: int, k: nat)
    requires d >= 1
    ensures MatchesDayOfMonth(d, k) <==>
            DateOf(k).day == d || (DateOf(k).day < d && DateOf(k + 1).month != DateOf(k).month)
  {
  }

  predicate SameMonth(j: nat, k: nat) {
    DateOf(j).year == DateOf(k).year && DateOf(j).month == DateOf(k).month
  }

  /** It matches on one day of every month, and only on one. */
  lemma MonthlyOnce(d: int, k: nat) returns (j: nat)
    requires d >= 1
    ensures SameMonth(j, k) && MatchesDayOfMonth(d, j)
    ensures forall i :: SameMonth(i, k) && MatchesDayOfMonth(d, i) ==> i == j
  {
    var first := FirstOfMonth(k);
    var here := Min(d, DaysIn(DateOf(k).year, DateOf(k).month));
    WithinMonth(first, here - 1);
    j := first + here - 1;
    forall i | SameMonth(i, k) && MatchesDayOfMonth(d, i) ensures i == j {
      assert DateOf(i) == DateOf(j);
      SameDateIsSameDay(i, j);
    }
  }

  /** Days of the week go round, from Sunday, 0, to Saturday, 6; 1 January 1970 was a Thursday. */
  lemma WeekdaysGoRound(k: nat)
    ensures DateOf(0) == Date(1970, 1, 1) && Weekday(0) == 4
    ensures 0 <= Weekday(k) < 7 && Weekday(k + 1) == if Weekday(k) == 6 then 0 else Weekday(k) + 1
  {
  }

  /** 1 January 2000 was a Saturday. */
  lemma KnownSaturday(k: nat)
    requires DateOf(k) == Date(2000, 1, 1)
    ensures k == 10957 && Weekday(k) == 6
  {
    DayNumberIsRight(k);
    hide DateOf;
  }

  /** When a task is due, in terms of the calendar. */
  lemma DueOnCalendar(active: bool, s: Schedule, now: nat, latest: Option<nat>)
    requires s.frequency.Monthly? && s.dayOfMonth.Some? ==> s.dayOfMonth.value >= 1
    ensures IsDue(active, s, now, latest) <==>
            && active && s.enabled && s.time.Some? && ValidTime(s.time.value)
            && now % DAY_MS >= SlotOf(s).value && (latest.Some? ==> latest.value / DAY_MS != now / DAY_MS)
            && match s.frequency
               case Daily => true
               case Weekly => s.daysOfWeek.Some? && (now / DAY_MS + 4) % 7 in s.daysOfWeek.value
               case Monthly =>
                 && s.dayOfMonth.Some?
                 && var today, tomorrow := DateOf(now / DAY_MS), DateOf(now / DAY_MS + 1);
                    today.day == s.dayOfMonth.value
                    || (today.day < s.dayOfMonth.value && tomorrow.month != today.month)
  {
    if latest.Some? { SameDateIsSameDay(Day(latest.value), Day(now)); }
    if s.frequency.Monthly? && s.dayOfMonth.Some? { MonthlyMeans(s.dayOfMonth.value, Day(now)); }
    assert now == Midnight(Day(now)) + now % DAY_MS;
    hide MatchesDayOfMonth, DateOf;
  }

  /** After any day there is a matching one within the period, unless there never is. */
  lemma MatchWithinPeriod(s: Schedule, k: nat) returns (j: nat)
    requires !Never(s)
    ensures k < j <= k + Period(s.frequency) && DayMatches(s, j)
  {
    match s.frequency
    case Daily => j := k + 1;
    case Weekly =>
      var d :| d in s.daysOfWeek.value && 0 <= d < 7;
      j := WeekdayWithin(k, d);
    case Monthly => j := MonthDayWithin(k, s.dayOfMonth.value);
  }

  lemma NeverMatches(s: Schedule, k: nat)
    requires Never(s) && SlotOf(s).Some?
    ensures !DayMatches(s, k)
  {
  }

  /** The 400-day walk gives up only on a schedule that can never fire, and otherwise answers within the period. */
  lemma AnswersWithinPeriod(s: Schedule, now: nat, ranToday: bool, r: Option<nat>)
    requires FirstOpen(s, now, ranToday, r)
    ensures r.None? <==> Never(s)
    ensures r.Some? ==> now < r.value && Day(r.value) <= Day(now) + Period(s.frequency)
  {
    if Never(s) {
      if r.Some? { NeverMatches(s, Day(r.value)); }
    } else {
      var j := MatchWithinPeriod(s, Day(now));
      assert Open(s, SlotOf(s).value, now, ranToday, j);
      DayBounds(now);
    }
  }

  /** Being due at `t`, seen from `now`, when no run starts in between. */
  lemma DueFromNow(s: Schedule, now: nat, latest: Option<nat>, t: nat)
    requires now <= t && SlotOf(s).Some?
    requires latest.Some? ==> Day(latest.value) <= Day(now)
    ensures IsDue(true, s, t, latest) <==>
            && DayMatches(s, Day(t)) && t >= Midnight(Day(t)) + SlotOf(s).value
            && !(Day(t) == Day(now) && latest.Some? && SameDate(latest.value, now))
  {
    DayMonotone(now, t);
    if latest.Some? {
      SameDateIsSameDay(Day(latest.value), Day(t));
      SameDateIsSameDay(Day(latest.value), Day(now));
    }
  }

  /**
   The projection is exact: for an active task that is not due now, and with no scheduled run starting
   meanwhile, `nextScheduledRunAt` is the first instant after now at which `isTaskDue` holds, and
   null if and only if there is none.
   */
  lemma ProjectionIsExact(s: Schedule, now: nat, latest: Option<nat>, r: Option<nat>)
    requires latest.Some? ==> Day(latest.value) <= Day(now)
    requires !IsDue(true, s, now, latest)
    requires FirstOpen(s, now, latest.Some? && SameDate(latest.value, now), r)
    ensures r.Some? ==> now < r.value && IsDue(true, s, r.value, latest)
    ensures forall u: nat :: now < u && (r.Some? ==> u < r.value) ==> !IsDue(true, s, u, latest)
  {
    var ran := latest.Some? && SameDate(latest.value, now);
    AnswersWithinPeriod(s, now, ran, r);
    if r.Some? { DueFromNow(s, now, latest, r.value); }
    forall u: nat | now < u && (r.Some? ==> u < r.value) ensures !IsDue(true, s, u, latest) {
      if SlotOf(s).Some? {
        if r.None? { NeverMatches(s, Day(u)); } else { NotDueBefore(s, now, latest, r.value, u); }
      }
    }
  }

  lemma NotDueBefore(s: Schedule, now: nat, latest: Option<nat>, t: nat, u: nat)
    requires latest.Some? ==> Day(latest.value) <= Day(now)
    requires !IsDue(true, s, now, latest)
    requires FirstOpen(s, now, latest.Some? && SameDate(latest.value, now), Some(t))
    requires now < u < t
    ensures !IsDue(true, s, u, latest)
  {
    var slot := SlotOf(s).value;
    DayMonotone(now, u);
    DayMonotone(u, t);
    DueFromNow(s, now, latest, now);
    DueFromNow(s, now, latest, u);
    if Day(u) == Day(t) {
      assert u < Midnight(Day(u)) + slot;
    } else {
      assert !Open(s, slot, now, latest.Some? && SameDate(latest.value, now), Day(u));
    }
  }
}
