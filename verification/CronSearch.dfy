/**
 The search for the next local minute that satisfies a parsed cron expression:
 five nested counting loops over the calendar, bounded by 400 years.
 */
module CronSearch {
  import opened Wrappers
  import opened Calendar

  /** The selected bits of each field; day-of-month and month bits count from zero. */
  datatype CronExpression = CronExpression(
    minutes: set<int>,
    hours: set<int>,
    daysOfMonth: set<int>,
    months: set<int>,
    daysOfWeek: set<int>)

  datatype CronError = InvalidExpression | NoFutureOccurrence | OccurrenceOutOfRange

  const MINUTES_PER_DAY := 1440
  const TICKS_PER_MINUTE := 60_000_000_000
  const MAXIMUM_MINUTE_COUNT := 0x7fff_ffff_ffff_ffff
  const MINIMUM_YEAR := -32767
  const MAXIMUM_YEAR := 32767
  const WINDOW_YEARS := 399

  ghost predicate NonEmpty(e: CronExpression) {
    && (exists x :: x in e.minutes) && (exists x :: x in e.hours) && (exists x :: x in e.daysOfWeek)
    && (exists x :: x in e.daysOfMonth) && (exists x :: x in e.months)
  }

  /** Every bit lies inside its bit set. */
  ghost predicate InRange(e: CronExpression) {
    && (forall x :: x in e.minutes ==> 0 <= x < 60)
    && (forall x :: x in e.hours ==> 0 <= x < 24)
    && (forall x :: x in e.daysOfMonth ==> 0 <= x < 31)
    && (forall x :: x in e.months ==> 0 <= x < 12)
    && (forall x :: x in e.daysOfWeek ==> 0 <= x < 7)
  }

  // ---------- What a local minute satisfies ----------

  predicate DateMatches(e: CronExpression, day: int) {
    && MonthOf(day) - 1 in e.months
    && DayOf(day) - 1 in e.daysOfMonth
    && Weekday(day) in e.daysOfWeek
  }

  /** All five fields select the local minute `t`, counted from the epoch. */
  predicate Matches(e: CronExpression, t: int) {
    DateMatches(e, t / MINUTES_PER_DAY) && ClockMatches(e.hours, e.minutes, t % MINUTES_PER_DAY)
  }

  /** The hour and minute fields select a minute of the day. */
  predicate ClockMatches(hours: set<int>, minutes: set<int>, m: int) {
    m / 60 in hours && m % 60 in minutes
  }

  /** No minute from `first` up to, but not including, `cursor` is selected. */
  ghost predicate NoMatch(e: CronExpression, first: int, cursor: int) {
    forall t :: first <= t < cursor ==> !Matches(e, t)
  }

  /** The first selected minute from `first` on. */
  ghost predicate Least(e: CronExpression, first: int, t: int) {
    t >= first && Matches(e, t) && NoMatch(e, first, t)
  }

  /** Some selected day of the month exists in some selected month, counting 29 February. */
  ghost predicate Possible(e: CronExpression) {
    exists m, d :: SelectedDate(e, m, d)
  }

  predicate SelectedDate(e: CronExpression, m: int, d: int) {
    1 <= m <= 12 && 1 <= d <= LongestMonth(m) && m - 1 in e.months && d - 1 in e.daysOfMonth
  }

  // ---------- Skipping ----------

  lemma SkipDay(e: CronExpression, first: int, day: int)
    requires NoMatch(e, first, day * MINUTES_PER_DAY) && !DateMatches(e, day)
    ensures NoMatch(e, first, (day + 1) * MINUTES_PER_DAY)
  {
    forall t | first <= t < (day + 1) * MINUTES_PER_DAY
      ensures !Matches(e, t)
    {
      if t >= day * MINUTES_PER_DAY {
        assert t / MINUTES_PER_DAY == day;
      }
    }
  }

  lemma {:induction false} SkipMonth(e: CronExpression, first: int, y: int, m: int, n: int)
    requires 1 <= m <= 12 && m - 1 !in e.months && 0 <= n <= DaysInMonth(y, m)
    requires NoMatch(e, first, MonthStart(y, m) * MINUTES_PER_DAY)
    ensures NoMatch(e, first, (MonthStart(y, m) + n) * MINUTES_PER_DAY)
    decreases n
  {
    if n > 0 {
      SkipMonth(e, first, y, m, n - 1);
      MonthTable(y);
      InMonth(y, m, MonthStart(y, m) + n - 1);
      SkipDay(e, first, MonthStart(y, m) + n - 1);
    }
  }

  lemma MinuteOf(day: int, m: int)
    requires 0 <= m < MINUTES_PER_DAY
    ensures (day * MINUTES_PER_DAY + m) / MINUTES_PER_DAY == day
    ensures (day * MINUTES_PER_DAY + m) % MINUTES_PER_DAY == m
  {
  }

  lemma MatchesAt(e: CronExpression, day: int, h: int, mi: int)
    requires 0 <= h < 24 && 0 <= mi < 60
    ensures Matches(e, (day * 24 + h) * 60 + mi) <==> DateMatches(e, day) && h in e.hours && mi in e.minutes
  {
    MinuteOf(day, 60 * h + mi);
    ClockAt(e.hours, e.minutes, h, mi);
    assert (day * 24 + h) * 60 + mi == day * MINUTES_PER_DAY + (60 * h + mi);
  }

  lemma DateMatchesCivil(e: CronExpression, y: int, m: int, d: int)
    requires ValidDate(y, m, d)
    ensures DateMatches(e, DayNumber(y, m, d)) <==>
              && m - 1 in e.months && d - 1 in e.daysOfMonth
              && (MarchYear(y, m) + LeapsThrough(MarchYear(y, m)) + WEEKDAY_SHIFT[m - 1] + d) % 7 in e.daysOfWeek
  {
    DateRoundTrip(y, m, d);
    CivilWeekday(y, m, d);
  }

  /** A local minute given by date and time of day is selected by its month, day, weekday, hour and minute. */
  lemma MatchesCivil(e: CronExpression, y: int, m: int, d: int, h: int, mi: int)
    requires ValidDate(y, m, d) && 0 <= h < 24 && 0 <= mi < 60
    ensures Matches(e, (DayNumber(y, m, d) * 24 + h) * 60 + mi) <==>
              && m - 1 in e.months && d - 1 in e.daysOfMonth && h in e.hours && mi in e.minutes
              && (MarchYear(y, m) + LeapsThrough(MarchYear(y, m)) + WEEKDAY_SHIFT[m - 1] + d) % 7 in e.daysOfWeek
  {
    MatchesAt(e, DayNumber(y, m, d), h, mi);
    DateMatchesCivil(e, y, m, d);
  }

  // ---------- The search ----------

  ghost predicate NoClock(hours: set<int>, minutes: set<int>, from: int, to: int) {
    forall m :: 0 <= m < to && m >= from ==> !ClockMatches(hours, minutes, m)
  }

  lemma ClockAt(hours: set<int>, minutes: set<int>, h: int, mi: int)
    requires 0 <= mi < 60
    ensures ClockMatches(hours, minutes, 60 * h + mi) <==> h in hours && mi in minutes
  {
  }

  /** The minute loop of one selected hour; `m` is where the search stopped. */
  method SearchHour(hours: set<int>, minutes: set<int>, h: int, from: int) returns (found: bool, m: int)
    requires 0 <= h < 24 && h in hours && NoClock(hours, minutes, from, 60 * h)
    ensures found ==> 60 * h <= m < 60 * h + 60 && m >= from && ClockMatches(hours, minutes, m)
    ensures NoClock(hours, minutes, from, m) && (!found ==> m == 60 * (h + 1))
  {
    var mi := 0;
    while mi < 60
      invariant 0 <= mi <= 60 && NoClock(hours, minutes, from, 60 * h + mi)
    {
      ClockAt(hours, minutes, h, mi);
      if mi in minutes {
        var candidate := 60 * h + mi;
        if candidate >= from {
          return true, candidate;
        }
      }
      mi := mi + 1;
    }
    return false, 60 * h + mi;
  }

  lemma SkipHour(hours: set<int>, minutes: set<int>, h: int, from: int)
    requires 0 <= h < 24 && h !in hours && NoClock(hours, minutes, from, 60 * h)
    ensures NoClock(hours, minutes, from, 60 * (h + 1))
  {
    forall m | 0 <= m < 60 * (h + 1) && m >= from
      ensures !ClockMatches(hours, minutes, m)
    {
      if m >= 60 * h {
        ClockAt(hours, minutes, h, m - 60 * h);
      }
    }
  }

  /** The hour loop of one selected date: the first selected minute of the day not before `from`. */
  method SearchClock(hours: set<int>, minutes: set<int>, from: int) returns (found: bool, m: int)
    ensures found ==> 0 <= m < MINUTES_PER_DAY && m >= from && ClockMatches(hours, minutes, m)
    ensures NoClock(hours, minutes, from, m) && (!found ==> m == MINUTES_PER_DAY)
  {
    var h := 0;
    while h < 24
      invariant 0 <= h <= 24 && NoClock(hours, minutes, from, 60 * h)
    {
      if h in hours {
        found, m := SearchHour(hours, minutes, h, from);
        if found {
          return;
        }
      } else {
        SkipHour(hours, minutes, h, from);
      }
      h := h + 1;
    }
    return false, 60 * h;
  }

  lemma DayMinute(e: CronExpression, day: int, m: int, t: int)
    requires 0 <= m < MINUTES_PER_DAY && t == day * MINUTES_PER_DAY + m
    ensures Matches(e, t) <==> DateMatches(e, day) && ClockMatches(e.hours, e.minutes, m)
  {
    MinuteOf(day, m);
  }

  lemma DaySearched(e: CronExpression, first: int, day: int, m: int, t: int)
    requires NoMatch(e, first, day * MINUTES_PER_DAY) && 0 <= m <= MINUTES_PER_DAY && t == day * MINUTES_PER_DAY + m
    requires NoClock(e.hours, e.minutes, first - day * MINUTES_PER_DAY, m)
    ensures NoMatch(e, first, t)
  {
    forall u | first <= u < t
      ensures !Matches(e, u)
    {
      if u >= day * MINUTES_PER_DAY {
        DayMinute(e, day, u - day * MINUTES_PER_DAY, u);
      }
    }
  }

  lemma DayFound(e: CronExpression, first: int, day: int, m: int, t: int)
    requires DateMatches(e, day) && NoMatch(e, first, day * MINUTES_PER_DAY)
    requires 0 <= m < MINUTES_PER_DAY && m >= first - day * MINUTES_PER_DAY && ClockMatches(e.hours, e.minutes, m)
    requires NoClock(e.hours, e.minutes, first - day * MINUTES_PER_DAY, m) && t == day * MINUTES_PER_DAY + m
    ensures Least(e, first, t)
  {
    DaySearched(e, first, day, m, t);
    DayMinute(e, day, m, t);
  }

  /** The hours and minutes of one selected date. */
  method SearchDay(e: CronExpression, first: int, day: int) returns (found: bool, t: int)
    requires DateMatches(e, day) && NoMatch(e, first, day * MINUTES_PER_DAY)
    ensures found ==> Least(e, first, t)
    ensures !found ==> t == (day + 1) * MINUTES_PER_DAY && NoMatch(e, first, t)
  {
    var m: int;
    found, m := SearchClock(e.hours, e.minutes, first - day * MINUTES_PER_DAY);
    t := day * MINUTES_PER_DAY + m;
    if found {
      DayFound(e, first, day, m, t);
    } else {
      DaySearched(e, first, day, m, t);
    }
  }

  /** The days of one selected month. */
  method SearchMonth(e: CronExpression, first: int, y: int, m: int) returns (found: bool, t: int)
    requires 1 <= m <= 12 && m - 1 in e.months && NoMatch(e, first, MonthStart(y, m) * MINUTES_PER_DAY)
    ensures found ==> Least(e, first, t)
    ensures !found ==> NoMatch(e, first, MonthStart(y, m + 1) * MINUTES_PER_DAY)
  {
    MonthTable(y);
    var d := 1;
    while d <= DaysInMonth(y, m)
      invariant 1 <= d <= DaysInMonth(y, m) + 1
      invariant NoMatch(e, first, DayNumber(y, m, d) * MINUTES_PER_DAY)
    {
      var day := DayNumber(y, m, d);
      DateRoundTrip(y, m, d);
      if d - 1 in e.daysOfMonth && Weekday(day) in e.daysOfWeek {
        found, t := SearchDay(e, first, day);
        if found {
          return;
        }
      } else {
        SkipDay(e, first, day);
      }
      d := d + 1;
    }
    return false, first;
  }

  /** The months of one year. */
  method SearchYear(e: CronExpression, first: int, y: int) returns (found: bool, t: int)
    requires NoMatch(e, first, YearStart(y) * MINUTES_PER_DAY)
    ensures found ==> Least(e, first, t)
    ensures !found ==> NoMatch(e, first, YearStart(y + 1) * MINUTES_PER_DAY)
  {
    MonthTable(y);
    YearStartStep(y);
    var m := 1;
    while m <= 12
      invariant 1 <= m <= 13
      invariant NoMatch(e, first, MonthStart(y, m) * MINUTES_PER_DAY)
    {
      if m - 1 in e.months {
        found, t := SearchMonth(e, first, y, m);
        if found {
          return;
        }
      } else {
        SkipMonth(e, first, y, m, DaysInMonth(y, m));
      }
      m := m + 1;
    }
    return false, first;
  }

  method SearchYears(e: CronExpression, first: int, firstYear: int, lastYear: int) returns (found: bool, t: int)
    requires firstYear <= lastYear + 1 && NoMatch(e, first, YearStart(firstYear) * MINUTES_PER_DAY)
    ensures found ==> Least(e, first, t)
    ensures !found ==> NoMatch(e, first, YearStart(lastYear + 1) * MINUTES_PER_DAY)
  {
    var y := firstYear;
    while y <= lastYear
      invariant firstYear <= y <= lastYear + 1
      invariant NoMatch(e, first, YearStart(y) * MINUTES_PER_DAY)
    {
      found, t := SearchYear(e, first, y);
      if found {
        return;
      }
      y := y + 1;
    }
    return false, first;
  }

  // ---------- The bounded search finds every possible date ----------

  lemma DateInYear(y: int, m: int, d: int)
    requires ValidDate(y, m, d)
    ensures YearStart(y) <= DayNumber(y, m, d) < YearStart(y + 1)
  {
    DateRoundTrip(y, m, d);
  }

  /** A possible expression selects a day within 128 years. */
  lemma PossibleDay(e: CronExpression, afterYear: int) returns (day: int)
    requires (exists w :: w in e.daysOfWeek) && InRange(e) && Possible(e)
    ensures DateMatches(e, day) && YearStart(afterYear + 1) <= day < YearStart(afterYear + 129)
  {
    var m, d :| SelectedDate(e, m, d);
    var w :| w in e.daysOfWeek;
    var y := EveryWeekdayComes(afterYear, m, d, w);
    day := DayNumber(y, m, d);
    DateRoundTrip(y, m, d);
    DateInYear(y, m, d);
    YearStartMonotone(afterYear + 1, y);
    YearStartMonotone(y + 1, afterYear + 129);
  }

  /** A date that some year has recurs with a wanted weekday within the search window. */
  lemma WindowSuffices(e: CronExpression, first: int, afterYear: int) returns (t: int)
    requires NonEmpty(e) && InRange(e) && Possible(e)
    requires first <= YearStart(afterYear + 1) * MINUTES_PER_DAY
    ensures first <= t < YearStart(afterYear + WINDOW_YEARS + 1) * MINUTES_PER_DAY
    ensures Matches(e, t)
  {
    var day := PossibleDay(e, afterYear);
    var h :| h in e.hours;
    var mi :| mi in e.minutes;
    ClockAt(e.hours, e.minutes, h, mi);
    t := day * MINUTES_PER_DAY + (60 * h + mi);
    DayMinute(e, day, 60 * h + mi, t);
    YearStartMonotone(afterYear + 129, afterYear + WINDOW_YEARS + 1);
  }

  /** A selected minute shows that a selected date exists. */
  lemma MatchIsPossible(e: CronExpression, t: int)
    requires Matches(e, t)
    ensures Possible(e)
  {
    var day := t / MINUTES_PER_DAY;
    DayRoundTrip(day);
    var m, d := MonthOf(day), DayOf(day);
    assert SelectedDate(e, m, d);
  }

  /** An exhausted window leaves nothing to be found, ever. */
  lemma Exhausted(e: CronExpression, first: int, lowerYear: int)
    requires first <= YearStart(lowerYear + 1) * MINUTES_PER_DAY
    requires NoMatch(e, first, YearStart(lowerYear + WINDOW_YEARS + 1) * MINUTES_PER_DAY)
    ensures NonEmpty(e) && InRange(e) ==> !Possible(e) && forall t :: !Matches(e, t)
  {
    if NonEmpty(e) && InRange(e) {
      if Possible(e) {
        var t := WindowSuffices(e, first, lowerYear);
        assert false;
      }
      forall t
        ensures !Matches(e, t)
      {
        if Matches(e, t) {
          MatchIsPossible(e, t);
        }
      }
    }
  }

  // ---------- next_local_occurrence ----------

  /** The whole search window lies in the representable calendar. */
  predicate WindowInRange(bound: int) {
    var lower := bound / TICKS_PER_MINUTE;
    var lowerDay, firstDay := lower / MINUTES_PER_DAY, (lower + 1) / MINUTES_PER_DAY;
    && lower != MAXIMUM_MINUTE_COUNT
    && MINIMUM_YEAR <= YearOf(lowerDay) <= MAXIMUM_YEAR
    && MINIMUM_YEAR <= YearOf(firstDay) <= MAXIMUM_YEAR
    && YearOf(lowerDay) + WINDOW_YEARS <= MAXIMUM_YEAR
  }

  /** The year of a local time. */
  function YearOfTime(ticks: int): int {
    YearOf(ticks / TICKS_PER_MINUTE / MINUTES_PER_DAY)
  }

  /** The window is in range exactly when its first year is one of the calendar's and its last one is too. */
  lemma WindowExactly(bound: int)
    ensures WindowInRange(bound) <==> -32767 <= YearOfTime(bound) && YearOfTime(bound) + 399 <= 32767
  {
    var lower := bound / TICKS_PER_MINUTE;
    FirstYearIsNear(lower);
    if lower == MAXIMUM_MINUTE_COUNT {
      LateYear(lower / MINUTES_PER_DAY);
    }
  }

  /** Thirteen million days after the epoch the calendar has ended. */
  lemma LateYear(day: int)
    requires day >= 13_000_000
    ensures YearOf(day) > 32767
  {
    YearStartClosed(32768);
    if YearOf(day) <= 32767 {
      YearStartMonotone(YearOf(day) + 1, 32768);
    }
  }

  /** `t` is the least selected local minute strictly after `bound`. */
  ghost predicate LeastAfter(e: CronExpression, bound: int, t: int) {
    && t * TICKS_PER_MINUTE > bound
    && Matches(e, t)
    && forall u :: u * TICKS_PER_MINUTE > bound && Matches(e, u) ==> t <= u
  }

  method NextLocalOccurrence(e: CronExpression, bound: int) returns (r: Result<int, CronError>)
    ensures r == Err(OccurrenceOutOfRange) <==> !WindowInRange(bound)
    ensures r == Err(OccurrenceOutOfRange) <==> YearOfTime(bound) < -32767 || YearOfTime(bound) > 32767 - 399
    ensures r.Ok? ==> LeastAfter(e, bound, r.value)
    ensures WindowInRange(bound) && NonEmpty(e) && InRange(e) ==>
              (r == Err(NoFutureOccurrence) <==> !Possible(e))
    ensures r != Err(InvalidExpression)
    ensures r == Err(NoFutureOccurrence) && NonEmpty(e) && InRange(e) ==> forall t :: !Matches(e, t)
  {
    WindowExactly(bound);
    if !WindowInRange(bound) {
      return Err(OccurrenceOutOfRange);
    }
    var lower := bound / TICKS_PER_MINUTE;
    var first := lower + 1;
    var lowerYear := YearOf(lower / MINUTES_PER_DAY);
    var firstYear := YearOf(first / MINUTES_PER_DAY);
    var lastYear := lowerYear + WINDOW_YEARS;
    FirstYearIsNear(lower);

    var found, t := SearchYears(e, first, firstYear, lastYear);
    if found {
      Earliest(e, bound, t);
      MatchIsPossible(e, t);
      return Ok(t);
    }
    Exhausted(e, first, lowerYear);
    return Err(NoFutureOccurrence);
  }

  lemma FirstYearIsNear(lower: int)
    ensures var y, z := YearOf(lower / MINUTES_PER_DAY), YearOf((lower + 1) / MINUTES_PER_DAY);
            && y <= z <= y + 1
            && YearStart(z) * MINUTES_PER_DAY <= lower + 1 <= YearStart(y + 1) * MINUTES_PER_DAY
  {
    var day, next := lower / MINUTES_PER_DAY, (lower + 1) / MINUTES_PER_DAY;
    var y, z := YearOf(day), YearOf(next);
    assert day <= next <= day + 1;
    if z < y {
      YearStartMonotone(z + 1, y);
    }
    if y + 1 < z {
      YearStartMonotone(y + 2, z);
      YearStartStep(y + 1);
    }
  }

  lemma AfterBound(bound: int)
    ensures forall t: int :: t * TICKS_PER_MINUTE > bound <==> t >= bound / TICKS_PER_MINUTE + 1
  {
  }

  lemma Earliest(e: CronExpression, bound: int, t: int)
    requires Least(e, bound / TICKS_PER_MINUTE + 1, t)
    ensures LeastAfter(e, bound, t)
  {
    AfterBound(bound);
    forall u | u * TICKS_PER_MINUTE > bound && Matches(e, u)
      ensures t <= u
    {
      assert u >= bound / TICKS_PER_MINUTE + 1;
    }
  }
}
