/**
 The proleptic Gregorian calendar over day numbers counted from 1 January
 1970, and the recovery of year, month and day from a day number.
 */
module Calendar {
  const EPOCH_YEAR := 1970

  predicate Leap(y: int) {
    y % 4 == 0 && (y % 100 != 0 || y % 400 == 0)
  }

  function YearLength(y: int): int {
    if Leap(y) then 366 else 365
  }

  function DaysInMonth(y: int, m: int): int {
    if m == 2 then (if Leap(y) then 29 else 28)
    else if m == 4 || m == 6 || m == 9 || m == 11 then 30
    else 31
  }

  /** The most days month `m` ever has. */
  function LongestMonth(m: int): int {
    if m == 2 then 29 else DaysInMonth(1, m)
  }

  /** Days from the start of the year to the start of month `m`. */
  function DaysBeforeMonth(y: int, m: int): int
    requires 1 <= m <= 13
  {
    if m == 1 then 0 else DaysBeforeMonth(y, m - 1) + DaysInMonth(y, m - 1)
  }

  /** The day number of 1 January of year `y`, counting year by year from the epoch. */
  function YearStart(y: int): int
    decreases if y < EPOCH_YEAR then EPOCH_YEAR - y else y - EPOCH_YEAR
  {
    if y == EPOCH_YEAR then 0
    else if y > EPOCH_YEAR then YearStart(y - 1) + YearLength(y - 1)
    else YearStart(y + 1) - YearLength(y)
  }

  predicate ValidDate(y: int, m: int, d: int) {
    1 <= m <= 12 && 1 <= d <= DaysInMonth(y, m)
  }

  /** The day number of the first day of month `m`; month 13 is the next January. */
  function MonthStart(y: int, m: int): int
    requires 1 <= m <= 13
  {
    YearStart(y) + DaysBeforeMonth(y, m)
  }

  function DayNumber(y: int, m: int, d: int): int
    requires 1 <= m <= 12
  {
    MonthStart(y, m) + d - 1
  }

  /** Sunday is zero; 1 January 1970 was a Thursday. */
  function Weekday(day: int): (w: int)
    ensures 0 <= w < 7
  {
    (day + 4) % 7
  }

  // ---------- Reading a day number back ----------

  function YearUp(day: int, y: int): (r: int)
    requires y >= EPOCH_YEAR && YearStart(y) <= day
    ensures YearStart(r) <= day < YearStart(r + 1)
    decreases day - YearStart(y)
  {
    if day < YearStart(y + 1) then y else YearUp(day, y + 1)
  }

  function YearDown(day: int, y: int): (r: int)
    requires y <= EPOCH_YEAR && day < YearStart(y)
    ensures YearStart(r) <= day < YearStart(r + 1)
    decreases YearStart(y) - day
  {
    if YearStart(y - 1) <= day then y - 1 else YearDown(day, y - 1)
  }

  /** The year a day falls in. */
  function YearOf(day: int): (y: int)
    ensures YearStart(y) <= day < YearStart(y + 1)
  {
    if day >= 0 then YearUp(day, EPOCH_YEAR) else YearDown(day, EPOCH_YEAR)
  }

  function MonthFrom(y: int, offset: int, m: int): (r: int)
    requires 1 <= m <= 12
    ensures m <= r <= 12
    decreases 12 - m
  {
    if m == 12 || offset < DaysBeforeMonth(y, m + 1) then m else MonthFrom(y, offset, m + 1)
  }

  function MonthOf(day: int): (m: int)
    ensures 1 <= m <= 12
  {
    MonthFrom(YearOf(day), day - YearStart(YearOf(day)), 1)
  }

  function DayOf(day: int): int {
    day - MonthStart(YearOf(day), MonthOf(day)) + 1
  }

  // ---------- Lengths and order ----------

  lemma YearStartStep(y: int)
    ensures YearStart(y + 1) == YearStart(y) + YearLength(y)
  {
  }

  lemma {:induction false} YearStartMonotone(y: int, z: int)
    requires y <= z
    ensures YearStart(y) + 365 * (z - y) <= YearStart(z)
    decreases z - y
  {
    if y < z {
      YearStartMonotone(y, z - 1);
      YearStartStep(z - 1);
    }
  }

  lemma MonthTable(y: int)
    ensures DaysBeforeMonth(y, 13) == YearLength(y)
    ensures forall m :: 1 <= m <= 12 ==> DaysBeforeMonth(y, m + 1) == DaysBeforeMonth(y, m) + DaysInMonth(y, m)
  {
    var leap := if Leap(y) then 1 else 0;
    assert DaysBeforeMonth(y, 1) == 0 && DaysBeforeMonth(y, 2) == 31;
    assert DaysBeforeMonth(y, 3) == 59 + leap;
    assert DaysBeforeMonth(y, 4) == 90 + leap;
    assert DaysBeforeMonth(y, 5) == 120 + leap;
    assert DaysBeforeMonth(y, 6) == 151 + leap;
    assert DaysBeforeMonth(y, 7) == 181 + leap;
    assert DaysBeforeMonth(y, 8) == 212 + leap;
    assert DaysBeforeMonth(y, 9) == 243 + leap;
    assert DaysBeforeMonth(y, 10) == 273 + leap;
    assert DaysBeforeMonth(y, 11) == 304 + leap;
    assert DaysBeforeMonth(y, 12) == 334 + leap;
  }

  lemma {:induction false} MonthsMonotone(y: int, m: int, n: int)
    requires 1 <= m <= n <= 13
    ensures DaysBeforeMonth(y, m) + 28 * (n - m) <= DaysBeforeMonth(y, n)
    decreases n
  {
    if m < n {
      MonthsMonotone(y, m, n - 1);
    }
  }

  lemma YearOfUnique(day: int, y: int)
    requires YearStart(y) <= day < YearStart(y + 1)
    ensures YearOf(day) == y
  {
    if YearOf(day) < y {
      YearStartMonotone(YearOf(day) + 1, y);
    } else if y < YearOf(day) {
      YearStartMonotone(y + 1, YearOf(day));
    }
  }

  // ---------- Dates and day numbers ----------

  lemma MonthFromFinds(y: int, offset: int, from: int, m: int)
    requires 1 <= from <= m <= 12 && DaysBeforeMonth(y, m) <= offset < DaysBeforeMonth(y, m + 1)
    ensures MonthFrom(y, offset, from) == m
    decreases 12 - from
  {
    if from < m {
      MonthsMonotone(y, from + 1, m);
      MonthFromFinds(y, offset, from + 1, m);
    }
  }

  /** A day inside a month reads back as that year and month. */
  lemma InMonth(y: int, m: int, day: int)
    requires 1 <= m <= 12 && MonthStart(y, m) <= day < MonthStart(y, m + 1)
    ensures YearOf(day) == y && MonthOf(day) == m && ValidDate(y, m, DayOf(day))
    ensures DayNumber(y, m, DayOf(day)) == day
  {
    MonthTable(y);
    MonthsMonotone(y, 1, m);
    MonthsMonotone(y, m + 1, 13);
    YearStartStep(y);
    YearOfUnique(day, y);
    MonthFromFinds(y, day - YearStart(y), 1, m);
  }

  /** Building a day number and reading it back are inverse. */
  lemma DateRoundTrip(y: int, m: int, d: int)
    requires ValidDate(y, m, d)
    ensures YearOf(DayNumber(y, m, d)) == y && MonthOf(DayNumber(y, m, d)) == m && DayOf(DayNumber(y, m, d)) == d
  {
    MonthTable(y);
    InMonth(y, m, DayNumber(y, m, d));
  }

  lemma YearIsFull(y: int)
    ensures DaysBeforeMonth(y, 13) == YearLength(y)
  {
    MonthTable(y);
  }

  lemma {:induction false} MonthFromBrackets(y: int, offset: int, from: int)
    requires 1 <= from <= 12 && DaysBeforeMonth(y, from) <= offset < YearLength(y)
    ensures var m := MonthFrom(y, offset, from);
            DaysBeforeMonth(y, m) <= offset < DaysBeforeMonth(y, m + 1)
    decreases 12 - from
  {
    if from == 12 {
      YearIsFull(y);
    } else if offset >= DaysBeforeMonth(y, from + 1) {
      MonthFromBrackets(y, offset, from + 1);
    }
  }

  /** Every day number is a valid date. */
  lemma DayRoundTrip(day: int)
    ensures ValidDate(YearOf(day), MonthOf(day), DayOf(day))
    ensures DayNumber(YearOf(day), MonthOf(day), DayOf(day)) == day
  {
    var y := YearOf(day);
    YearStartStep(y);
    MonthFromBrackets(y, day - YearStart(y), 1);
    InMonth(y, MonthOf(day), day);
  }

  // ---------- Closed formulas ----------

  /** The years from 1 to `n` that have a 29 February. */
  function LeapsThrough(n: int): int {
    n / 4 - n / 100 + n / 400
  }

  lemma LeapsStep(n: int)
    ensures LeapsThrough(n) == LeapsThrough(n - 1) + if Leap(n) then 1 else 0
  {
    FloorStep(n, 4);
    FloorStep(n, 100);
    FloorStep(n, 400);
    Multiples(n);
  }

  lemma Multiples(n: int)
    ensures n % 400 == 0 ==> n % 100 == 0
    ensures n % 100 == 0 ==> n % 4 == 0
  {
    if n % 100 == 0 {
      MultipleOf(25 * (n / 100), 4);
    }
    if n % 400 == 0 {
      MultipleOf(4 * (n / 400), 100);
    }
  }

  lemma MultipleOf(q: int, k: int)
    requires k == 4 || k == 100
    ensures (q * k) % k == 0
  {
  }

  lemma FloorStep(n: int, k: int)
    requires k == 4 || k == 100 || k == 400
    ensures n / k == (n - 1) / k + if n % k == 0 then 1 else 0
  {
  }

  lemma {:induction false} YearStartClosed(y: int)
    ensures YearStart(y) == 365 * (y - 1) + LeapsThrough(y - 1) - 719162
    decreases if y < EPOCH_YEAR then EPOCH_YEAR - y else y - EPOCH_YEAR
  {
    if y > EPOCH_YEAR {
      YearStartClosed(y - 1);
      LeapsStep(y - 1);
    } else if y < EPOCH_YEAR {
      YearStartClosed(y + 1);
      LeapsStep(y);
    }
  }

  /** The year that a date belongs to when years begin in March. */
  function MarchYear(y: int, m: int): int {
    if m < 3 then y - 1 else y
  }

  /** Days from 1 March to the first of each month, January and February being those of the next year. */
  const DAYS_SINCE_MARCH := [306, 337, 0, 31, 61, 92, 122, 153, 184, 214, 245, 275]

  lemma MonthClosed(y: int, m: int)
    requires 1 <= m <= 12
    ensures DaysBeforeMonth(y, m) == DAYS_SINCE_MARCH[m - 1] + (if m < 3 then -306 else 59 + if Leap(y) then 1 else 0)
  {
    MonthTable(y);
  }

  /** Day numbers without any loop: the date `y`-`m`-`d` counted from 1 January 1970. */
  lemma CivilDay(y: int, m: int, d: int)
    requires 1 <= m <= 12
    ensures DayNumber(y, m, d)
         == 365 * MarchYear(y, m) + LeapsThrough(MarchYear(y, m)) + DAYS_SINCE_MARCH[m - 1] + d - 719469
  {
    YearStartClosed(y);
    LeapsStep(y);
    MonthClosed(y, m);
  }

  /** The days by which each month shifts the weekday. */
  const WEEKDAY_SHIFT := [0, 3, 2, 5, 0, 3, 5, 1, 4, 6, 2, 4]

  lemma ShiftOfMonth(m: int)
    requires 1 <= m <= 12
    ensures (DAYS_SINCE_MARCH[m - 1] - WEEKDAY_SHIFT[m - 1] + 2) % 7 == 0
  {
  }

  lemma SameWeekday(a: int, b: int, weeks: int)
    requires a == b + 7 * weeks
    ensures a % 7 == b % 7
  {
  }

  /** The weekday of a date by its year, leap days, month and day alone; Sunday is zero. */
  lemma CivilWeekday(y: int, m: int, d: int)
    requires 1 <= m <= 12
    ensures Weekday(DayNumber(y, m, d))
         == (MarchYear(y, m) + LeapsThrough(MarchYear(y, m)) + WEEKDAY_SHIFT[m - 1] + d) % 7
  {
    var z := MarchYear(y, m);
    CivilDay(y, m, d);
    ShiftOfMonth(m);
    SameWeekday(DayNumber(y, m, d) + 4, z + LeapsThrough(z) + WEEKDAY_SHIFT[m - 1] + d,
                52 * z + (DAYS_SINCE_MARCH[m - 1] - WEEKDAY_SHIFT[m - 1] + 2) / 7 - 102781);
  }

  /** Month lengths are the distances between first days, and the months of a year fill it. */
  lemma CivilMonth(y: int, m: int)
    requires 1 <= m <= 12
    ensures DaysInMonth(y, m)
         == (if m == 12 then DayNumber(y + 1, 1, 1) else DayNumber(y, m + 1, 1)) - DayNumber(y, m, 1)
  {
    MonthTable(y);
    YearStartStep(y);
  }

  // ---------- The calendar misses no date and weekday combination ----------

  /** Four years without a skipped leap day shift every date by 1461 days. */
  lemma FourYearsOn(y: int, m: int, d: int)
    requires y % 4 == 0 && y % 100 != 0 && (y + 4) % 100 != 0 && 1 <= m <= 12
    ensures DayNumber(y + 4, m, d) == DayNumber(y, m, d) + 1461
  {
    YearStartStep(y);
    YearStartStep(y + 1);
    YearStartStep(y + 2);
    YearStartStep(y + 3);
    SameMonths(y, y + 4, m);
  }

  lemma {:induction false} SameMonths(y: int, z: int, m: int)
    requires 1 <= m <= 13 && Leap(y) == Leap(z)
    ensures DaysBeforeMonth(y, m) == DaysBeforeMonth(z, m)
  {
    if m > 1 {
      SameMonths(y, z, m - 1);
    }
  }

  lemma {:induction false} LeapSteps(c: int, m: int, d: int, k: int)
    requires c % 100 == 0 && 1 <= k <= 7 && 1 <= m <= 12
    ensures DayNumber(c + 4 * k, m, d) == DayNumber(c + 4, m, d) + 1461 * (k - 1)
    ensures Leap(c + 4 * k)
    decreases k
  {
    if k > 1 {
      LeapSteps(c, m, d, k - 1);
      FourYearsOn(c + 4 * (k - 1), m, d);
    }
  }

  /** Every date that exists at all falls on every weekday within 128 years. */
  lemma EveryWeekdayComes(after: int, m: int, d: int, w: int) returns (y: int)
    requires 1 <= m <= 12 && 1 <= d <= LongestMonth(m) && 0 <= w < 7
    ensures after < y <= after + 128
    ensures ValidDate(y, m, d) && Weekday(DayNumber(y, m, d)) == w
  {
    var c := after + (if after % 100 == 0 then 0 else 100 - after % 100);
    var start := Weekday(DayNumber(c + 4, m, d));
    var k := 1 + (3 * (w - start)) % 7;  // 1461 is 5 modulo 7, and 5 * 3 is 1
    LeapSteps(c, m, d, k);
    y := c + 4 * k;
    WeekdayAfter(DayNumber(c + 4, m, d), k - 1, w);
  }

  lemma WeekdayAfter(day: int, n: int, w: int)
    requires 0 <= w < 7 && n == (3 * (w - Weekday(day))) % 7
    ensures Weekday(day + 1461 * n) == w
  {
  }
}
