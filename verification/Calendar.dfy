/**
 The proleptic Gregorian calendar in UTC, at minute resolution: civil time, its order, the
 weekday, and the jumps of the cron search.
 */
module Calendar {

  datatype Minute = Minute(year: int, month: int, day: int, hour: int, minute: int)

  predicate Leap(y: int) { y % 4 == 0 && (y % 100 != 0 || y % 400 == 0) }

  function DaysIn(y: int, m: int): (n: int)
    ensures 28 <= n <= 31
  {
    if m == 2 then (if Leap(y) then 29 else 28)
    else if m == 4 || m == 6 || m == 9 || m == 11 then 30
    else 31
  }

  predicate Valid(t: Minute) {
    && 1 <= t.month <= 12 && 1 <= t.day <= DaysIn(t.year, t.month)
    && 0 <= t.hour <= 23 && 0 <= t.minute <= 59
  }

  predicate Before(a: Minute, b: Minute) {
    if a.year != b.year then a.year < b.year
    else if a.month != b.month then a.month < b.month
    else if a.day != b.day then a.day < b.day
    else if a.hour != b.hour then a.hour < b.hour
    else a.minute < b.minute
  }

  // ---------- jumps ----------

  function NextMonth(t: Minute): Minute {
    if t.month == 12 then Minute(t.year + 1, 1, 1, 0, 0) else Minute(t.year, t.month + 1, 1, 0, 0)
  }

  function NextDay(t: Minute): Minute {
    if t.day == DaysIn(t.year, t.month) then NextMonth(t) else Minute(t.year, t.month, t.day + 1, 0, 0)
  }

  function NextHour(t: Minute): Minute {
    if t.hour == 23 then NextDay(t) else Minute(t.year, t.month, t.day, t.hour + 1, 0)
  }

  function NextMinute(t: Minute): Minute {
    if t.minute == 59 then NextHour(t) else t.(minute := t.minute + 1)
  }

  /** Each jump moves forward, and what it skips agrees with t on the fields it leaves alone. */
  lemma Jumps(t: Minute)
    requires Valid(t)
    ensures Valid(NextMonth(t)) && Valid(NextDay(t)) && Valid(NextHour(t)) && Valid(NextMinute(t))
    ensures Before(t, NextMonth(t)) && Before(t, NextDay(t)) && Before(t, NextHour(t)) && Before(t, NextMinute(t))
  {
  }

  lemma SkippedByMonth(t: Minute, c: Minute)
    requires Valid(t) && Valid(c) && !Before(c, t) && Before(c, NextMonth(t))
    ensures c.year == t.year && c.month == t.month
  {
  }

  lemma SkippedByDay(t: Minute, c: Minute)
    requires Valid(t) && Valid(c) && !Before(c, t) && Before(c, NextDay(t))
    ensures c.year == t.year && c.month == t.month && c.day == t.day
  {
  }

  lemma SkippedByHour(t: Minute, c: Minute)
    requires Valid(t) && Valid(c) && !Before(c, t) && Before(c, NextHour(t))
    ensures c.year == t.year && c.month == t.month && c.day == t.day && c.hour == t.hour
  {
  }

  lemma SkippedByMinute(t: Minute, c: Minute)
    requires Valid(t) && Valid(c) && !Before(c, t) && Before(c, NextMinute(t))
    ensures c == t
  {
  }

  // ---------- day numbers and weekdays ----------

  function DaysBeforeYear(y: int): int { 365 * (y - 1) + (y - 1) / 4 - (y - 1) / 100 + (y - 1) / 400 }

  function DaysBeforeMonth(y: int, m: int): int
    requires 1 <= m <= 13
  {
    if m == 1 then 0 else DaysBeforeMonth(y, m - 1) + DaysIn(y, m - 1)
  }

  /** Day 1 is 1 January of year 1, a Monday. */
  function DayNumber(t: Minute): int
    requires 1 <= t.month <= 12
  {
    DaysBeforeYear(t.year) + DaysBeforeMonth(t.year, t.month) + t.day
  }

  /** Sunday is 0, as in Go. */
  function Weekday(t: Minute): int
    requires 1 <= t.month <= 12
  {
    DayNumber(t) % 7
  }

  lemma YearLength(y: int)
    ensures DaysBeforeYear(y + 1) - DaysBeforeYear(y) == if Leap(y) then 366 else 365
  {
    Multiples4(y);
    Multiples100(y);
    Multiples400(y);
    assert y % 400 == 0 ==> y % 100 == 0 && y % 4 == 0;
    assert y % 100 == 0 ==> y % 4 == 0;
  }

  lemma Multiples4(y: int)
    ensures y / 4 - (y - 1) / 4 == if y % 4 == 0 then 1 else 0
  {
  }

  lemma Multiples100(y: int)
    ensures y / 100 - (y - 1) / 100 == if y % 100 == 0 then 1 else 0
  {
  }

  lemma Multiples400(y: int)
    ensures y / 400 - (y - 1) / 400 == if y % 400 == 0 then 1 else 0
  {
  }

  lemma YearMonths(y: int)
    ensures DaysBeforeMonth(y, 13) == if Leap(y) then 366 else 365
  {
    assert DaysBeforeMonth(y, 2) == 31;
    var february := if Leap(y) then 29 else 28;
    assert DaysBeforeMonth(y, 3) == 31 + february;
    assert DaysBeforeMonth(y, 4) == 62 + february;
    assert DaysBeforeMonth(y, 5) == 92 + february;
    assert DaysBeforeMonth(y, 6) == 123 + february;
    assert DaysBeforeMonth(y, 7) == 153 + february;
    assert DaysBeforeMonth(y, 8) == 184 + february;
    assert DaysBeforeMonth(y, 9) == 215 + february;
    assert DaysBeforeMonth(y, 10) == 245 + february;
    assert DaysBeforeMonth(y, 11) == 276 + february;
    assert DaysBeforeMonth(y, 12) == 306 + february;
  }

  /** Consecutive days have consecutive numbers, so weekdays cycle. */
  lemma DayNumbersConsecutive(t: Minute)
    requires Valid(t)
    ensures DayNumber(NextDay(t)) == DayNumber(t) + 1
    ensures Weekday(NextDay(t)) == (Weekday(t) + 1) % 7
  {
    NextDayNumber(t);
    assert Weekday(NextDay(t)) == (DayNumber(t) + 1) % 7;
  }

  lemma NextDayNumber(t: Minute)
    requires Valid(t)
    ensures DayNumber(NextDay(t)) == DayNumber(t) + 1
  {
    var days := DaysIn(t.year, t.month);
    if t.day == days && t.month == 12 {
      YearLength(t.year);
      YearMonths(t.year);
    } else if t.day == days {
      assert DaysBeforeMonth(t.year, t.month + 1) == DaysBeforeMonth(t.year, t.month) + days;
    }
  }

  /** Minutes since the start of day 0. */
  function Stamp(t: Minute): int
    requires 1 <= t.month <= 12
  {
    (DayNumber(t) * 24 + t.hour) * 60 + t.minute
  }

  /** One minute later is one more on the minute count. */
  lemma StampsConsecutive(t: Minute)
    requires Valid(t)
    ensures Valid(NextMinute(t)) && Stamp(NextMinute(t)) == Stamp(t) + 1
  {
    Jumps(t);
    DayNumbersConsecutive(t);
  }

  // ---------- the civil calendar, counted from March ----------

  /** The number of a civil date by the rule that starts the year in March, so that the leap day comes
      last and month lengths follow (153 k + 2) / 5. It names neither month lengths nor leap years. */
  function CivilDay(y: int, m: int, d: int): int {
    var a := if m <= 2 then y - 1 else y;
    365 * a + a / 4 - a / 100 + a / 400 + (153 * ((m + 9) % 12) + 2) / 5 + d - 306
  }

  lemma {:induction false} MonthStarts(y: int, m: int)
    requires 1 <= m <= 12
    ensures DaysBeforeMonth(y, m) ==
            if m <= 2 then 31 * (m - 1) else (153 * (m - 3) + 2) / 5 + 59 + if Leap(y) then 1 else 0
    decreases m
  {
    if m > 1 { MonthStarts(y, m - 1); }
  }

  /** Every date has the number, and so the weekday, that rule gives it. */
  lemma DayNumberIsCivil(t: Minute)
    requires 1 <= t.month <= 12
    ensures DayNumber(t) == CivilDay(t.year, t.month, t.day)
    ensures Weekday(t) == CivilDay(t.year, t.month, t.day) % 7
  {
    MonthStarts(t.year, t.month);
    YearLength(t.year);
  }

  /** The rule's month lengths are the ones that bound a valid day. */
  lemma DaysInIsCivil(y: int, m: int)
    requires 1 <= m <= 12
    ensures DaysIn(y, m) == (if m == 12 then CivilDay(y + 1, 1, 1) else CivilDay(y, m + 1, 1)) - CivilDay(y, m, 1)
  {
    var first := Minute(y, m, 1, 0, 0);
    DayNumberIsCivil(first);
    DayNumberIsCivil(NextMonth(first));
    YearLength(y);
    YearMonths(y);
  }

  /** The anchors: 1 January 1970 was a Thursday and 1 January 2024 a Monday, with Sunday as 0. */
  lemma WeekdayAnchored()
    ensures Weekday(Minute(1970, 1, 1, 0, 0)) == 4 && Weekday(Minute(2024, 1, 1, 0, 0)) == 1
  {
    DayNumberIsCivil(Minute(1970, 1, 1, 0, 0));
    DayNumberIsCivil(Minute(2024, 1, 1, 0, 0));
  }

  // ---------- order ----------

  lemma {:induction false} YearsGrow(y: int, z: int)
    requires y < z
    ensures DaysBeforeYear(y + 1) <= DaysBeforeYear(z)
    decreases z - y
  {
    if y + 1 < z {
      YearLength(z - 1);
      YearsGrow(y, z - 1);
    }
  }

  lemma {:induction false} MonthsGrow(y: int, m: int, k: int)
    requires 1 <= m < k <= 13
    ensures DaysBeforeMonth(y, m) + DaysIn(y, m) <= DaysBeforeMonth(y, k)
    decreases k - m
  {
    if m + 1 < k { MonthsGrow(y, m, k - 1); }
  }

  lemma DatesGrow(a: Minute, b: Minute)
    requires Valid(a) && Valid(b)
    requires a.year < b.year || (a.year == b.year && (a.month < b.month || (a.month == b.month && a.day < b.day)))
    ensures DayNumber(a) < DayNumber(b)
  {
    if a.year < b.year {
      MonthsGrow(a.year, a.month, 13);
      YearMonths(a.year);
      YearLength(a.year);
      YearsGrow(a.year, b.year);
      if b.month > 1 { MonthsGrow(b.year, 1, b.month); }
    } else if a.month < b.month {
      MonthsGrow(a.year, a.month, b.month);
    }
  }

  lemma BeforeGrows(a: Minute, b: Minute)
    requires Valid(a) && Valid(b) && Before(a, b)
    ensures Stamp(a) < Stamp(b)
  {
    if a.year != b.year || a.month != b.month || a.day != b.day { DatesGrow(a, b); }
  }

  /** The order of civil fields is the order of the minute counts. */
  lemma BeforeIsEarlier(a: Minute, b: Minute)
    requires Valid(a) && Valid(b)
    ensures Before(a, b) <==> Stamp(a) < Stamp(b)
  {
    if Before(a, b) { BeforeGrows(a, b); } else if a != b { BeforeGrows(b, a); }
  }
}
