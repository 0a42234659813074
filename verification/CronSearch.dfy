/**
 Cron expressions and the search for the next matching minute. The linear scan says what the
 answer is; the jumping search must give the same answer.
 */
module CronSearch {
  import opened Collections
  import opened Calendar

  /** A mask is the set of its set bits. */
  datatype Expr = Expr(
    minute: set<int>, hour: set<int>, dom: set<int>, month: set<int>, dow: set<int>,
    domStar: bool, dowStar: bool)

  predicate DayMatches(e: Expr, t: Minute)
    requires Valid(t)
  {
    if e.domStar && e.dowStar then true
    else if e.domStar then Weekday(t) in e.dow
    else if e.dowStar then t.day in e.dom
    else t.day in e.dom || Weekday(t) in e.dow
  }

  predicate Matches(e: Expr, t: Minute) {
    Valid(t) && t.month in e.month && DayMatches(e, t) && t.hour in e.hour && t.minute in e.minute
  }

  /** A minute matches when its month, hour and minute do and one of the restricted day fields does, or
      neither is restricted; the weekday is the civil day number modulo 7, Sunday 0. */
  lemma MatchesCivil(e: Expr, t: Minute)
    ensures Matches(e, t) <==>
            && Valid(t) && t.month in e.month && t.hour in e.hour && t.minute in e.minute
            && (|| (e.domStar && e.dowStar)
                || (!e.domStar && t.day in e.dom)
                || (!e.dowStar && CivilDay(t.year, t.month, t.day) % 7 in e.dow))
  {
    if 1 <= t.month <= 12 { DayNumberIsCivil(t); }
  }

  // ---------- the answer: scan minute by minute ----------

  function Scan(e: Expr, t: Minute, lastYear: int): (r: Option<Minute>)
    requires Valid(t)
    ensures r.Some? ==> Matches(e, r.value) && !Before(r.value, t) && r.value.year <= lastYear
    decreases lastYear - t.year, 12 - t.month, 31 - t.day, 23 - t.hour, 59 - t.minute
  {
    if t.year > lastYear then None
    else if Matches(e, t) then Some(t)
    else
      Jumps(t);
      Scan(e, NextMinute(t), lastYear)
  }

  function LastYear(after: Minute): int { NextMinute(after).year + 5 }

  /** The first matching minute strictly after the given one, through the end of the fifth year
      after the year the search starts in. */
  function NextMatch(e: Expr, after: Minute): Option<Minute>
    requires Valid(after)
  {
    Jumps(after);
    Scan(e, NextMinute(after), LastYear(after))
  }

  ghost predicate NoMatchFrom(e: Expr, from: Minute, to: Minute) {
    forall c :: Matches(e, c) && !Before(c, from) ==> !Before(c, to)
  }

  /** The scan misses nothing: below its result, or through its last year, nothing matches. */
  lemma {:induction false} ScanLeast(e: Expr, t: Minute, lastYear: int, c: Minute)
    requires Valid(t) && Matches(e, c) && !Before(c, t) && c.year <= lastYear
    ensures var r := Scan(e, t, lastYear); r.Some? && !Before(c, r.value)
    decreases lastYear - t.year, 12 - t.month, 31 - t.day, 23 - t.hour, 59 - t.minute
  {
    if !Matches(e, t) {
      Jumps(t);
      if Before(c, NextMinute(t)) { SkippedByMinute(t, c); }
      ScanLeast(e, NextMinute(t), lastYear, c);
    }
  }

  /** The scan result is determined by being a match with nothing before it. */
  lemma ScanUnique(e: Expr, t: Minute, lastYear: int, c: Minute)
    requires Valid(t) && Matches(e, c) && !Before(c, t) && c.year <= lastYear && NoMatchFrom(e, t, c)
    ensures Scan(e, t, lastYear) == Some(c)
  {
    ScanLeast(e, t, lastYear, c);
    var r := Scan(e, t, lastYear).value;
    assert !Before(r, c);
  }

  lemma ScanNone(e: Expr, t: Minute, lastYear: int)
    requires Valid(t) && forall c :: Matches(e, c) && !Before(c, t) ==> c.year > lastYear
    ensures Scan(e, t, lastYear) == None
  {
  }

  // ---------- the jumping search ----------

  /** Where the search goes from a minute that does not match. */
  function Jump(e: Expr, t: Minute): (j: Minute)
    requires Valid(t)
    ensures Valid(j) && Before(t, j)
  {
    Jumps(t);
    if t.month !in e.month then NextMonth(t)
    else if !DayMatches(e, t) then NextDay(t)
    else if t.hour !in e.hour then NextHour(t)
    else NextMinute(t)
  }

  lemma WeekdayOfDate(a: Minute, b: Minute)
    requires Valid(a) && Valid(b) && a.year == b.year && a.month == b.month && a.day == b.day
    ensures Weekday(a) == Weekday(b)
  {
  }

  /** No jump passes over a match. */
  lemma JumpSkipsNoMatch(e: Expr, t: Minute, c: Minute)
    requires Valid(t) && !Matches(e, t) && Matches(e, c) && !Before(c, t)
    ensures !Before(c, Jump(e, t))
  {
    if Before(c, Jump(e, t)) {
      if t.month !in e.month {
        SkippedByMonth(t, c);
      } else if !DayMatches(e, t) {
        SkippedByDay(t, c);
        WeekdayOfDate(t, c);
      } else if t.hour !in e.hour {
        SkippedByHour(t, c);
      } else {
        SkippedByMinute(t, c);
      }
    }
  }

  lemma JumpKeepsScan(e: Expr, from: Minute, t: Minute)
    requires Valid(t) && !Matches(e, t) && NoMatchFrom(e, from, t)
    ensures NoMatchFrom(e, from, Jump(e, t))
  {
    forall c | Matches(e, c) && !Before(c, from) ensures !Before(c, Jump(e, t)) {
      JumpSkipsNoMatch(e, t, c);
    }
  }

  lemma JumpDecreases(e: Expr, t: Minute)
    requires Valid(t)
    ensures var j := Jump(e, t);
            t.year < j.year || (t.year == j.year && (t.month < j.month || (t.month == j.month &&
              (t.day < j.day || (t.day == j.day && (t.hour < j.hour || (t.hour == j.hour && t.minute < j.minute)))))))
  {
  }

  method Next(e: Expr, after: Minute) returns (found: Option<Minute>)
    requires Valid(after)
    ensures found == NextMatch(e, after)
  {
    Jumps(after);
    var t := NextMinute(after);
    ghost var from := t;
    var yearLimit := t.year + 5;
    while t.year <= yearLimit
      invariant Valid(t) && !Before(t, from)
      invariant NoMatchFrom(e, from, t)
      decreases yearLimit - t.year, 12 - t.month, 31 - t.day, 23 - t.hour, 59 - t.minute
    {
      if Matches(e, t) { ScanUnique(e, from, yearLimit, t); } else { JumpKeepsScan(e, from, t); JumpDecreases(e, t); }
      if t.month !in e.month {
        t := NextMonth(t);
        continue;
      }
      if !DayMatches(e, t) {
        t := NextDay(t);
        continue;
      }
      if t.hour !in e.hour {
        t := NextHour(t);
        continue;
      }
      if t.minute !in e.minute {
        t := NextMinute(t);
        continue;
      }
      return Some(t);
    }
    ScanNone(e, from, yearLimit);
    return None;
  }

  // ---------- what the answer means ----------

  /** Some(t) exactly when t is the least match strictly after the argument and lies within the
      horizon; None exactly when the horizon holds no match. */
  lemma NextMatchIsLeast(e: Expr, after: Minute, t: Minute)
    requires Valid(after)
    ensures NextMatch(e, after) == Some(t) <==>
            && Matches(e, t) && Before(after, t) && t.year <= NextMinute(after).year + 5
            && forall c :: Matches(e, c) && Before(after, c) ==> !Before(c, t)
    ensures NextMatch(e, after) == None <==>
              forall c :: Matches(e, c) && Before(after, c) ==> c.year > NextMinute(after).year + 5
  {
    Jumps(after);
    var from, last := NextMinute(after), LastYear(after);
    forall c | Matches(e, c) ensures Before(after, c) <==> !Before(c, from) {
      if Before(after, c) && Before(c, from) { SkippedByMinute(after, c); }
    }
    forall c | Matches(e, c) && Before(after, c) && c.year <= last
      ensures Scan(e, from, last).Some? && !Before(c, Scan(e, from, last).value)
    {
      ScanLeast(e, from, last, c);
    }
  }
}
