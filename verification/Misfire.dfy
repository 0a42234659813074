/**
 What a due recurring schedule fires and where it resumes. Instants carry the time inside the
 minute, because now and a stored next run need not fall on a minute.
 */
module Misfire {
  import opened Calendar
  import opened CronSearch

  /** A UTC instant: its minute and the nanoseconds since that minute began. */
  datatype Instant = Instant(at: Minute, ns: nat)

  datatype Policy = Skip | FireOnce | Backfill

  datatype Plan = Plan(fires: seq<Instant>, newNext: Instant)

  predicate Proper(t: Instant) { Valid(t.at) && t.ns < 60_000_000_000 }

  predicate After(a: Instant, b: Instant) { Before(b.at, a.at) || (a.at == b.at && a.ns > b.ns) }

  function Sharp(t: Minute): Instant { Instant(t, 0) }

  function MinuteLater(t: Instant): Instant { t.(at := NextMinute(t.at)) }

  /** Nanoseconds from a to b. */
  function Elapsed(a: Instant, b: Instant): int
    requires Proper(a) && Proper(b)
  {
    (Stamp(b.at) - Stamp(a.at)) * 60_000_000_000 + b.ns - a.ns
  }

  // ---------- the plan as a function ----------

  function BackfillPlan(e: Expr, cur: Instant, now: Instant, cap: nat): (p: Plan)
    requires Proper(cur) && cap >= 1
    ensures Proper(p.newNext)
    decreases cap
  {
    if After(cur, now) then Plan([], cur)
    else match NextMatch(e, cur.at)
      case None => Jumps(cur.at); Plan([cur], MinuteLater(cur))
      case Some(n) =>
        if cap == 1 then Plan([cur], Sharp(n))
        else var rest := BackfillPlan(e, Sharp(n), now, cap - 1); Plan([cur] + rest.fires, rest.newNext)
  }

  function Advance(e: Expr, cur: Instant, now: Instant, steps: nat): (next: Instant)
    requires Proper(cur) && Proper(now)
    ensures Proper(next)
    decreases steps
  {
    if steps == 0 then Jumps(now.at); MinuteLater(now)
    else match NextMatch(e, cur.at)
      case None => Jumps(cur.at); MinuteLater(cur)
      case Some(n) => if After(Sharp(n), now) then Sharp(n) else Advance(e, Sharp(n), now, steps - 1)
  }

  const StepLimit: nat := 1_000_000

  function PlanFor(policy: Policy, e: Expr, next: Instant, now: Instant, grace: int, maxBackfill: int): Plan
    requires Proper(next) && Proper(now)
  {
    match policy
    case Backfill => BackfillPlan(e, next, now, if maxBackfill < 1 then 1 else maxBackfill)
    case Skip => Plan(if Elapsed(next, now) <= grace then [next] else [], Advance(e, next, now, StepLimit))
    case FireOnce => Plan([next], Advance(e, next, now, StepLimit))
  }

  // ---------- the planner ----------

  method AdvancePast(e: Expr, from: Instant, now: Instant) returns (next: Instant)
    requires Proper(from) && Proper(now)
    ensures next == Advance(e, from, now, StepLimit)
  {
    var cur, limit := from, StepLimit;
    for i := 0 to limit
      invariant Proper(cur)
      invariant Advance(e, from, now, limit) == Advance(e, cur, now, limit - i)
    {
      var found := Next(e, cur.at);
      if found.None? { return MinuteLater(cur); }
      cur := Sharp(found.value);
      if After(cur, now) { return cur; }
    }
    return MinuteLater(now);
  }

  function Prepend(fires: seq<Instant>, p: Plan): Plan { Plan(fires + p.fires, p.newNext) }

  lemma PrependNext(fires: seq<Instant>, cur: Instant, rest: Plan)
    ensures Prepend(fires, Prepend([cur], rest)) == Prepend(fires + [cur], rest)
  {
    assert fires + ([cur] + rest.fires) == fires + [cur] + rest.fires;
  }

  /** One turn of the loop, by what the search finds. */
  lemma BackfillTurn(e: Expr, cur: Instant, now: Instant, cap: nat)
    requires Proper(cur) && cap >= 1 && !After(cur, now)
    ensures var p := BackfillPlan(e, cur, now, cap);
            match NextMatch(e, cur.at)
            case None => p == Plan([cur], MinuteLater(cur))
            case Some(n) =>
              p == if cap == 1 then Plan([cur], Sharp(n)) else Prepend([cur], BackfillPlan(e, Sharp(n), now, cap - 1))
  {
  }

  method BackfillFires(e: Expr, next: Instant, now: Instant, cap: nat) returns (plan: Plan)
    requires Proper(next) && cap >= 1
    ensures plan == BackfillPlan(e, next, now, cap)
  {
    var fires: seq<Instant>, cur := [], next;
    ghost var whole := BackfillPlan(e, next, now, cap);
    while !After(cur, now)
      invariant Proper(cur) && |fires| < cap && whole == Prepend(fires, BackfillPlan(e, cur, now, cap - |fires|))
      decreases cap - |fires|
    {
      BackfillTurn(e, cur, now, cap - |fires|);
      var found := Next(e, cur.at);
      if found.None? { return Plan(fires + [cur], MinuteLater(cur)); }
      var n := Sharp(found.value);
      if |fires| + 1 < cap { PrependNext(fires, cur, BackfillPlan(e, n, now, cap - |fires| - 1)); }
      fires, cur := fires + [cur], n;
      if |fires| >= cap { return Plan(fires, cur); }
    }
    return Plan(fires, cur);
  }

  method PlanFires(policy: Policy, e: Expr, next: Instant, now: Instant, grace: int, maxBackfill: int)
    returns (plan: Plan)
    requires Proper(next) && Proper(now)
    ensures plan == PlanFor(policy, e, next, now, grace, maxBackfill)
  {
    match policy {
      case Backfill =>
        plan := BackfillFires(e, next, now, if maxBackfill < 1 then 1 else maxBackfill);
      case Skip =>
        var resume := AdvancePast(e, next, now);
        plan := Plan(if Elapsed(next, now) <= grace then [next] else [], resume);
      case FireOnce =>
        var resume := AdvancePast(e, next, now);
        plan := Plan([next], resume);
    }
  }

  // ---------- expressions that never run dry ----------

  /** The search succeeds from every minute. */
  ghost predicate Endless(e: Expr) { forall t :: Valid(t) ==> NextMatch(e, t).Some? }

  /** Some month, hour and minute are allowed, and in that month some date other than 29 February
      or some weekday. */
  ghost predicate Yearly(e: Expr) {
    && (exists n :: 0 <= n <= 59 && n in e.minute)
    && (exists h :: 0 <= h <= 23 && h in e.hour)
    && (exists m :: 1 <= m <= 12 && m in e.month && MonthAllows(e, m))
  }

  ghost predicate MonthAllows(e: Expr, m: int) {
    || (e.domStar && e.dowStar)
    || (!e.dowStar && AnyWeekday(e))
    || (!e.domStar && exists d :: 1 <= d <= DaysIn(1, m) && d in e.dom)
  }

  ghost predicate AnyWeekday(e: Expr) { exists w :: 0 <= w <= 6 && w in e.dow }

  /** The first week of every month has every weekday. */
  lemma WeekdayInWeek(y: int, m: int, w: int) returns (d: int)
    requires 1 <= m <= 12 && 0 <= w <= 6
    ensures 1 <= d <= 7 && Weekday(Minute(y, m, d, 0, 0)) == w
  {
    var k := DaysBeforeYear(y) + DaysBeforeMonth(y, m);
    d := 1 + (w - k - 1) % 7;
    assert DayNumber(Minute(y, m, d, 0, 0)) == k + d;
    assert k + d == w + 7 * -((w - k - 1) / 7);
  }

  lemma YearHasMatch(e: Expr, y: int) returns (c: Minute)
    requires Yearly(e)
    ensures Matches(e, c) && c.year == y
  {
    var n :| 0 <= n <= 59 && n in e.minute;
    var h :| 0 <= h <= 23 && h in e.hour;
    var m :| 1 <= m <= 12 && m in e.month && MonthAllows(e, m);
    var d := 1;
    if !e.dowStar && AnyWeekday(e) {
      var w :| 0 <= w <= 6 && w in e.dow;
      d := WeekdayInWeek(y, m, w);
      WeekdayOfDate(Minute(y, m, d, 0, 0), Minute(y, m, d, h, n));
    } else if !e.domStar {
      d :| 1 <= d <= DaysIn(1, m) && d in e.dom;
    }
    c := Minute(y, m, d, h, n);
  }

  lemma YearlySucceeds(e: Expr, t: Minute)
    requires Yearly(e) && Valid(t)
    ensures NextMatch(e, t).Some?
  {
    var c := YearHasMatch(e, t.year + 1);
    NextMatchIsLeast(e, t, c);
  }

  /** Without such a date only 29 February can match. */
  lemma OnlyLeapDays(e: Expr, c: Minute)
    requires !Yearly(e) && Matches(e, c)
    ensures c.month == 2 && c.day == 29
  {
    assert 0 <= c.minute <= 59 && c.minute in e.minute;
    assert 0 <= c.hour <= 23 && c.hour in e.hour;
    assert 1 <= c.month <= 12 && c.month in e.month;
    assert 0 <= Weekday(c) <= 6;
    assert !MonthAllows(e, c.month);
  }

  /** The search always succeeds exactly for the expressions with a date in every year: after the
      leap day of 2096 the next one is eight years away, beyond the horizon. */
  lemma EndlessIffYearly(e: Expr)
    ensures Endless(e) <==> Yearly(e)
  {
    if Yearly(e) {
      forall t | Valid(t) ensures NextMatch(e, t).Some? {
        YearlySucceeds(e, t);
      }
    } else {
      var t := Minute(2096, 3, 1, 0, 0);
      forall c | Matches(e, c) && Before(t, c) ensures c.year > 2101 { OnlyLeapDays(e, c); }
      NextMatchIsLeast(e, t, t);
    }
  }

  // ---------- what the plans mean ----------

  /** s lists, in order and once each, the matching minutes in [lo, hi). */
  ghost predicate Lists(e: Expr, s: seq<Minute>, lo: Minute, hi: Minute) {
    && (forall i, j :: 0 <= i < j < |s| ==> Before(s[i], s[j]))
    && (forall c :: c in s <==> Matches(e, c) && !Before(c, lo) && Before(c, hi))
  }

  lemma ListsJoin(e: Expr, a: seq<Minute>, b: seq<Minute>, lo: Minute, mid: Minute, hi: Minute)
    requires Lists(e, a, lo, mid) && Lists(e, b, mid, hi) && !Before(mid, lo) && !Before(hi, mid)
    ensures Lists(e, a + b, lo, hi)
  {
    var s := a + b;
    forall i, j | 0 <= i < j < |s| ensures Before(s[i], s[j]) {
      if i < |a| <= j {
        assert a[i] in a && b[j - |a|] in b;
      }
    }
    forall c ensures c in s <==> Matches(e, c) && !Before(c, lo) && Before(c, hi) {
      assert c in s <==> c in a || c in b;
    }
  }

  /** Between a match and the next one lies only the first. */
  lemma ListsOne(e: Expr, t: Minute, hi: Minute)
    requires Matches(e, t) && Before(t, hi)
    requires forall c :: Matches(e, c) && Before(t, c) ==> !Before(c, hi)
    ensures Lists(e, [t], t, hi)
  {
  }

  function Minutes(fires: seq<Instant>): seq<Minute> {
    if fires == [] then [] else [fires[0].at] + Minutes(fires[1..])
  }

  predicate AllSharp(fires: seq<Instant>) { forall f <- fires :: f.ns == 0 }

  /** The next run after a fired instant, found or not, has only that instant behind it. */
  function Following(e: Expr, t: Minute): Minute
    requires Valid(t)
  {
    match NextMatch(e, t) case None => NextMinute(t) case Some(n) => n
  }

  lemma FollowingListsOne(e: Expr, t: Minute)
    requires Matches(e, t)
    ensures Lists(e, [t], t, Following(e, t)) && Before(t, Following(e, t))
    ensures NextMatch(e, t).Some? ==> Matches(e, Following(e, t))
  {
    var n := Following(e, t);
    NextMatchIsLeast(e, t, n);
    Jumps(t);
    forall c | Matches(e, c) && Before(t, c) ensures !Before(c, n) {
      if NextMatch(e, t).None? && Before(c, n) { SkippedByMinute(t, c); }
    }
    ListsOne(e, t, n);
  }

  lemma BeforeTransitive(a: Minute, b: Minute, c: Minute)
    requires !Before(b, a) && !Before(c, b)
    ensures !Before(c, a)
  {
  }

  /** The fires are exactly the matches from lo up to the new next run. */
  ghost predicate Covers(e: Expr, lo: Minute, p: Plan) {
    && Lists(e, Minutes(p.fires), lo, p.newNext.at) && !Before(p.newNext.at, lo)
    && AllSharp(p.fires) && p.newNext.ns == 0
  }

  lemma CoversJoin(e: Expr, lo: Minute, a: Plan, b: Plan)
    requires Covers(e, lo, a) && Covers(e, a.newNext.at, b)
    ensures Covers(e, lo, Plan(a.fires + b.fires, b.newNext))
  {
    MinutesJoin(a.fires, b.fires);
    ListsJoin(e, Minutes(a.fires), Minutes(b.fires), lo, a.newNext.at, b.newNext.at);
    BeforeTransitive(lo, a.newNext.at, b.newNext.at);
  }

  lemma CoversNone(e: Expr, t: Minute)
    ensures Covers(e, t, Plan([], Sharp(t)))
  {
  }

  lemma CoversOne(e: Expr, t: Minute)
    requires Matches(e, t)
    ensures Covers(e, t, Plan([Sharp(t)], Sharp(Following(e, t))))
  {
    FollowingListsOne(e, t);
    assert Minutes([Sharp(t)]) == [t];
  }

  /** One backfill tick from a match, whatever the search finds, covers the time it moves over. */
  lemma {:induction false} BackfillTick(e: Expr, next: Minute, now: Instant, cap: nat)
    requires Matches(e, next) && cap >= 1
    ensures Covers(e, next, BackfillPlan(e, Sharp(next), now, cap))
    decreases cap
  {
    if After(Sharp(next), now) {
      CoversNone(e, next);
    } else {
      CoversOne(e, next);
      var first := Plan([Sharp(next)], Sharp(Following(e, next)));
      if cap > 1 && NextMatch(e, next).Some? {
        FollowingListsOne(e, next);
        BackfillTick(e, Following(e, next), now, cap - 1);
        CoversJoin(e, next, first, BackfillPlan(e, first.newNext, now, cap - 1));
      }
    }
  }

  /** A tick fires nothing after now and no more than its cap. */
  lemma {:induction false} BackfillTickBounded(e: Expr, cur: Instant, now: Instant, cap: nat)
    requires Proper(cur) && cap >= 1
    ensures var p := BackfillPlan(e, cur, now, cap); |p.fires| <= cap && forall f <- p.fires :: !After(f, now)
    decreases cap
  {
    if NextMatch(e, cur.at).Some? && cap > 1 {
      BackfillTickBounded(e, Sharp(NextMatch(e, cur.at).value), now, cap - 1);
    }
  }

  /** With a date in every year a tick resumes on a match, and one that stops short of its cap has
      passed now. */
  lemma {:induction false} BackfillTickResumes(e: Expr, next: Minute, now: Instant, cap: nat)
    requires Yearly(e) && Matches(e, next) && cap >= 1
    ensures var p := BackfillPlan(e, Sharp(next), now, cap);
            Matches(e, p.newNext.at) && (|p.fires| < cap ==> After(p.newNext, now))
    decreases cap
  {
    YearlySucceeds(e, next);
    if cap > 1 { BackfillTickResumes(e, NextMatch(e, next).value, now, cap - 1); }
  }

  datatype Tick = Tick(now: Instant, cap: nat)

  function AllFires(e: Expr, next: Instant, ticks: seq<Tick>): (p: Plan)
    requires Proper(next) && forall t <- ticks :: t.cap >= 1
    decreases |ticks|
  {
    if ticks == [] then Plan([], next)
    else
      var p := BackfillPlan(e, next, ticks[0].now, ticks[0].cap);
      var rest := AllFires(e, p.newNext, ticks[1..]);
      Plan(p.fires + rest.fires, rest.newNext)
  }

  lemma {:induction false} MinutesJoin(a: seq<Instant>, b: seq<Instant>)
    ensures Minutes(a + b) == Minutes(a) + Minutes(b)
  {
    if a == [] {
      assert a + b == b;
    } else {
      assert (a + b)[1..] == a[1..] + b;
      MinutesJoin(a[1..], b);
    }
  }

  /** Ticks telescope: at whatever times and under whatever caps they run, together they fire
      exactly the matches from the first next run up to the last, each once and in order. */
  lemma {:induction false} BackfillTelescopes(e: Expr, next: Minute, ticks: seq<Tick>)
    requires Yearly(e) && Matches(e, next) && forall t <- ticks :: t.cap >= 1
    ensures var p := AllFires(e, Sharp(next), ticks); Covers(e, next, p) && Matches(e, p.newNext.at)
    decreases |ticks|
  {
    if ticks == [] {
      CoversNone(e, next);
    } else {
      BackfillTick(e, next, ticks[0].now, ticks[0].cap);
      BackfillTickResumes(e, next, ticks[0].now, ticks[0].cap);
      var p := BackfillPlan(e, Sharp(next), ticks[0].now, ticks[0].cap);
      assert p.newNext == Sharp(p.newNext.at);
      BackfillTelescopes(e, p.newNext.at, ticks[1..]);
      CoversJoin(e, next, p, AllFires(e, p.newNext, ticks[1..]));
    }
  }

  /** An expression with a match but no date in every year matches some minute of the leap day of 2096
      after which the search finds nothing. */
  lemma LastOf2096(e: Expr, m: Minute) returns (last: Minute)
    requires !Yearly(e) && Matches(e, m)
    ensures Matches(e, last) && last.year == 2096 && NextMatch(e, last).None?
  {
    OnlyLeapDays(e, m);
    assert !MonthAllows(e, 2);
    assert 0 <= Weekday(m) <= 6;
    last := LastOfDay(e, Minute(2096, 2, 29, m.hour, m.minute));
  }

  lemma {:induction false} LastOfDay(e: Expr, m: Minute) returns (last: Minute)
    requires !Yearly(e) && Matches(e, m) && m.year == 2096
    ensures Matches(e, last) && last.year == 2096 && NextMatch(e, last).None?
    decreases 23 - m.hour, 59 - m.minute
  {
    OnlyLeapDays(e, m);
    if NextMatch(e, m).None? {
      last := m;
    } else {
      var n := NextMatch(e, m).value;
      NextMatchIsLeast(e, m, n);
      OnlyLeapDays(e, n);
      assert n.year == 2096;
      last := LastOfDay(e, n);
    }
  }

  /** From there two ticks fire the match and then the minute after it, which does not match. */
  lemma TwoTicksOverrun(e: Expr, last: Minute) returns (ticks: seq<Tick>)
    requires Matches(e, last) && NextMatch(e, last).None?
    ensures (forall t <- ticks :: t.cap >= 1) && !Covers(e, last, AllFires(e, Sharp(last), ticks))
  {
    var later := MinuteLater(Sharp(last));
    var t := Tick(later, 1);
    ticks := [t, t];
    Jumps(last);
    NextMatchIsLeast(e, last, later.at);
    assert BackfillPlan(e, Sharp(last), t.now, 1) == Plan([Sharp(last)], later);
    var p := BackfillPlan(e, later, t.now, 1);
    assert p.fires == [later] && ticks[1..] == [t] && [t][1..] == [];
    var rest := AllFires(e, p.newNext, []);
    assert AllFires(e, later, [t]) == Plan(p.fires + rest.fires, rest.newNext);
    var all := AllFires(e, Sharp(last), ticks);
    assert all.fires == [Sharp(last)] + [later];
    MinutesJoin([Sharp(last)], [later]);
    assert Minutes([later]) == [later.at] && later.at in Minutes(all.fires);
    LaterIsNoMatch(e, last);
  }

  lemma LaterIsNoMatch(e: Expr, last: Minute)
    requires Matches(e, last) && NextMatch(e, last).None?
    ensures !Matches(e, NextMinute(last))
  {
    Jumps(last);
    NextMatchIsLeast(e, last, NextMinute(last));
  }

  ghost predicate Capped(ticks: seq<Tick>) { forall t <- ticks :: t.cap >= 1 }

  /** For an expression that matches at all, backfill ticks telescope, from every match and under all
      ticks, exactly when it has a date in every year: a schedule for 29 February alone resumes at
      the minute after its last match of 2096 and fires it. */
  lemma TelescopesIffYearly(e: Expr, m: Minute)
    requires Matches(e, m)
    ensures Yearly(e) <==>
            forall next, ticks :: Matches(e, next) && Capped(ticks) ==> Covers(e, next, AllFires(e, Sharp(next), ticks))
  {
    if Yearly(e) {
      forall next, ticks | Matches(e, next) && Capped(ticks)
        ensures Covers(e, next, AllFires(e, Sharp(next), ticks))
      {
        BackfillTelescopes(e, next, ticks);
      }
    } else {
      var last := LastOf2096(e, m);
      var ticks := TwoTicksOverrun(e, last);
      assert Capped(ticks);
    }
  }

  /** Where the walk should end: the first match after now, or one minute after now. */
  ghost function Resume(e: Expr, now: Instant, reached: bool): Instant
    requires Valid(now.at) && NextMatch(e, now.at).Some?
  {
    if reached then Sharp(NextMatch(e, now.at).value) else MinuteLater(now)
  }

  /** Walking from match to match, k of them come no later than now. */
  ghost predicate Walks(e: Expr, from: Minute, now: Minute, k: nat)
    requires Valid(from)
    decreases k
  {
    NextMatch(e, from).Some? &&
    var n := NextMatch(e, from).value;
    if Before(now, n) then k == 0 else k > 0 && Walks(e, n, now, k - 1)
  }

  lemma {:induction false} MissedWalks(e: Expr, from: Minute, now: Minute, missed: seq<Minute>)
    requires Valid(from) && Valid(now) && Yearly(e)
    requires Lists(e, missed, NextMinute(from), NextMinute(now))
    ensures Walks(e, from, now, |missed|)
    decreases |missed|
  {
    YearlySucceeds(e, from);
    MissedSplit(e, from, now, missed);
    var n := NextMatch(e, from).value;
    if !Before(now, n) {
      var rest := missed[1..];
      MissedWalks(e, n, now, rest);
      assert Walks(e, n, now, |missed| - 1);
    }
  }

  lemma {:induction false} WalkResumes(e: Expr, from: Instant, now: Instant, steps: nat, k: nat)
    requires Proper(from) && Proper(now) && !Before(now.at, from.at) && NextMatch(e, now.at).Some?
    requires Walks(e, from.at, now.at, k)
    ensures Advance(e, from, now, steps) == Resume(e, now, k < steps)
    decreases steps
  {
    if steps > 0 {
      AdvanceStep(e, from, now, steps);
      if k == 0 { FirstAfterNow(e, from.at, now.at); }
      else { WalkResumes(e, Sharp(NextMatch(e, from.at).value), now, steps - 1, k - 1); }
    }
  }

  /** The walk from a due instant ends on the first match after now exactly when fewer instants
      were missed than it may take steps; otherwise it ends one minute after now. */
  lemma AdvanceReachesNext(e: Expr, from: Instant, now: Instant, steps: nat, missed: seq<Minute>)
    requires Proper(from) && Proper(now) && !After(from, now) && Yearly(e)
    requires Lists(e, missed, NextMinute(from.at), NextMinute(now.at))
    ensures NextMatch(e, now.at).Some?
    ensures Advance(e, from, now, steps) == Resume(e, now, |missed| < steps)
  {
    YearlySucceeds(e, now.at);
    MissedWalks(e, from.at, now.at, missed);
    WalkResumes(e, from, now, steps, |missed|);
  }

  /** The matching minutes in [lo, hi), minute by minute. */
  function MatchesBetween(e: Expr, lo: Minute, hi: Minute): seq<Minute>
    requires Valid(lo)
    decreases hi.year - lo.year, 12 - lo.month, 31 - lo.day, 23 - lo.hour, 59 - lo.minute
  {
    if !Before(lo, hi) then []
    else
      Jumps(lo);
      (if Matches(e, lo) then [lo] else []) + MatchesBetween(e, NextMinute(lo), hi)
  }

  lemma ListsMinute(e: Expr, t: Minute)
    requires Valid(t)
    ensures Lists(e, if Matches(e, t) then [t] else [], t, NextMinute(t))
  {
    Jumps(t);
    var s := if Matches(e, t) then [t] else [];
    forall c ensures c in s <==> Matches(e, c) && !Before(c, t) && Before(c, NextMinute(t)) {
      if Matches(e, c) && !Before(c, t) && Before(c, NextMinute(t)) { SkippedByMinute(t, c); }
    }
  }

  /** Such a list exists for all bounds. */
  lemma {:induction false} MatchesBetweenLists(e: Expr, lo: Minute, hi: Minute)
    requires Valid(lo) && Valid(hi)
    ensures Lists(e, MatchesBetween(e, lo, hi), lo, hi)
    decreases hi.year - lo.year, 12 - lo.month, 31 - lo.day, 23 - lo.hour, 59 - lo.minute
  {
    if Before(lo, hi) {
      Jumps(lo);
      var mid := NextMinute(lo);
      ListsMinute(e, lo);
      MatchesBetweenLists(e, mid, hi);
      if Before(hi, mid) { SkippedByMinute(lo, hi); }
      ListsJoin(e, if Matches(e, lo) then [lo] else [], MatchesBetween(e, mid, hi), lo, mid, hi);
    }
  }

  /** The instants missed between a due instant and now. */
  function Missed(e: Expr, from: Instant, now: Instant): seq<Minute>
    requires Proper(from)
  {
    Jumps(from.at);
    MatchesBetween(e, NextMinute(from.at), NextMinute(now.at))
  }

  /** What the planner's walk returns for every due schedule: Next(now) exactly when fewer than a
      million instants were missed. */
  lemma AdvancePastReachesNext(e: Expr, from: Instant, now: Instant)
    requires Proper(from) && Proper(now) && !After(from, now) && Yearly(e)
    ensures NextMatch(e, now.at).Some?
    ensures Advance(e, from, now, StepLimit) == Resume(e, now, |Missed(e, from, now)| < 1_000_000)
  {
    Jumps(from.at);
    Jumps(now.at);
    MatchesBetweenLists(e, NextMinute(from.at), NextMinute(now.at));
    AdvanceReachesNext(e, from, now, StepLimit, Missed(e, from, now));
  }

  lemma AdvanceStep(e: Expr, from: Instant, now: Instant, steps: nat)
    requires Proper(from) && Proper(now) && steps > 0 && NextMatch(e, from.at).Some?
    ensures var n := NextMatch(e, from.at).value;
            Advance(e, from, now, steps) == if Before(now.at, n) then Sharp(n) else Advance(e, Sharp(n), now, steps - 1)
  {
  }

  /** Where the search finds nothing the walk ends one minute later, on whichever side of now that is. */
  lemma AdvanceRunsDry(e: Expr, from: Instant, now: Instant, steps: nat)
    requires Proper(from) && Proper(now) && steps > 0 && NextMatch(e, from.at).None?
    ensures Nanos(Advance(e, from, now, steps)) == Nanos(from) + 60_000_000_000
  {
    Jumps(from.at);
    StampsConsecutive(from.at);
    DayNumberIsCivil(from.at);
    DayNumberIsCivil(NextMinute(from.at));
  }

  /** Either way the schedule resumes strictly after now. */
  lemma ResumesAfterNow(e: Expr, now: Instant, reached: bool)
    requires Proper(now) && NextMatch(e, now.at).Some?
    ensures After(Resume(e, now, reached), now)
  {
    Jumps(now.at);
    NextMatchIsLeast(e, now.at, NextMatch(e, now.at).value);
  }

  /** When nothing matches between two minutes, both have the same next match. */
  lemma FirstAfterNow(e: Expr, from: Minute, now: Minute)
    requires Valid(from) && Valid(now) && !Before(now, from)
    requires NextMatch(e, from).Some? && NextMatch(e, now).Some? && Before(now, NextMatch(e, from).value)
    ensures NextMatch(e, now) == NextMatch(e, from)
  {
    var m, n := NextMatch(e, now).value, NextMatch(e, from).value;
    NextMatchIsLeast(e, now, m);
    NextMatchIsLeast(e, from, n);
  }

  lemma AfterIsNotBeforeNext(t: Minute, c: Minute)
    requires Valid(t) && Valid(c)
    ensures Before(t, c) <==> !Before(c, NextMinute(t))
  {
    Jumps(t);
    if Before(t, c) && Before(c, NextMinute(t)) { SkippedByMinute(t, c); }
  }

  lemma MissedSplit(e: Expr, from: Minute, now: Minute, missed: seq<Minute>)
    requires Valid(from) && Valid(now) && NextMatch(e, from).Some?
    requires Lists(e, missed, NextMinute(from), NextMinute(now))
    ensures var n := NextMatch(e, from).value;
            if Before(now, n) then missed == []
            else Valid(n) && missed != [] && Lists(e, missed[1..], NextMinute(n), NextMinute(now))
  {
    var n := NextMatch(e, from).value;
    NextMatchIsLeast(e, from, n);
    var first := if missed == [] then n else missed[0];
    assert missed == [] || first in missed;
    forall c | Matches(e, c)
      ensures c in missed <==> Before(from, c) && !Before(now, c)
      ensures Before(n, c) <==> !Before(c, NextMinute(n))
    {
      AfterIsNotBeforeNext(from, c);
      AfterIsNotBeforeNext(now, c);
      AfterIsNotBeforeNext(n, c);
    }
    if Before(now, n) {
      assert first !in missed;
    } else {
      assert n in missed;
      FirstIsLeast(missed, n);
      var rest := missed[1..];
      forall c ensures c in rest <==> Matches(e, c) && !Before(c, NextMinute(n)) && Before(c, NextMinute(now)) {
        RestIsLater(missed, c);
        if Matches(e, c) { AfterIsNotBeforeNext(now, c); }
      }
    }
  }

  lemma FirstIsLeast(s: seq<Minute>, n: Minute)
    requires n in s && (forall i, j :: 0 <= i < j < |s| ==> Before(s[i], s[j])) && forall c <- s :: !Before(c, n)
    ensures s[0] == n
  {
    var k :| 0 <= k < |s| && s[k] == n;
    var first := s[0];
    assert first in s && (k == 0 || Before(first, n));
  }

  lemma RestIsLater(s: seq<Minute>, c: Minute)
    requires s != [] && forall i, j :: 0 <= i < j < |s| ==> Before(s[i], s[j])
    ensures c in s[1..] <==> c in s && Before(s[0], c)
  {
    if c in s && Before(s[0], c) {
      var k :| 0 <= k < |s| && s[k] == c;
      assert s[1..][k - 1] == c;
    }
  }

  // ---------- the three policies ----------

  /** Nanoseconds since the start of civil day 0. */
  function Nanos(t: Instant): int {
    ((CivilDay(t.at.year, t.at.month, t.at.day) * 24 + t.at.hour) * 60 + t.at.minute) * 60_000_000_000 + t.ns
  }

  lemma ElapsedIsCivil(a: Instant, b: Instant)
    requires Proper(a) && Proper(b)
    ensures Elapsed(a, b) == Nanos(b) - Nanos(a)
    ensures After(b, a) <==> Nanos(b) > Nanos(a)
  {
    DayNumberIsCivil(a.at);
    DayNumberIsCivil(b.at);
    assert Nanos(a) == Stamp(a.at) * 60_000_000_000 + a.ns && Nanos(b) == Stamp(b.at) * 60_000_000_000 + b.ns;
    BeforeIsEarlier(a.at, b.at);
    BeforeIsEarlier(b.at, a.at);
    if Stamp(a.at) == Stamp(b.at) && a.at != b.at { BeforeGrows(a.at, b.at); }
  }

  /** The plan fires next first and then, sharp and in order, exactly the later matches up to the new
      next run, itself a match; it fires nothing after now and at most cap instants, and stops before
      the cap only past now. */
  ghost predicate CatchesUp(e: Expr, next: Instant, now: Instant, cap: nat, p: Plan) {
    && 1 <= |p.fires| <= cap && p.fires[0] == next && (forall f <- p.fires :: !After(f, now))
    && Lists(e, Minutes(p.fires[1..]), NextMinute(next.at), p.newNext.at) && AllSharp(p.fires[1..])
    && Matches(e, p.newNext.at) && p.newNext.ns == 0
    && (|p.fires| < cap ==> After(p.newNext, now))
  }

  lemma NoneBeforeNext(e: Expr, t: Minute)
    requires Valid(t) && NextMatch(e, t).Some?
    ensures var n := NextMatch(e, t).value; Matches(e, n) && !Before(n, NextMinute(t)) && Lists(e, [], NextMinute(t), n)
  {
    var n := NextMatch(e, t).value;
    NextMatchIsLeast(e, t, n);
    AfterIsNotBeforeNext(t, n);
    forall c | Matches(e, c) && !Before(c, NextMinute(t)) ensures !Before(c, n) { AfterIsNotBeforeNext(t, c); }
  }

  /** A plan that covers the time from n under the cap and resumes on a match, past now if it is under it. */
  ghost predicate Resumes(e: Expr, n: Minute, now: Instant, cap: nat, p: Plan) {
    && Covers(e, n, p) && |p.fires| <= cap && (forall f <- p.fires :: !After(f, now))
    && Matches(e, p.newNext.at) && (|p.fires| < cap ==> After(p.newNext, now))
  }

  lemma TickResumes(e: Expr, n: Minute, now: Instant, cap: nat)
    requires Matches(e, n) && Yearly(e) && cap >= 1
    ensures Resumes(e, n, now, cap, BackfillPlan(e, Sharp(n), now, cap))
  {
    BackfillTick(e, n, now, cap);
    BackfillTickBounded(e, Sharp(n), now, cap);
    BackfillTickResumes(e, n, now, cap);
  }

  /** Such a plan, preceded by one due instant whose next match is n. */
  lemma CatchUpJoin(e: Expr, next: Instant, now: Instant, cap: nat, n: Minute, rest: Plan)
    requires cap >= 1 && Resumes(e, n, now, cap - 1, rest) && !After(next, now)
    requires Lists(e, [], NextMinute(next.at), n) && !Before(n, NextMinute(next.at))
    ensures CatchesUp(e, next, now, cap, Prepend([next], rest))
  {
    var p := Prepend([next], rest);
    assert p.fires[1..] == rest.fires;
    ListsJoin(e, [], Minutes(rest.fires), NextMinute(next.at), n, rest.newNext.at);
    assert [] + Minutes(rest.fires) == Minutes(rest.fires);
  }

  lemma CatchUpMore(e: Expr, next: Instant, now: Instant, cap: nat, n: Minute)
    requires Matches(e, n) && Lists(e, [], NextMinute(next.at), n) && !Before(n, NextMinute(next.at))
    requires !After(next, now) && cap >= 2 && Yearly(e)
    ensures CatchesUp(e, next, now, cap, Prepend([next], BackfillPlan(e, Sharp(n), now, cap - 1)))
  {
    TickResumes(e, n, now, cap - 1);
    CatchUpJoin(e, next, now, cap, n, BackfillPlan(e, Sharp(n), now, cap - 1));
  }

  lemma CatchUpRest(e: Expr, next: Instant, now: Instant, cap: nat, n: Minute)
    requires Matches(e, n) && Lists(e, [], NextMinute(next.at), n) && !Before(n, NextMinute(next.at))
    requires !After(next, now) && cap >= 1 && Yearly(e)
    ensures CatchesUp(e, next, now, cap,
                      Prepend([next], if cap == 1 then Plan([], Sharp(n)) else BackfillPlan(e, Sharp(n), now, cap - 1)))
  {
    if cap == 1 {
      CoversNone(e, n);
      CatchUpJoin(e, next, now, cap, n, Plan([], Sharp(n)));
    } else {
      CatchUpMore(e, next, now, cap, n);
    }
  }

  lemma BackfillCatchesUp(e: Expr, next: Instant, now: Instant, cap: nat)
    requires Proper(next) && cap >= 1 && !After(next, now) && Yearly(e)
    ensures CatchesUp(e, next, now, cap, BackfillPlan(e, next, now, cap))
  {
    YearlySucceeds(e, next.at);
    NoneBeforeNext(e, next.at);
    BackfillTurn(e, next, now, cap);
    CatchUpRest(e, next, now, cap, NextMatch(e, next.at).value);
  }

  /** What a due schedule with a date in every year fires, and where it resumes: fire-once fires the
      due instant alone, skip the same unless more than the grace has passed, and both resume as the
      walk past now does; backfill catches up under its cap, which is at least one. */
  lemma PolicyMeans(policy: Policy, e: Expr, next: Instant, now: Instant, grace: int, maxBackfill: int)
    requires Proper(next) && Proper(now) && !After(next, now) && Yearly(e)
    ensures NextMatch(e, now.at).Some?
    ensures var p := PlanFor(policy, e, next, now, grace, maxBackfill);
            match policy
            case Backfill => CatchesUp(e, next, now, if maxBackfill >= 1 then maxBackfill else 1, p)
            case Skip =>
              && p.newNext == Resume(e, now, |Missed(e, next, now)| < 1_000_000)
              && p.fires == if Nanos(now) - Nanos(next) > grace then [] else [next]
            case FireOnce => p.fires == [next] && p.newNext == Resume(e, now, |Missed(e, next, now)| < 1_000_000)
  {
    AdvancePastReachesNext(e, next, now);
    ElapsedIsCivil(next, now);
    if policy.Backfill? { BackfillCatchesUp(e, next, now, if maxBackfill < 1 then 1 else maxBackfill); }
  }
}
