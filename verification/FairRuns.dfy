/**
 What every run of the throughput lane keeps: the ring is exact, checkout is work conserving and
 serves in virtual-time order, and the lease sets respect the budget and the cap.
 */
module FairRuns {
  import opened Collections
  import opened FairScheduler

  datatype Step =
    | Put(t: Tenant, job: Job)
    | Take(a: Ask, members: seq<Tenant>)
    | ConfirmStep(s: Slot)
    | AbortStep(s: Slot, t: Tenant)
    | CompleteStep(s: Slot, t: Tenant)
    | RenewStep(s: Slot, t: Tenant, now: real)
    | RenewGlobal(s: Slot, now: real)            // the two halves of a renewal, interleaved
    | RenewTenant(s: Slot, t: Tenant, now: real) // with other clients
    | RearmStep(s: Slot, t: Tenant, now: real)
    | SweepGlobal(now: real)                     // ReclaimExpiredLeases: the global set,
    | SweepTenant(t: Tenant, now: real)          // then each tenant set
    | ResetStep(now: real)

  /** A checkout reads its candidates off the ring. */
  ghost predicate Enabled(l: Lane, c: Config, s: Step) { s.Take? ==> IsRange(l.ring, c.fetchN, s.members) }

  ghost function Next(l: Lane, c: Config, s: Step): Lane
    requires Sane(c)
  {
    match s
    case Put(t, job) => Enqueue(l, c, t, job).0
    case Take(a, members) => Checkout(l, c, a, members).0
    case ConfirmStep(s) => Confirm(l, s)
    case AbortStep(s, t) => Abort(l, c, s, t)
    case CompleteStep(s, t) => Complete(l, s, t)
    case RenewStep(s, t, now) => RenewHeld(l.(leases := Renewed(l.leases, s, now + c.ttl)), s, t, now + c.ttl)
    case RenewGlobal(s, now) => l.(leases := Renewed(l.leases, s, now + c.ttl))
    case RenewTenant(s, t, now) => RenewHeld(l, s, t, now + c.ttl)
    case RearmStep(s, t, now) => Rearm(l, s, t, now + c.ttl)
    case SweepGlobal(now) => l.(leases := Live(l.leases, now))
    case SweepTenant(t, now) => Prune(l, t, now)
    case ResetStep(now) => ResetVtime(l, now)
  }

  // ---------- ring exactness ----------

  /** The ring holds exactly the tenants that have a ready job. */
  ghost predicate Exact(l: Lane) {
    l.ring.Keys == l.ready.Keys && forall t :: t in l.ready ==> l.ready[t] != []
  }

  /** p is l with some tenants' expired leases dropped. */
  ghost predicate OnlyPruned(l: Lane, p: Lane, now: real) {
    p == l.(held := p.held) && forall t :: Held(p, t) == Held(l, t) || Held(p, t) == Live(Held(l, t), now)
  }

  predicate Free(l: Lane, a: Ask, limits: map<Tenant, int>, t: Tenant)
  {
    Under(limits, t, |Live(Held(l, t), a.now)|)
  }

  lemma LiveTwice(z: map<Slot, real>, now: real)
    ensures Live(Live(z, now), now) == Live(z, now)
  {
  }

  lemma PrunedSame(l: Lane, p: Lane, a: Ask, limits: map<Tenant, int>, t: Tenant)
    requires OnlyPruned(l, p, a.now)
    ensures Free(p, a, limits, t) == Free(l, a, limits, t)
    ensures Live(Held(p, t), a.now) == Live(Held(l, t), a.now)
  {
    LiveTwice(Held(l, t), a.now);
  }

  lemma PrunedTwice(l: Lane, q: Lane, p: Lane, now: real)
    requires OnlyPruned(l, q, now) && OnlyPruned(q, p, now)
    ensures OnlyPruned(l, p, now)
  {
    forall t ensures Held(p, t) == Held(l, t) || Held(p, t) == Live(Held(l, t), now) {
      LiveTwice(Held(l, t), now);
    }
  }

  /** Index of the first free member, or the length if there is none. */
  function FirstFree(l: Lane, a: Ask, limits: map<Tenant, int>, members: seq<Tenant>): (k: nat)
    ensures k <= |members|
    ensures k < |members| ==> Free(l, a, limits, members[k])
    ensures forall i :: 0 <= i < k ==> !Free(l, a, limits, members[i])
  {
    if members == [] || Free(l, a, limits, members[0]) then 0
    else
      assert forall i :: 1 <= i < |members| ==> members[i] == members[1..][i - 1];
      1 + FirstFree(l, a, limits, members[1..])
  }

  lemma {:induction false} FirstFreePruned(l: Lane, p: Lane, a: Ask, limits: map<Tenant, int>, members: seq<Tenant>)
    requires OnlyPruned(l, p, a.now)
    ensures FirstFree(p, a, limits, members) == FirstFree(l, a, limits, members)
  {
    if members != [] {
      PrunedSame(l, p, a, limits, members[0]);
      FirstFreePruned(l, p, a, limits, members[1..]);
    }
  }

  /** On an exact ring a round serves the first member that is free, and otherwise only prunes. */
  lemma {:induction false} ScanFinds(l: Lane, c: Config, a: Ask, limits: map<Tenant, int>, members: seq<Tenant>)
    returns (p: Lane)
    requires Sane(c) && Exact(l) && forall i :: 0 <= i < |members| ==> members[i] in l.ring
    ensures OnlyPruned(l, p, a.now)
    ensures var k := FirstFree(l, a, limits, members);
            if k == |members| then Scan(l, c, a, limits, members) == (p, None)
            else
              var t := members[k];
              Held(p, t) == Live(Held(l, t), a.now) && Ready(p, t) != []
              && Scan(l, c, a, limits, members) == (Serve(p, c, a, t), Some(t))
    decreases |members|
  {
    if members == [] {
      p := l;
    } else {
      var t := members[0];
      p := Prune(l, t, a.now);
      assert OnlyPruned(l, p, a.now);
      assert Ready(p, t) == l.ready[t] != [];
      if Free(l, a, limits, t) {
        assert Scan(l, c, a, limits, members) == (Serve(p, c, a, t), Some(t));
      } else {
        var q, rest := p, members[1..];
        assert Scan(l, c, a, limits, members) == Scan(q, c, a, limits, rest);
        p := ScanFinds(q, c, a, limits, rest);
        FirstFreePruned(l, q, a, limits, rest);
        var k := FirstFree(q, a, limits, rest);
        assert FirstFree(l, a, limits, members) == k + 1;
        if k < |rest| { PrunedSame(l, q, a, limits, rest[k]); }
        PrunedTwice(l, q, p, a.now);
      }
    }
  }

  lemma ServeExact(p: Lane, c: Config, a: Ask, t: Tenant)
    requires Sane(c) && Exact(p) && t in p.ring
    ensures Exact(Serve(p, c, a, t))
  {
  }

  /** Index of the member a checkout serves: the first under its share, else the first under the
      cap; the length if there is none. */
  function Winner(l: Lane, a: Ask, shares: map<Tenant, int>, caps: map<Tenant, int>, members: seq<Tenant>): (k: nat)
    ensures k <= |members|
  {
    var k := FirstFree(l, a, shares, members);
    if k < |members| then k else FirstFree(l, a, caps, members)
  }

  lemma FirstRoundFinds(l: Lane, c: Config, a: Ask, shares: map<Tenant, int>, caps: map<Tenant, int>,
                        members: seq<Tenant>)
    returns (p: Lane)
    requires Sane(c) && Exact(l) && forall i :: 0 <= i < |members| ==> members[i] in l.ring
    requires FirstFree(l, a, shares, members) < |members|
    ensures OnlyPruned(l, p, a.now)
    ensures var t := members[FirstFree(l, a, shares, members)];
            Held(p, t) == Live(Held(l, t), a.now) && Ready(p, t) != []
            && Rounds(l, c, a, shares, caps, members) == (Serve(p, c, a, t), Some(t))
  {
    p := ScanFinds(l, c, a, shares, members);
  }

  lemma FallbackFinds(l: Lane, c: Config, a: Ask, shares: map<Tenant, int>, caps: map<Tenant, int>,
                      members: seq<Tenant>)
    returns (p: Lane)
    requires Sane(c) && Exact(l) && forall i :: 0 <= i < |members| ==> members[i] in l.ring
    requires FirstFree(l, a, shares, members) == |members|
    ensures OnlyPruned(l, p, a.now)
    ensures var k := FirstFree(l, a, caps, members);
            if k == |members| then Rounds(l, c, a, shares, caps, members) == (p, None)
            else
              var t := members[k];
              Held(p, t) == Live(Held(l, t), a.now) && Ready(p, t) != []
              && Rounds(l, c, a, shares, caps, members) == (Serve(p, c, a, t), Some(t))
  {
    var p1 := ScanFinds(l, c, a, shares, members);
    assert Rounds(l, c, a, shares, caps, members) == Scan(p1, c, a, caps, members);
    p := ScanFinds(p1, c, a, caps, members);
    FirstFreePruned(l, p1, a, caps, members);
    var k := FirstFree(l, a, caps, members);
    if k < |members| { PrunedSame(l, p1, a, caps, members[k]); }
    PrunedTwice(l, p1, p, a.now);
  }

  /** Both rounds, as one description. */
  lemma RoundsFind(l: Lane, c: Config, a: Ask, shares: map<Tenant, int>, caps: map<Tenant, int>, members: seq<Tenant>)
    returns (p: Lane)
    requires Sane(c) && Exact(l) && forall i :: 0 <= i < |members| ==> members[i] in l.ring
    ensures OnlyPruned(l, p, a.now)
    ensures var k := Winner(l, a, shares, caps, members);
            if k == |members| then Rounds(l, c, a, shares, caps, members) == (p, None)
            else
              var t := members[k];
              Held(p, t) == Live(Held(l, t), a.now) && Ready(p, t) != []
              && Rounds(l, c, a, shares, caps, members) == (Serve(p, c, a, t), Some(t))
  {
    if FirstFree(l, a, shares, members) < |members| {
      p := FirstRoundFinds(l, c, a, shares, caps, members);
    } else {
      p := FallbackFinds(l, c, a, shares, caps, members);
    }
  }

  function CheckoutWinner(l: Lane, c: Config, a: Ask, members: seq<Tenant>): (k: nat)
    requires Sane(c)
    ensures k <= |members|
  {
    Winner(l, a, Shares(l, c, a), Caps(l, c), members)
  }

  /** A checkout, as one description. */
  lemma CheckoutFinds(l: Lane, c: Config, a: Ask, members: seq<Tenant>) returns (p: Lane)
    requires Sane(c) && Exact(l) && IsRange(l.ring, c.fetchN, members)
    ensures OnlyPruned(l.(leases := Live(l.leases, a.now)), p, a.now)
    ensures var k := CheckoutWinner(l, c, a, members);
            if BudgetFull(l, c, a) || k == |members| then Checkout(l, c, a, members) == (p, None)
            else
              var t := members[k];
              Held(p, t) == Live(Held(l, t), a.now) && Ready(p, t) != []
              && Checkout(l, c, a, members) == (Serve(p, c, a, t), Some(t))
  {
    p := l.(leases := Live(l.leases, a.now));
    if !BudgetFull(l, c, a) {
      var q, shares, caps := p, Shares(l, c, a), Caps(l, c);
      SameLimits(l, q, a, shares, members);
      SameLimits(l, q, a, caps, members);
      assert Checkout(l, c, a, members) == Rounds(q, c, a, shares, caps, members);
      p := RoundsFind(q, c, a, shares, caps, members);
    }
  }

  lemma {:induction false} SameLimits(l: Lane, q: Lane, a: Ask, limits: map<Tenant, int>, members: seq<Tenant>)
    requires q == l.(leases := q.leases)
    ensures FirstFree(q, a, limits, members) == FirstFree(l, a, limits, members)
  {
    if members != [] {
      assert Free(q, a, limits, members[0]) == Free(l, a, limits, members[0]);
      SameLimits(l, q, a, limits, members[1..]);
    }
  }

  /** Every step keeps the ring exact. */
  lemma StepExact(l: Lane, c: Config, s: Step)
    requires Sane(c) && Exact(l) && Enabled(l, c, s)
    ensures Exact(Next(l, c, s))
  {
    if s.Take? {
      var p := CheckoutFinds(l, c, s.a, s.members);
      assert Exact(p);
      var k := CheckoutWinner(l, c, s.a, s.members);
      if !BudgetFull(l, c, s.a) && k < |s.members| { ServeExact(p, c, s.a, s.members[k]); }
    }
  }

  ghost predicate Feasible(l: Lane, c: Config, steps: seq<Step>)
    requires Sane(c)
    decreases |steps|
  {
    steps == [] || (Enabled(l, c, steps[0]) && Feasible(Next(l, c, steps[0]), c, steps[1..]))
  }

  ghost function Run(l: Lane, c: Config, steps: seq<Step>): Lane
    requires Sane(c)
    decreases |steps|
  {
    if steps == [] then l else Run(Next(l, c, steps[0]), c, steps[1..])
  }

  lemma {:induction false} RunExtend(l: Lane, c: Config, steps: seq<Step>, s: Step)
    requires Sane(c)
    ensures Run(l, c, steps + [s]) == Next(Run(l, c, steps), c, s)
    ensures Feasible(l, c, steps + [s]) <==> Feasible(l, c, steps) && Enabled(Run(l, c, steps), c, s)
    decreases |steps|
  {
    if steps == [] {
      assert steps + [s] == [s] && [s][1..] == [];
      assert Run(l, c, [s]) == Run(Next(l, c, s), c, []);
    } else {
      assert (steps + [s])[1..] == steps[1..] + [s];
      RunExtend(Next(l, c, steps[0]), c, steps[1..], s);
    }
  }

  function Empty(weights: map<Tenant, real>): Lane {
    Lane(map[], map[], weights, map[], map[], map[], map[], map[])
  }

  lemma {:induction false} RunExact(l: Lane, c: Config, steps: seq<Step>)
    requires Sane(c) && Exact(l) && Feasible(l, c, steps)
    ensures Exact(Run(l, c, steps))
    decreases |steps|
  {
    if steps != [] {
      StepExact(l, c, steps[0]);
      RunExact(Next(l, c, steps[0]), c, steps[1..]);
    }
  }

  // ---------- shares in numbers ----------

  /** The slots whose lease has not expired. */
  function Unexpired(z: map<Slot, real>, now: real): set<Slot> { set s | s in z && z[s] > now }

  lemma LiveIsUnexpired(z: map<Slot, real>, now: real)
    ensures Live(z, now).Keys == Unexpired(z, now) && |Live(z, now)| == |Unexpired(z, now)|
    ensures forall s :: s in Live(z, now) ==> Live(z, now)[s] == z[s]
  {
    assert Live(z, now).Keys == Unexpired(z, now);
  }

  /** With n jobs in flight another one fits. Weighted: it is the first, or n + 1 jobs weigh no more
      than the tenant's part of the budget. Unweighted: n jobs for each active tenant do not use the
      budget up. A positive cap bounds it either way; without budget and cap everything fits. */
  predicate Fits(c: Config, n: nat, active: int, weight: real, total: real) {
    && (c.cap > 0 ==> n < c.cap)
    && (c.budget > 0 && c.weighted ==> n == 0 || Affords(c.budget as real, weight, total, n + 1))
    && (c.budget > 0 && !c.weighted ==> n * active < c.budget)
  }

  /** k jobs are no more than the budget's part for that weight of the total. */
  predicate Affords(budget: real, weight: real, total: real, k: int) { k as real * total <= budget * weight }

  /** Another job of the tenant fits its in-flight share. */
  predicate UnderShare(l: Lane, c: Config, a: Ask, t: Tenant) {
    var active := Max(1, Max(|l.ring|, a.activeHint));
    var weight := if t in l.weights && l.weights[t] > 0.0 then l.weights[t] else c.defaultWeight;
    var total := if a.weightHint > 0.0 then a.weightHint else c.defaultWeight * active as real;
    Fits(c, |Unexpired(Held(l, t), a.now)|, active, weight, total)
  }

  /** Under the hard cap alone. */
  predicate UnderCap(l: Lane, c: Config, a: Ask, t: Tenant) { c.cap == 0 || |Unexpired(Held(l, t), a.now)| < c.cap }

  /** The budget is taken by unexpired leases. */
  predicate Exhausted(l: Lane, c: Config, a: Ask) { c.budget > 0 && |Unexpired(l.leases, a.now)| >= c.budget }

  function Max(x: int, y: int): int { if x < y then y else x }

  lemma FloorQuotient(x: real, y: real, k: int)
    requires y > 0.0
    ensures k <= (x / y).Floor <==> k as real * y <= x
  {
    var q := x / y;
    assert q * y == x;
    if k as real <= q {
      assert k as real * y <= q * y;
    } else {
      assert q * y < k as real * y;
    }
  }

  lemma CeilQuotient(x: int, y: int, k: int)
    requires x >= 1 && y >= 1
    ensures k < CeilDiv(x, y) <==> k * y < x
  {
    var n := CeilDiv(x, y);
    assert x + y - 1 == n * y + (x + y - 1) % y;
    if k < n { Multiples(k + 1, n, y); } else { Multiples(n, k, y); }
  }

  lemma Multiples(j: int, k: int, y: int)
    requires j <= k && y >= 1
    ensures j * y <= k * y && (j - 1) * y == j * y - y
  {
  }

  lemma PartAffords(budget: real, weight: real, total: real, n: nat)
    requires total > 0.0
    ensures n < Part(budget, weight, total) <==> n == 0 || Affords(budget, weight, total, n + 1)
  {
    FloorQuotient(budget * weight, total, n + 1);
  }

  /** The share of a tenant admits exactly what fits. */
  lemma ShareInNumbers(l: Lane, c: Config, a: Ask, t: Tenant, n: nat)
    requires Sane(c)
    ensures Share(l, c, a, t) == 0 || n < Share(l, c, a, t) <==>
              Fits(c, n, Active(l, a), Weight(l, c, t), SumWeight(l, c, a))
  {
    PartAffords(c.budget as real, Weight(l, c, t), SumWeight(l, c, a), n);
    if c.budget > 0 { CeilQuotient(c.budget, Active(l, a), n); }
  }

  lemma HintsInNumbers(l: Lane, c: Config, a: Ask, t: Tenant)
    requires Sane(c)
    ensures UnderShare(l, c, a, t) <==>
              Fits(c, |Unexpired(Held(l, t), a.now)|, Active(l, a), Weight(l, c, t), SumWeight(l, c, a))
  {
    assert Active(l, a) == Max(1, Max(|l.ring|, a.activeHint));
  }

  /** What a round compares against is the share in numbers, for every tenant of the ring. */
  lemma FreeIffUnderShare(l: Lane, c: Config, a: Ask, t: Tenant)
    requires Sane(c) && t in l.ring
    ensures Free(l, a, Shares(l, c, a), t) <==> UnderShare(l, c, a, t)
    ensures Free(l, a, Caps(l, c), t) <==> UnderCap(l, c, a, t)
  {
    var n := |Unexpired(Held(l, t), a.now)|;
    LiveIsUnexpired(Held(l, t), a.now);
    HintsInNumbers(l, c, a, t);
    ShareInNumbers(l, c, a, t, n);
  }

  lemma FullIffExhausted(l: Lane, c: Config, a: Ask)
    ensures BudgetFull(l, c, a) <==> Exhausted(l, c, a)
  {
    LiveIsUnexpired(l.leases, a.now);
  }

  /** Work conservation: after any run a checkout comes back empty exactly when the budget is used up or
      every fetched tenant is at its share and at the hard cap; with no per-tenant cap, exactly when the
      budget is used up or no tenant has a ready job. */
  lemma WorkConserving(weights: map<Tenant, real>, c: Config, steps: seq<Step>, a: Ask, members: seq<Tenant>)
    requires Sane(c) && Feasible(Empty(weights), c, steps)
    requires IsRange(Run(Empty(weights), c, steps).ring, c.fetchN, members)
    ensures var l := Run(Empty(weights), c, steps);
            var empty := Checkout(l, c, a, members).1.None?;
            && (empty <==> Exhausted(l, c, a) || AllAtLimit(l, c, a, members))
            && (c.cap == 0 ==> (empty <==> Exhausted(l, c, a) || forall t :: Ready(l, t) == []))
  {
    RunExact(Empty(weights), c, steps);
    FullIffExhausted(Run(Empty(weights), c, steps), c, a);
    EmptyIffAtLimit(Run(Empty(weights), c, steps), c, a, members);
    if c.cap == 0 { ExactConserves(Run(Empty(weights), c, steps), c, a, members); }
  }

  ghost predicate AllAtLimit(l: Lane, c: Config, a: Ask, members: seq<Tenant>) {
    forall i :: 0 <= i < |members| ==> !UnderShare(l, c, a, members[i]) && !UnderCap(l, c, a, members[i])
  }

  lemma EmptyIffAtLimit(l: Lane, c: Config, a: Ask, members: seq<Tenant>)
    requires Sane(c) && Exact(l) && IsRange(l.ring, c.fetchN, members)
    ensures Checkout(l, c, a, members).1.None? <==> BudgetFull(l, c, a) || AllAtLimit(l, c, a, members)
  {
    var p := CheckoutFinds(l, c, a, members);
    NoWinnerIffAtLimit(l, c, a, members);
  }

  lemma NoWinnerIffAtLimit(l: Lane, c: Config, a: Ask, members: seq<Tenant>)
    requires Sane(c) && forall i :: 0 <= i < |members| ==> members[i] in l.ring
    ensures CheckoutWinner(l, c, a, members) == |members| <==> AllAtLimit(l, c, a, members)
  {
    forall i | 0 <= i < |members|
      ensures Free(l, a, Shares(l, c, a), members[i]) <==> UnderShare(l, c, a, members[i])
      ensures Free(l, a, Caps(l, c), members[i]) <==> UnderCap(l, c, a, members[i])
    {
      FreeIffUnderShare(l, c, a, members[i]);
    }
  }

  lemma ExactConserves(l: Lane, c: Config, a: Ask, members: seq<Tenant>)
    requires Sane(c) && c.cap == 0 && Exact(l) && IsRange(l.ring, c.fetchN, members)
    ensures Checkout(l, c, a, members).1.None? <==> BudgetFull(l, c, a) || forall t :: Ready(l, t) == []
  {
    var p := CheckoutFinds(l, c, a, members);
    if members != [] { UncappedWinner(l, c, a, members); }
    WorkIffMembers(l, c.fetchN, members);
  }

  /** Without a cap the fallback round serves whoever comes first. */
  lemma UncappedWinner(l: Lane, c: Config, a: Ask, members: seq<Tenant>)
    requires Sane(c) && c.cap == 0 && members != []
    ensures CheckoutWinner(l, c, a, members) < |members|
  {
    assert Free(l, a, Caps(l, c), members[0]);
  }

  lemma WorkIffMembers(l: Lane, n: nat, members: seq<Tenant>)
    requires Exact(l) && n >= 1 && IsRange(l.ring, n, members)
    ensures members == [] <==> forall t :: Ready(l, t) == []
  {
    if members == [] {
      assert |l.ring| == 0;
    } else {
      assert members[0] in l.ready && Ready(l, members[0]) != [];
    }
  }

  /** Service order: the tenant served has the least virtual time among all ring tenants under
      their share; if no fetched tenant is under its share, the least among those under the hard
      cap, which without a cap is the least of the ring. */
  lemma ServesLeastVtime(l: Lane, c: Config, a: Ask, members: seq<Tenant>)
    requires Sane(c) && Exact(l) && IsRange(l.ring, c.fetchN, members)
    ensures var r := Checkout(l, c, a, members).1;
            r.Some? ==>
              var t := r.value;
              && t in l.ring && !Exhausted(l, c, a)
              && if exists i :: 0 <= i < |members| && UnderShare(l, c, a, members[i])
                 then UnderShare(l, c, a, t)
                      && forall u :: u in l.ring && UnderShare(l, c, a, u) ==> l.ring[t] <= l.ring[u]
                 else UnderCap(l, c, a, t)
                      && forall u :: u in l.ring && UnderCap(l, c, a, u) ==> l.ring[t] <= l.ring[u]
  {
    var p := CheckoutFinds(l, c, a, members);
    var k := CheckoutWinner(l, c, a, members);
    forall u | u in l.ring
      ensures Free(l, a, Shares(l, c, a), u) <==> UnderShare(l, c, a, u)
      ensures Free(l, a, Caps(l, c), u) <==> UnderCap(l, c, a, u)
    {
      FreeIffUnderShare(l, c, a, u);
    }
    FullIffExhausted(l, c, a);
    if !BudgetFull(l, c, a) && k < |members| {
      FirstIsLeast(l, c, a, Shares(l, c, a), members);
      FirstIsLeast(l, c, a, Caps(l, c), members);
    }
  }

  lemma FirstIsLeast(l: Lane, c: Config, a: Ask, limits: map<Tenant, int>, members: seq<Tenant>)
    requires IsRange(l.ring, c.fetchN, members)
    ensures var k := FirstFree(l, a, limits, members);
            k < |members| ==>
              forall u :: u in l.ring && Free(l, a, limits, u) ==> l.ring[members[k]] <= l.ring[u]
  {
    var k := FirstFree(l, a, limits, members);
    if k < |members| {
      forall u | u in l.ring && Free(l, a, limits, u) ensures l.ring[members[k]] <= l.ring[u] {
        assert forall i :: 0 <= i < k ==> members[i] != u;
        NotBefore(l.ring, c.fetchN, members, k, u);
      }
    }
  }

  /** What is not among the first k members scores no less than member k. */
  lemma NotBefore(z: map<Tenant, real>, n: nat, members: seq<Tenant>, k: nat, u: Tenant)
    requires IsRange(z, n, members) && k < |members| && u in z && forall i :: 0 <= i < k ==> members[i] != u
    ensures z[members[k]] <= z[u]
  {
    if u in members {
      var j :| 0 <= j < |members| && members[j] == u;
      assert j == k || members[k] in z;
    }
  }

  // ---------- what a checkout leaves alone ----------

  /** p is l with the expired leases of the given tenants, and some ring members, dropped. */
  ghost predicate Trimmed(l: Lane, p: Lane, now: real, pruned: seq<Tenant>) {
    && p == l.(held := p.held, ring := p.ring)
    && forall t :: Held(p, t) == if t in pruned then Live(Held(l, t), now) else Held(l, t)
  }

  lemma TrimTwice(l: Lane, q: Lane, p: Lane, now: real, first: seq<Tenant>, second: seq<Tenant>)
    requires Trimmed(l, q, now, first) && Trimmed(q, p, now, second)
    ensures Trimmed(l, p, now, first + second)
  {
    forall t ensures Held(p, t) == if t in first + second then Live(Held(l, t), now) else Held(l, t) {
      LiveTwice(Held(l, t), now);
    }
  }

  lemma PruneTrims(l: Lane, t: Tenant, now: real, ring: map<Tenant, real>)
    ensures Trimmed(l, Prune(l, t, now).(ring := ring), now, [t])
  {
  }

  /** The tenants a round looks at, and prunes, before it serves or runs out of members. */
  function Visited(l: Lane, c: Config, a: Ask, limits: map<Tenant, int>, members: seq<Tenant>): seq<Tenant>
    requires Sane(c)
    decreases |members|
  {
    if members == [] then []
    else
      var t := members[0];
      var p := Prune(l, t, a.now);
      if !Under(limits, t, |Held(p, t)|) then [t] + Visited(p, c, a, limits, members[1..])
      else if Ready(p, t) == [] then [t] + Visited(p.(ring := p.ring - {t}), c, a, limits, members[1..])
      else [t]
  }

  /** A round trims the lane and then either stops or serves. */
  lemma {:induction false} ScanTrims(l: Lane, c: Config, a: Ask, limits: map<Tenant, int>, members: seq<Tenant>)
    returns (p: Lane)
    requires Sane(c)
    ensures Trimmed(l, p, a.now, Visited(l, c, a, limits, members))
    ensures var r := Scan(l, c, a, limits, members);
            match r.1
            case None => r.0 == p
            case Some(t) => Ready(p, t) != [] && r.0 == Serve(p, c, a, t)
    decreases |members|
  {
    p := l;
    if members != [] {
      var t, rest := members[0], members[1..];
      var q, serves := ScanTurn(l, c, a, limits, members);
      PruneTrims(l, t, a.now, q.ring);
      p := q;
      if !serves {
        p := ScanTrims(q, c, a, limits, rest);
        TrimTwice(l, q, p, a.now, [t], Visited(q, c, a, limits, rest));
      }
    }
  }

  /** One turn of a round: the first member is pruned, and served or passed over. */
  lemma ScanTurn(l: Lane, c: Config, a: Ask, limits: map<Tenant, int>, members: seq<Tenant>)
    returns (q: Lane, serves: bool)
    requires Sane(c) && members != []
    ensures q == Prune(l, members[0], a.now).(ring := q.ring)
    ensures var (t, rest, r) := (members[0], members[1..], Scan(l, c, a, limits, members));
            if serves then
              Ready(q, t) != [] && r == (Serve(q, c, a, t), Some(t)) && Visited(l, c, a, limits, members) == [t]
            else
              && r == Scan(q, c, a, limits, rest)
              && Visited(l, c, a, limits, members) == [t] + Visited(q, c, a, limits, rest)
  {
    var t := members[0];
    q := Prune(l, t, a.now);
    var under := Under(limits, t, |Held(q, t)|);
    serves := under && Ready(q, t) != [];
    if under && !serves { q := q.(ring := q.ring - {t}); }
  }

  function RoundsVisited(l: Lane, c: Config, a: Ask, shares: map<Tenant, int>, caps: map<Tenant, int>,
                         members: seq<Tenant>): seq<Tenant>
    requires Sane(c)
  {
    var (first, served) := Scan(l, c, a, shares, members);
    Visited(l, c, a, shares, members) + if served.Some? then [] else Visited(first, c, a, caps, members)
  }

  lemma RoundsTrim(l: Lane, c: Config, a: Ask, shares: map<Tenant, int>, caps: map<Tenant, int>, members: seq<Tenant>)
    returns (p: Lane)
    requires Sane(c)
    ensures Trimmed(l, p, a.now, RoundsVisited(l, c, a, shares, caps, members))
    ensures var r := Rounds(l, c, a, shares, caps, members);
            match r.1
            case None => r.0 == p
            case Some(t) => Ready(p, t) != [] && r.0 == Serve(p, c, a, t)
  {
    p := ScanTrims(l, c, a, shares, members);
    var first := Visited(l, c, a, shares, members);
    if Scan(l, c, a, shares, members).1.None? {
      var q := p;
      p := ScanTrims(q, c, a, caps, members);
      TrimTwice(l, q, p, a.now, first, Visited(q, c, a, caps, members));
    } else {
      assert first + [] == first;
    }
  }

  /** The tenants a checkout prunes. */
  function CheckoutVisited(l: Lane, c: Config, a: Ask, members: seq<Tenant>): seq<Tenant>
    requires Sane(c)
  {
    if BudgetFull(l, c, a) then []
    else RoundsVisited(l.(leases := Live(l.leases, a.now)), c, a, Shares(l, c, a), Caps(l, c), members)
  }

  /** A checkout sweeps the global set, trims the tenants it visits, and then either stops or serves. */
  lemma CheckoutTrims(l: Lane, c: Config, a: Ask, members: seq<Tenant>) returns (p: Lane)
    requires Sane(c)
    ensures Trimmed(l.(leases := Live(l.leases, a.now)), p, a.now, CheckoutVisited(l, c, a, members))
    ensures var r := Checkout(l, c, a, members);
            match r.1
            case None => r.0 == p
            case Some(t) => Ready(p, t) != [] && r.0 == Serve(p, c, a, t)
  {
    p := l.(leases := Live(l.leases, a.now));
    if !BudgetFull(l, c, a) { p := RoundsTrim(p, c, a, Shares(l, c, a), Caps(l, c), members); }
  }

  // ---------- concurrency bounds ----------

  ghost predicate HeldBounded(held: map<Tenant, map<Slot, real>>, cap: int) {
    cap > 0 ==> forall t :: t in held ==> |held[t]| <= cap
  }

  ghost predicate Bounded(l: Lane, c: Config) {
    (c.budget > 0 ==> |l.leases| <= c.budget) && HeldBounded(l.held, c.cap)
  }

  lemma LiveSmaller(z: map<Slot, real>, now: real)
    ensures |Live(z, now)| <= |z|
  {
    SubsetSize(Live(z, now).Keys, z.Keys);
  }

  lemma RemoveSmaller(z: map<Slot, real>, s: Slot)
    ensures |z - {s}| <= |z|
  {
    SubsetSize((z - {s}).Keys, z.Keys);
  }

  lemma AddOne(z: map<Slot, real>, s: Slot, v: real)
    ensures |z[s := v]| <= |z| + 1
    ensures s in z ==> |z[s := v]| == |z|
  {
    assert z[s := v].Keys == z.Keys + {s};
  }

  ghost predicate Limits(limits: map<Tenant, int>, cap: int, members: seq<Tenant>) {
    && (forall i :: 0 <= i < |members| ==> members[i] in limits)
    && (cap > 0 ==> forall t :: t in limits ==> 1 <= limits[t] <= cap)
  }

  lemma PruneBounded(l: Lane, cap: int, t: Tenant, now: real)
    requires HeldBounded(l.held, cap)
    ensures HeldBounded(Prune(l, t, now).held, cap)
  {
    LiveSmaller(Held(l, t), now);
  }

  lemma ServeBounded(l: Lane, c: Config, a: Ask, t: Tenant)
    requires Sane(c) && HeldBounded(l.held, c.cap) && Ready(l, t) != [] && (c.cap > 0 ==> |Held(l, t)| < c.cap)
    ensures HeldBounded(Serve(l, c, a, t).held, c.cap) && |Serve(l, c, a, t).leases| <= |l.leases| + 1
  {
    AddOne(l.leases, a.slot, a.now + c.ttl);
    AddOne(Held(l, t), a.slot, a.now + c.ttl);
  }

  lemma {:induction false} ScanBounded(l: Lane, c: Config, a: Ask, limits: map<Tenant, int>, members: seq<Tenant>)
    requires Sane(c) && HeldBounded(l.held, c.cap) && Limits(limits, c.cap, members)
    ensures var r := Scan(l, c, a, limits, members);
            && HeldBounded(r.0.held, c.cap)
            && (if r.1.Some? then |r.0.leases| <= |l.leases| + 1 else r.0.leases == l.leases)
    decreases |members|
  {
    if members != [] {
      var t := members[0];
      var p := Prune(l, t, a.now);
      PruneBounded(l, c.cap, t, a.now);
      assert Limits(limits, c.cap, members[1..]);
      if !Under(limits, t, |Held(p, t)|) {
        ScanBounded(p, c, a, limits, members[1..]);
      } else if Ready(p, t) == [] {
        ScanBounded(p.(ring := p.ring - {t}), c, a, limits, members[1..]);
      } else {
        ServeBounded(p, c, a, t);
      }
    }
  }

  lemma RoundsBounded(l: Lane, c: Config, a: Ask, shares: map<Tenant, int>, caps: map<Tenant, int>,
                      members: seq<Tenant>)
    requires Sane(c) && HeldBounded(l.held, c.cap) && Limits(shares, c.cap, members) && Limits(caps, c.cap, members)
    ensures var r := Rounds(l, c, a, shares, caps, members).0;
            HeldBounded(r.held, c.cap) && |r.leases| <= |l.leases| + 1
  {
    ScanBounded(l, c, a, shares, members);
    var first := Scan(l, c, a, shares, members);
    if first.1.None? { ScanBounded(first.0, c, a, caps, members); }
  }

  lemma CheckoutBounded(l: Lane, c: Config, a: Ask, members: seq<Tenant>)
    requires Sane(c) && Bounded(l, c) && IsRange(l.ring, c.fetchN, members)
    ensures Bounded(Checkout(l, c, a, members).0, c)
  {
    var p := l.(leases := Live(l.leases, a.now));
    LiveSmaller(l.leases, a.now);
    if !BudgetFull(l, c, a) { RoundsBounded(p, c, a, Shares(l, c, a), Caps(l, c), members); }
  }

  lemma OthersKeepLeases(l: Lane, c: Config, s: Step)
    requires Sane(c) && (s.Put? || s.ConfirmStep? || s.ResetStep?)
    ensures Next(l, c, s).leases == l.leases && Next(l, c, s).held == l.held
  {
  }

  lemma Shrunk(l: Lane, l': Lane, c: Config, t: Tenant)
    requires Bounded(l, c) && |l'.leases| <= |l.leases|
    requires l'.held == l.held[t := Held(l', t)] && |Held(l', t)| <= |Held(l, t)|
    ensures Bounded(l', c)
  {
  }

  lemma ReleaseBounded(l: Lane, c: Config, s: Slot, t: Tenant)
    requires Sane(c) && Bounded(l, c)
    ensures Bounded(Abort(l, c, s, t), c) && Bounded(Complete(l, s, t), c)
  {
    CompleteBounded(l, c, s, t);
    SameLeasesBounded(Complete(l, s, t), Abort(l, c, s, t), c);
  }

  lemma CompleteBounded(l: Lane, c: Config, s: Slot, t: Tenant)
    requires Bounded(l, c)
    ensures Bounded(Complete(l, s, t), c)
  {
    RemoveSmaller(l.leases, s);
    RemoveSmaller(Held(l, t), s);
    Shrunk(l, Complete(l, s, t), c, t);
  }

  lemma SameLeasesBounded(l: Lane, l': Lane, c: Config)
    requires Bounded(l, c)
    ensures l'.leases == l.leases && l'.held == l.held ==> Bounded(l', c)
  {
  }

  lemma RenewBounded(l: Lane, c: Config, s: Slot, t: Tenant, expiry: real)
    requires Bounded(l, c)
    ensures var g := l.(leases := Renewed(l.leases, s, expiry));
            Bounded(g, c) && Bounded(RenewHeld(g, s, t, expiry), c) && Bounded(RenewHeld(l, s, t, expiry), c)
  {
    AddOne(l.leases, s, expiry);
    AddOne(Held(l, t), s, expiry);
    var g := l.(leases := Renewed(l.leases, s, expiry));
    Shrunk(l, RenewHeld(g, s, t, expiry), c, t);
    Shrunk(l, RenewHeld(l, s, t, expiry), c, t);
  }

  lemma SweepBounded(l: Lane, c: Config, t: Tenant, now: real)
    requires Bounded(l, c)
    ensures Bounded(l.(leases := Live(l.leases, now)), c) && Bounded(Prune(l, t, now), c)
  {
    LiveSmaller(l.leases, now);
    LiveSmaller(Held(l, t), now);
    Shrunk(l, Prune(l, t, now), c, t);
  }

  lemma StepBounded(l: Lane, c: Config, s: Step)
    requires Sane(c) && Bounded(l, c) && !s.RearmStep? && Enabled(l, c, s)
    ensures Bounded(Next(l, c, s), c)
  {
    match s {
      case Take(a, members) => CheckoutBounded(l, c, a, members);
      case AbortStep(s, t) => ReleaseBounded(l, c, s, t);
      case CompleteStep(s, t) => ReleaseBounded(l, c, s, t);
      case RenewStep(s, t, now) => RenewBounded(l, c, s, t, now + c.ttl);
      case RenewGlobal(s, now) => RenewBounded(l, c, s, "", now + c.ttl);
      case RenewTenant(s, t, now) => RenewBounded(l, c, s, t, now + c.ttl);
      case SweepGlobal(now) => SweepBounded(l, c, "", now);
      case SweepTenant(t, now) => SweepBounded(l, c, t, now);
      case _ => OthersKeepLeases(l, c, s);
    }
  }

  /** On every run without re-arming, whatever the clocks say and however renewals interleave, the
      lease sets stay within a positive budget and a positive cap. */
  lemma {:induction false} RunBounded(l: Lane, c: Config, steps: seq<Step>)
    requires Sane(c) && Bounded(l, c) && Feasible(l, c, steps)
    requires forall i :: 0 <= i < |steps| ==> !steps[i].RearmStep?
    ensures Bounded(Run(l, c, steps), c)
    decreases |steps|
  {
    if steps != [] {
      StepBounded(l, c, steps[0]);
      RunBounded(Next(l, c, steps[0]), c, steps[1..]);
    }
  }
}
