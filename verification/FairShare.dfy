/**
 The weighted fairness bound of the throughput lane. In a busy period, with constant weights and
 without aborts, virtual times stay within one service of each other, so two tenants that stay
 backlogged receive service in proportion to their weights up to one job each.
 */
module FairShare {
  import opened Collections
  import opened FairScheduler
  import opened FairRuns

  function Cost(l: Lane, c: Config, t: Tenant): real
    requires Sane(c)
  {
    1.0 / Weight(l, c, t)
  }

  lemma CostPositive(l: Lane, c: Config, t: Tenant)
    requires Sane(c)
    ensures Cost(l, c, t) > 0.0
  {
  }

  /** A step of a busy period: nothing is aborted, a checkout finds the budget full or the head of the
      ring under its in-flight share, and the ring does not run empty. */
  ghost predicate Busy(l: Lane, c: Config, s: Step)
    requires Sane(c)
  {
    && Enabled(l, c, s) && !s.AbortStep?
    && (s.Take? && s.members != [] ==> Exhausted(l, c, s.a) || UnderShare(l, c, s.a, s.members[0]))
    && Next(l, c, s).ring != map[]
  }

  ghost predicate BusyRun(l: Lane, c: Config, steps: seq<Step>)
    requires Sane(c)
    decreases |steps|
  {
    steps == [] || (Busy(l, c, steps[0]) && BusyRun(Next(l, c, steps[0]), c, steps[1..]))
  }

  /** Which tenant a step serves. */
  ghost function ServedBy(l: Lane, c: Config, s: Step): Option<Tenant>
    requires Sane(c)
  {
    if s.Take? then Checkout(l, c, s.a, s.members).1 else None
  }

  /** No tenant's virtual time, in the ring or remembered, exceeds the ring minimum by more than the
      cost of one of its jobs. */
  ghost predicate LevelWith(ring: map<Tenant, real>, vtime: map<Tenant, real>, cost: Tenant -> real) {
    && ring != map[] && Least(ring) >= 0.0
    && (forall t :: t in ring ==> t in vtime && ring[t] == vtime[t])
    && (forall t :: t in vtime ==> vtime[t] <= Least(ring) + cost(t))
  }

  function Costs(weights: map<Tenant, real>, c: Config): Tenant -> real
    requires Sane(c)
  {
    t => 1.0 / (if t in weights && weights[t] > 0.0 then weights[t] else c.defaultWeight)
  }

  ghost predicate Level(l: Lane, c: Config)
    requires Sane(c)
  {
    LevelWith(l.ring, l.vtime, Costs(l.weights, c))
  }

  lemma LeastAtLeast(z: map<Tenant, real>, m: real)
    requires z != map[] && forall t :: t in z ==> z[t] >= m
    ensures Least(z) >= m
  {
  }

  lemma ServeKeepsLevel(ring: map<Tenant, real>, vtime: map<Tenant, real>, cost: Tenant -> real, t: Tenant,
                        ring': map<Tenant, real>)
    requires LevelWith(ring, vtime, cost) && cost(t) > 0.0
    requires t in ring && ring[t] == Least(ring) && ring' != map[]
    requires ring' == ring - {t} || ring' == ring[t := ring[t] + cost(t)]
    ensures LevelWith(ring', vtime[t := ring[t] + cost(t)], cost)
  {
    LeastAtLeast(ring', Least(ring));
  }

  lemma SeedKeepsLevel(ring: map<Tenant, real>, vtime: map<Tenant, real>, cost: Tenant -> real, t: Tenant, v: real)
    requires LevelWith(ring, vtime, cost) && cost(t) > 0.0 && t !in ring
    requires var own := if t in vtime then vtime[t] else 0.0;
             v == if Least(ring) > own then Least(ring) else own
    ensures LevelWith(ring[t := v], vtime[t := v], cost)
  {
    assert ring[t := v] != map[] by { assert t in ring[t := v]; }
    LeastAtLeast(ring[t := v], Least(ring));
  }

  lemma ServeCharges(p: Lane, c: Config, a: Ask, t: Tenant)
    requires Sane(c) && Ready(p, t) != [] && t in p.ring
    ensures var p', v := Serve(p, c, a, t), p.ring[t] + Cost(p, c, t);
            p'.weights == p.weights && p'.vtime == p.vtime[t := v]
            && (p'.ring == p.ring - {t} || p'.ring == p.ring[t := v])
  {
  }

  /** Rounds that find the head of the ring under its share serve that head. */
  lemma HeadServed(l: Lane, c: Config, a: Ask, shares: map<Tenant, int>, caps: map<Tenant, int>, members: seq<Tenant>)
    requires Sane(c) && Exact(l) && l.ring != map[] && IsRange(l.ring, c.fetchN, members)
    requires members != [] && Free(l, a, shares, members[0])
    ensures Rounds(l, c, a, shares, caps, members).1 == Some(members[0])
    ensures Charged(l, Rounds(l, c, a, shares, caps, members).0, c, Some(members[0]))
  {
    assert FirstFree(l, a, shares, members) == 0;
    var p := FirstRoundFinds(l, c, a, shares, caps, members);
    HeadIsLeast(l.ring, c.fetchN, members);
    PrunedCharges(l, p, c, a, members[0]);
  }

  lemma PrunedCharges(l: Lane, p: Lane, c: Config, a: Ask, t: Tenant)
    requires Sane(c) && OnlyPruned(l, p, a.now) && Ready(p, t) != []
    requires t in l.ring && l.ring != map[] && l.ring[t] == Least(l.ring)
    ensures Charged(l, Serve(p, c, a, t), c, Some(t))
  {
    ServeCharges(p, c, a, t);
    assert Cost(p, c, t) == Cost(l, c, t);
  }

  /** What a busy checkout does to ring and virtual times. */
  ghost predicate Charged(l: Lane, l': Lane, c: Config, served: Option<Tenant>)
    requires Sane(c)
  {
    l'.weights == l.weights &&
    match served
    case None => l'.ring == l.ring && l'.vtime == l.vtime
    case Some(t) =>
      var v := if t in l.ring then l.ring[t] + Cost(l, c, t) else 0.0;
      && t in l.ring && l.ring != map[] && l.ring[t] == Least(l.ring)
      && l'.vtime == l.vtime[t := v] && (l'.ring == l.ring - {t} || l'.ring == l.ring[t := v])
  }

  lemma ChargedRebased(l: Lane, q: Lane, l': Lane, c: Config, served: Option<Tenant>)
    requires Sane(c) && q == l.(leases := q.leases) && Charged(q, l', c, served)
    ensures Charged(l, l', c, served)
  {
    if served.Some? { assert Cost(q, c, served.value) == Cost(l, c, served.value); }
  }

  lemma CheckoutCharges(l: Lane, c: Config, a: Ask, shares: map<Tenant, int>, members: seq<Tenant>)
    requires Sane(c) && Exact(l) && l.ring != map[] && IsRange(l.ring, c.fetchN, members)
    requires shares == Shares(l, c, a) && members != [] && (BudgetFull(l, c, a) || Free(l, a, shares, members[0]))
    ensures Charged(l, Checkout(l, c, a, members).0, c, Checkout(l, c, a, members).1)
  {
    if !BudgetFull(l, c, a) {
      var q := l.(leases := Live(l.leases, a.now));
      HeadServed(q, c, a, shares, Caps(l, c), members);
      ChargedRebased(l, q, Checkout(l, c, a, members).0, c, Some(members[0]));
    }
  }

  lemma BusyTake(l: Lane, c: Config, s: Step)
    requires Sane(c) && Exact(l) && l.ring != map[] && s.Take? && Busy(l, c, s)
    ensures Charged(l, Next(l, c, s), c, ServedBy(l, c, s))
  {
    assert |s.members| >= 1;
    FreeIffUnderShare(l, c, s.a, s.members[0]);
    FullIffExhausted(l, c, s.a);
    CheckoutCharges(l, c, s.a, Shares(l, c, s.a), s.members);
  }

  lemma HeadIsLeast(z: map<Tenant, real>, n: nat, members: seq<Tenant>)
    requires z != map[] && members != [] && IsRange(z, n, members)
    ensures z[members[0]] == Least(z)
  {
    forall t | t in z ensures z[members[0]] <= z[t] {
      if t in members {
        var j :| 0 <= j < |members| && members[j] == t;
      }
    }
  }

  lemma ChargeKeepsLevel(l: Lane, l': Lane, c: Config, served: Option<Tenant>)
    requires Sane(c) && Level(l, c) && Charged(l, l', c, served) && l'.ring != map[]
    ensures Level(l', c)
  {
    if served.Some? {
      var t := served.value;
      assert Costs(l.weights, c)(t) == Cost(l, c, t);
      CostPositive(l, c, t);
      ServeKeepsLevel(l.ring, l.vtime, Costs(l.weights, c), t, l'.ring);
    }
  }

  /** What an enqueue does to ring and virtual times. */
  lemma EnqueueSeeds(l: Lane, c: Config, t: Tenant, job: Job)
    requires l.ring != map[]
    ensures var l' := Enqueue(l, c, t, job).0;
            var v := if Least(l.ring) > Vtime(l, t) then Least(l.ring) else Vtime(l, t);
            && l'.weights == l.weights
            && (|| (l'.ring == l.ring && l'.vtime == l.vtime)
                || (t !in l.ring && l'.ring == l.ring[t := v] && l'.vtime == l.vtime[t := v]))
  {
  }

  lemma PutKeepsLevel(l: Lane, c: Config, s: Step)
    requires Sane(c) && Level(l, c) && s.Put?
    ensures Level(Next(l, c, s), c)
  {
    var t := s.t;
    EnqueueSeeds(l, c, t, s.job);
    if t !in l.ring {
      var cost := Costs(l.weights, c);
      assert cost(t) == Cost(l, c, t);
      CostPositive(l, c, t);
      var v := if Least(l.ring) > Vtime(l, t) then Least(l.ring) else Vtime(l, t);
      SeedKeepsLevel(l.ring, l.vtime, cost, t, v);
    }
  }

  /** The other steps leave ring, virtual times and weights alone. */
  lemma OthersKeepRing(l: Lane, c: Config, s: Step)
    requires Sane(c) && l.ring != map[] && !s.Take? && !s.Put? && !s.AbortStep?
    ensures var l' := Next(l, c, s); l'.ring == l.ring && l'.vtime == l.vtime && l'.weights == l.weights
  {
  }

  lemma StepKeepsLevel(l: Lane, c: Config, s: Step)
    requires Sane(c) && Exact(l) && Level(l, c) && Busy(l, c, s)
    ensures Level(Next(l, c, s), c)
  {
    if s.Take? {
      BusyTake(l, c, s);
      ChargeKeepsLevel(l, Next(l, c, s), c, ServedBy(l, c, s));
    } else if s.Put? {
      PutKeepsLevel(l, c, s);
    } else {
      OthersKeepRing(l, c, s);
    }
  }

  lemma {:induction false} RunKeepsLevel(l: Lane, c: Config, steps: seq<Step>)
    requires Sane(c) && Exact(l) && Level(l, c) && BusyRun(l, c, steps)
    ensures Exact(Run(l, c, steps)) && Level(Run(l, c, steps), c)
    ensures Run(l, c, steps).weights == l.weights
    decreases |steps|
  {
    if steps != [] {
      StepExact(l, c, steps[0]);
      StepKeepsLevel(l, c, steps[0]);
      SameWeights(l, c, steps[0]);
      RunKeepsLevel(Next(l, c, steps[0]), c, steps[1..]);
    }
  }

  lemma SameWeights(l: Lane, c: Config, s: Step)
    requires Sane(c) && Exact(l) && l.ring != map[] && Busy(l, c, s)
    ensures Next(l, c, s).weights == l.weights
  {
    if s.Take? { BusyTake(l, c, s); }
  }

  // ---------- service received ----------

  /** The tenants served by a run, in order. */
  ghost function Services(l: Lane, c: Config, steps: seq<Step>): seq<Option<Tenant>>
    requires Sane(c)
    decreases |steps|
  {
    if steps == [] then [] else [ServedBy(l, c, steps[0])] + Services(Next(l, c, steps[0]), c, steps[1..])
  }

  function Times(services: seq<Option<Tenant>>, t: Tenant): nat {
    if services == [] then 0 else (if services[0] == Some(t) then 1 else 0) + Times(services[1..], t)
  }

  ghost function Jobs(l: Lane, c: Config, steps: seq<Step>, t: Tenant): nat
    requires Sane(c)
  {
    Times(Services(l, c, steps), t)
  }

  /** The tenant is in the ring in every state of the run. */
  ghost predicate Backlogged(l: Lane, c: Config, steps: seq<Step>, t: Tenant)
    requires Sane(c)
    decreases |steps|
  {
    t in l.ring && (steps != [] ==> Backlogged(Next(l, c, steps[0]), c, steps[1..], t))
  }

  /** A backlogged tenant's virtual time advances by its cost per job and not otherwise. */
  lemma StepCharges(l: Lane, c: Config, s: Step, t: Tenant)
    requires Sane(c) && Exact(l) && Busy(l, c, s) && t in l.ring && t in Next(l, c, s).ring
    ensures Next(l, c, s).ring[t] == l.ring[t] + if ServedBy(l, c, s) == Some(t) then Cost(l, c, t) else 0.0
  {
    if s.Take? {
      BusyTake(l, c, s);
    } else if !s.Put? {
      OthersKeepRing(l, c, s);
    }
  }

  function Paid(services: seq<Option<Tenant>>, t: Tenant, x: real): real {
    if services == [] then 0.0 else (if services[0] == Some(t) then x else 0.0) + Paid(services[1..], t, x)
  }

  lemma {:induction false} PaidPerJob(services: seq<Option<Tenant>>, t: Tenant, x: real)
    ensures Paid(services, t, x) == Times(services, t) as real * x
  {
    if services != [] {
      PaidPerJob(services[1..], t, x);
      AddCharge(Times(services[1..], t), x);
    }
  }

  lemma AddCharge(n: nat, x: real)
    ensures (1 + n) as real * x == x + n as real * x
  {
  }

  lemma {:induction false} RunCharges(l: Lane, c: Config, steps: seq<Step>, t: Tenant, x: real)
    requires Sane(c) && Exact(l) && BusyRun(l, c, steps) && Backlogged(l, c, steps, t) && x == Cost(l, c, t)
    ensures t in Run(l, c, steps).ring
    ensures Run(l, c, steps).ring[t] == l.ring[t] + Paid(Services(l, c, steps), t, x)
    decreases |steps|
  {
    if steps != [] {
      var l' := Next(l, c, steps[0]);
      assert t in l'.ring;
      StepExact(l, c, steps[0]);
      SameCost(l, c, steps[0], t);
      StepCharges(l, c, steps[0], t);
      RunCharges(l', c, steps[1..], t, x);
      assert Services(l, c, steps)[1..] == Services(l', c, steps[1..]);
    }
  }

  lemma SameCost(l: Lane, c: Config, s: Step, t: Tenant)
    requires Sane(c) && Exact(l) && l.ring != map[] && Busy(l, c, s)
    ensures Cost(Next(l, c, s), c, t) == Cost(l, c, t)
  {
    SameWeights(l, c, s);
  }

  lemma Closeness(l: Lane, c: Config, i: Tenant, j: Tenant)
    requires Sane(c) && Level(l, c) && i in l.ring && j in l.ring
    ensures -Cost(l, c, j) <= l.ring[i] - l.ring[j] <= Cost(l, c, i)
  {
    var cost := Costs(l.weights, c);
    assert cost(i) == Cost(l, c, i) && cost(j) == Cost(l, c, j);
    assert l.ring[i] <= Least(l.ring) + cost(i) && l.ring[j] <= Least(l.ring) + cost(j);
  }

  /** m jobs of tenant i and n jobs of tenant j are in proportion to their weights, the default where none
      is set or it is not positive, up to one job of each. */
  ghost predicate Proportional(weights: map<Tenant, real>, c: Config, i: Tenant, m: nat, j: Tenant, n: nat)
    requires Sane(c)
  {
    var wi := if i in weights && weights[i] > 0.0 then weights[i] else c.defaultWeight;
    var wj := if j in weights && weights[j] > 0.0 then weights[j] else c.defaultWeight;
    -(1.0 / wi + 1.0 / wj) <= m as real / wi - n as real / wj <= 1.0 / wi + 1.0 / wj
  }

  /** The bound, from any level state: over any busy interval in which i and j stay backlogged, the
      weighted service they receive differs by at most one job of each. */
  lemma FairnessBound(l: Lane, c: Config, steps: seq<Step>, i: Tenant, j: Tenant)
    requires Sane(c) && Exact(l) && Level(l, c) && BusyRun(l, c, steps)
    requires Backlogged(l, c, steps, i) && Backlogged(l, c, steps, j)
    ensures Proportional(l.weights, c, i, Jobs(l, c, steps, i), j, Jobs(l, c, steps, j))
  {
    Separation(l, c, steps, i, j, Cost(l, c, i), Cost(l, c, j));
    PerJob(Services(l, c, steps), i, Weight(l, c, i), Cost(l, c, i), j, Weight(l, c, j), Cost(l, c, j));
  }

  lemma Separation(l: Lane, c: Config, steps: seq<Step>, i: Tenant, j: Tenant, xi: real, xj: real)
    requires Sane(c) && Exact(l) && Level(l, c) && BusyRun(l, c, steps)
    requires Backlogged(l, c, steps, i) && Backlogged(l, c, steps, j)
    requires xi == Cost(l, c, i) && xj == Cost(l, c, j)
    ensures -(xi + xj) <= Paid(Services(l, c, steps), i, xi) - Paid(Services(l, c, steps), j, xj) <= xi + xj
  {
    var l' := Run(l, c, steps);
    RunCharges(l, c, steps, i, xi);
    RunCharges(l, c, steps, j, xj);
    RunKeepsLevel(l, c, steps);
    Closeness(l, c, i, j);
    Closeness(l', c, i, j);
    assert Cost(l', c, i) == xi && Cost(l', c, j) == xj;
  }

  lemma PerJob(services: seq<Option<Tenant>>, i: Tenant, wi: real, xi: real, j: Tenant, wj: real, xj: real)
    requires wi > 0.0 && wj > 0.0 && xi == 1.0 / wi && xj == 1.0 / wj
    requires -(xi + xj) <= Paid(services, i, xi) - Paid(services, j, xj) <= xi + xj
    ensures -(xi + xj) <= Times(services, i) as real / wi - Times(services, j) as real / wj <= xi + xj
  {
    Quotient(services, i, wi, xi);
    Quotient(services, j, wj, xj);
  }

  lemma Quotient(services: seq<Option<Tenant>>, t: Tenant, w: real, x: real)
    requires w > 0.0 && x == 1.0 / w
    ensures Times(services, t) as real / w == Paid(services, t, x)
  {
    PaidPerJob(services, t, x);
    Division(Times(services, t) as real, w);
  }

  lemma Division(n: real, w: real)
    requires w > 0.0
    ensures n / w == n * (1.0 / w)
  {
  }

  // ---------- whole busy periods ----------

  /** No tenant is in the ring and no virtual time is remembered; leases may linger. */
  ghost predicate Cleared(l: Lane) { Exact(l) && l.ring == map[] && l.vtime == map[] }

  /** A new lane is cleared, and so is one whose idle reset went through. */
  lemma ResetClears(l: Lane, now: real, weights: map<Tenant, real>)
    requires Exact(l) && l.ring == map[] && Live(l.leases, now) == map[] && l.fwd == map[]
    ensures Cleared(ResetVtime(l, now)) && Cleared(Empty(weights))
  {
  }

  /** The first job enqueued on a cleared lane makes the lane level. */
  lemma FirstJobLevels(l: Lane, c: Config, t: Tenant, job: Job)
    requires Sane(c) && Cleared(l) && Enqueue(l, c, t, job).1
    ensures var l' := Enqueue(l, c, t, job).0; Exact(l') && Level(l', c) && l'.weights == l.weights
  {
    StepExact(l, c, Put(t, job));
    var l' := Enqueue(l, c, t, job).0;
    assert l'.ring == map[t := 0.0] && l'.vtime == map[t := 0.0];
    CostPositive(l', c, t);
    assert Costs(l'.weights, c)(t) == Cost(l', c, t);
  }

  /** A busy period that begins there stays level throughout. */
  lemma BusyPeriodLevel(l: Lane, c: Config, t: Tenant, job: Job, steps: seq<Step>)
    requires Sane(c) && Cleared(l) && Enqueue(l, c, t, job).1 && BusyRun(Enqueue(l, c, t, job).0, c, steps)
    ensures var l' := Run(Enqueue(l, c, t, job).0, c, steps);
            && Exact(l') && Level(l', c) && l'.weights == l.weights
            && forall u :: u in l'.ring ==> l'.ring[u] <= Least(l'.ring) + 1.0 / Weight(l', c, u)
  {
    FirstJobLevels(l, c, t, job);
    RunKeepsLevel(Enqueue(l, c, t, job).0, c, steps);
    var l' := Run(Enqueue(l, c, t, job).0, c, steps);
    forall u | u in l'.ring ensures l'.ring[u] <= Least(l'.ring) + 1.0 / Weight(l', c, u) {
      assert Costs(l'.weights, c)(u) == 1.0 / Weight(l', c, u);
    }
  }

  /** End to end: on a cleared lane a first job arrives, a busy prefix follows, and then an interval of
      the same busy period in which i and j stay backlogged. Over it they receive jobs in proportion
      to their weights up to one job each. */
  lemma FairOverInterval(l: Lane, c: Config, t: Tenant, job: Job, prefix: seq<Step>, steps: seq<Step>, i: Tenant,
                         j: Tenant)
    requires Sane(c) && Cleared(l) && Enqueue(l, c, t, job).1 && BusyRun(Enqueue(l, c, t, job).0, c, prefix)
    requires var start := Run(Enqueue(l, c, t, job).0, c, prefix);
             BusyRun(start, c, steps) && Backlogged(start, c, steps, i) && Backlogged(start, c, steps, j)
    ensures var start := Run(Enqueue(l, c, t, job).0, c, prefix);
            Proportional(l.weights, c, i, Jobs(start, c, steps, i), j, Jobs(start, c, steps, j))
  {
    BusyPeriodLevel(l, c, t, job, prefix);
    var start := Run(Enqueue(l, c, t, job).0, c, prefix);
    FairnessBound(start, c, steps, i, j);
  }
}
