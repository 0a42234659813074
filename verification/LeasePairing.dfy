/**
 Every slot in the global lease set is also in its tenant's lease set, with the same expiry unless
 a renewal of it is between its two writes.

 A renewal is two pipelined writes, the global set first; other clients may run between them. The
 pair survives exactly when the tenant set is not pruned at or after the old expiry in between. Clocks
 of different clients need not agree, but no lease may be written that the latest sweep has passed.
 */
module LeasePairing {
  import opened Collections
  import opened FairScheduler
  import FairRuns

  /** owner remembers the tenant of every slot ever checked out, swept is the latest time the global
      set was swept at, and renewing holds the expiry of renewals whose second write is to come. */
  datatype World = World(l: Lane, owner: map<Slot, Tenant>, swept: real, renewing: map<Slot, real>)

  /** Pruning the tenant at this time drops no live lease whose renewal is in progress. */
  ghost predicate Spares(w: World, t: Tenant, now: real) {
    forall s :: s in w.renewing && s in Live(w.l.leases, now) && s in w.owner && w.owner[s] == t ==>
      s in Held(w.l, t) ==> Held(w.l, t)[s] > now
  }

  ghost predicate SparesAll(w: World, tenants: seq<Tenant>, now: real) { forall t <- tenants :: Spares(w, t, now) }

  ghost predicate Enabled(w: World, c: Config, s: FairRuns.Step)
    requires Sane(c)
  {
    match s
    case Take(a, members) =>
      && IsRange(w.l.ring, c.fetchN, members) && a.slot !in w.owner && a.slot !in w.renewing
      && a.now + c.ttl > w.swept
      && SparesAll(w, FairRuns.CheckoutVisited(w.l, c, a, members), a.now)
    case RenewStep(s, t, now) => (s in w.owner ==> w.owner[s] == t) && s !in w.renewing && now + c.ttl > w.swept
    case RenewGlobal(s, now) => s !in w.renewing && now + c.ttl > w.swept
    case RenewTenant(s, t, now) => (s in w.owner ==> w.owner[s] == t) && s in w.renewing && w.renewing[s] == now + c.ttl
    case RearmStep(s, t, now) => s in w.owner && w.owner[s] == t && s !in w.renewing && now + c.ttl > w.swept
    case SweepTenant(t, now) => now <= w.swept && Spares(w, t, now)
    case _ => true
  }

  function Later(a: real, b: real): real { if a < b then b else a }

  ghost function Next(w: World, c: Config, s: FairRuns.Step): World
    requires Sane(c)
  {
    var l := FairRuns.Next(w.l, c, s);
    match s
    case Take(a, members) =>
      var served := Checkout(w.l, c, a, members).1;
      w.(l := l, owner := if served.Some? then w.owner[a.slot := served.value] else w.owner)
    case RenewGlobal(s, now) => w.(l := l, renewing := w.renewing[s := now + c.ttl])
    case RenewTenant(s, t, now) => w.(l := l, renewing := w.renewing - {s})
    case SweepGlobal(now) => w.(l := l, swept := Later(w.swept, now))
    case _ => w.(l := l)
  }

  /** The slot's tenant holds it too, with the same expiry unless its renewal is in progress. */
  ghost predicate PairedAt(leases: map<Slot, real>, l: Lane, owner: map<Slot, Tenant>, renewing: map<Slot, real>,
                           s: Slot) {
    s in leases ==>
      && s in owner && s in Held(l, owner[s])
      && if s in renewing then leases[s] == renewing[s] else Held(l, owner[s])[s] == leases[s]
  }

  ghost predicate Paired(w: World) {
    forall s :: PairedAt(w.l.leases, w.l, w.owner, w.renewing, s)
  }

  ghost predicate AllAfter(z: map<Slot, real>, now: real) { forall s :: s in z ==> z[s] > now }

  ghost predicate Inv(w: World) { Paired(w) && AllAfter(w.l.leases, w.swept) }

  // ---------- checkouts ----------

  /** Sweeping the global set and pruning these tenants keeps the pairs exactly when it spares the
      renewals in progress. */
  lemma TrimKeepsPairsIff(w: World, p: Lane, now: real, pruned: seq<Tenant>)
    requires Paired(w) && FairRuns.Trimmed(w.l.(leases := Live(w.l.leases, now)), p, now, pruned)
    ensures Paired(w.(l := p)) <==> SparesAll(w, pruned, now)
  {
    forall s ensures SparesAll(w, pruned, now) ==> PairedAt(p.leases, p, w.owner, w.renewing, s) {
      assert PairedAt(w.l.leases, w.l, w.owner, w.renewing, s);
      if s in p.leases && w.owner[s] in pruned && SparesAll(w, pruned, now) { assert Spares(w, w.owner[s], now); }
    }
    if Paired(w.(l := p)) {
      forall t <- pruned ensures Spares(w, t, now) { PairedSpares(w, p, now, pruned, t); }
    }
  }

  lemma PairedSpares(w: World, p: Lane, now: real, pruned: seq<Tenant>, t: Tenant)
    requires FairRuns.Trimmed(w.l.(leases := Live(w.l.leases, now)), p, now, pruned) && t in pruned
    requires Paired(w.(l := p))
    ensures Spares(w, t, now)
  {
    forall s | s in w.renewing && s in Live(w.l.leases, now) && s in w.owner && w.owner[s] == t && s in Held(w.l, t)
      ensures Held(w.l, t)[s] > now
    {
      assert PairedAt(p.leases, p, w.owner, w.renewing, s);
    }
  }

  /** The lease of one slot is written to both sets, and no other lease changes. */
  ghost predicate Leased(l: Lane, l': Lane, slot: Slot, t: Tenant, expiry: real) {
    && l'.leases == l.leases[slot := expiry]
    && (forall u :: Held(l', u) == if u == t then Held(l, t)[slot := expiry] else Held(l, u))
  }

  lemma ServeLeases(l: Lane, c: Config, a: Ask, t: Tenant)
    requires Sane(c) && Ready(l, t) != []
    ensures Leased(l, Serve(l, c, a, t), a.slot, t, a.now + c.ttl)
  {
  }

  lemma LeasedPairedAt(w: World, l': Lane, slot: Slot, t: Tenant, expiry: real, s: Slot)
    requires Leased(w.l, l', slot, t, expiry) && slot !in w.owner && slot !in w.renewing && slot !in w.l.leases
    ensures PairedAt(l'.leases, l', w.owner[slot := t], w.renewing, s)
       <==> PairedAt(w.l.leases, w.l, w.owner, w.renewing, s)
  {
  }

  lemma ServeKeepsPairsIff(w: World, c: Config, a: Ask, t: Tenant)
    requires Sane(c) && a.slot !in w.owner && a.slot !in w.renewing && a.slot !in w.l.leases && Ready(w.l, t) != []
    ensures Paired(w.(l := Serve(w.l, c, a, t), owner := w.owner[a.slot := t])) <==> Paired(w)
  {
    var w' := w.(l := Serve(w.l, c, a, t), owner := w.owner[a.slot := t]);
    ServeLeases(w.l, c, a, t);
    if Paired(w) {
      forall s ensures PairedAt(w'.l.leases, w'.l, w'.owner, w'.renewing, s) {
        assert PairedAt(w.l.leases, w.l, w.owner, w.renewing, s);
        LeasedPairedAt(w, w'.l, a.slot, t, a.now + c.ttl, s);
      }
    }
    if Paired(w') {
      forall s ensures PairedAt(w.l.leases, w.l, w.owner, w.renewing, s) {
        assert PairedAt(w'.l.leases, w'.l, w'.owner, w'.renewing, s);
        LeasedPairedAt(w, w'.l, a.slot, t, a.now + c.ttl, s);
      }
    }
  }

  /** A checkout with a fresh slot keeps the pairs exactly when it spares the renewals in progress of the
      tenants it visits. */
  lemma CheckoutKeepsPairsIff(w: World, c: Config, a: Ask, members: seq<Tenant>)
    requires Sane(c) && Paired(w) && a.slot !in w.owner && a.slot !in w.renewing
    ensures Paired(Next(w, c, FairRuns.Take(a, members)))
       <==> SparesAll(w, FairRuns.CheckoutVisited(w.l, c, a, members), a.now)
  {
    var p := FairRuns.CheckoutTrims(w.l, c, a, members);
    TrimKeepsPairsIff(w, p, a.now, FairRuns.CheckoutVisited(w.l, c, a, members));
    assert PairedAt(w.l.leases, w.l, w.owner, w.renewing, a.slot);
    var served := Checkout(w.l, c, a, members).1;
    if served.Some? { ServeKeepsPairsIff(w.(l := p), c, a, served.value); }
  }

  lemma CheckoutKeepsInv(w: World, c: Config, a: Ask, members: seq<Tenant>)
    requires Sane(c) && Inv(w) && Enabled(w, c, FairRuns.Take(a, members))
    ensures Inv(Next(w, c, FairRuns.Take(a, members)))
  {
    CheckoutKeepsPairsIff(w, c, a, members);
    var p := FairRuns.CheckoutTrims(w.l, c, a, members);
    var served := Checkout(w.l, c, a, members).1;
    if served.Some? { ServeKeepsAfter(p, c, a, served.value, w.swept); }
  }

  lemma ServeKeepsAfter(l: Lane, c: Config, a: Ask, t: Tenant, swept: real)
    requires Sane(c) && AllAfter(l.leases, swept) && a.now + c.ttl > swept && Ready(l, t) != []
    ensures AllAfter(Serve(l, c, a, t).leases, swept)
  {
  }

  // ---------- leases given back, renewed and swept ----------

  lemma ReleaseKeepsInv(w: World, c: Config, s: Slot, t: Tenant)
    requires Sane(c) && Inv(w)
    ensures Inv(w.(l := Complete(w.l, s, t))) && Inv(w.(l := Abort(w.l, c, s, t)))
  {
    forall u ensures PairedAt(Complete(w.l, s, t).leases, Complete(w.l, s, t), w.owner, w.renewing, u)
                  && PairedAt(Abort(w.l, c, s, t).leases, Abort(w.l, c, s, t), w.owner, w.renewing, u)
    {
      assert PairedAt(w.l.leases, w.l, w.owner, w.renewing, u);
    }
  }

  lemma RenewKeepsAfter(z: map<Slot, real>, s: Slot, expiry: real, swept: real)
    requires AllAfter(z, swept) && expiry > swept
    ensures AllAfter(Renewed(z, s, expiry), swept) && AllAfter(z[s := expiry], swept)
  {
  }

  lemma FirstHalfKeepsInv(w: World, c: Config, s: Slot, now: real)
    requires Sane(c) && Inv(w) && Enabled(w, c, FairRuns.RenewGlobal(s, now))
    ensures Inv(Next(w, c, FairRuns.RenewGlobal(s, now)))
  {
    var w' := Next(w, c, FairRuns.RenewGlobal(s, now));
    RenewKeepsAfter(w.l.leases, s, now + c.ttl, w.swept);
    forall u ensures PairedAt(w'.l.leases, w'.l, w'.owner, w'.renewing, u) {
      assert PairedAt(w.l.leases, w.l, w.owner, w.renewing, u);
    }
  }

  lemma SecondHalfKeepsInv(w: World, c: Config, s: Slot, t: Tenant, now: real)
    requires Sane(c) && Inv(w) && Enabled(w, c, FairRuns.RenewTenant(s, t, now))
    ensures Inv(Next(w, c, FairRuns.RenewTenant(s, t, now)))
  {
    var w' := Next(w, c, FairRuns.RenewTenant(s, t, now));
    forall u ensures PairedAt(w'.l.leases, w'.l, w'.owner, w'.renewing, u) {
      assert PairedAt(w.l.leases, w.l, w.owner, w.renewing, u);
    }
  }

  /** Both halves at once, and re-arming, which writes both sets in one script. */
  lemma WholeWriteKeepsInv(w: World, c: Config, s: Slot, t: Tenant, now: real)
    requires Sane(c) && Inv(w) && (s in w.owner ==> w.owner[s] == t) && s !in w.renewing && now + c.ttl > w.swept
    ensures Inv(Next(w, c, FairRuns.RenewStep(s, t, now)))
    ensures s in w.owner ==> Inv(Next(w, c, FairRuns.RearmStep(s, t, now)))
  {
    var (r, m) := (Next(w, c, FairRuns.RenewStep(s, t, now)), Next(w, c, FairRuns.RearmStep(s, t, now)));
    RenewKeepsAfter(w.l.leases, s, now + c.ttl, w.swept);
    forall u ensures PairedAt(r.l.leases, r.l, r.owner, r.renewing, u) {
      assert PairedAt(w.l.leases, w.l, w.owner, w.renewing, u);
    }
    forall u ensures s in w.owner ==> PairedAt(m.l.leases, m.l, m.owner, m.renewing, u) {
      assert PairedAt(w.l.leases, w.l, w.owner, w.renewing, u);
    }
  }

  lemma SweepGlobalKeepsInv(w: World, c: Config, now: real)
    requires Sane(c) && Inv(w)
    ensures Inv(Next(w, c, FairRuns.SweepGlobal(now)))
  {
    var w' := Next(w, c, FairRuns.SweepGlobal(now));
    forall u ensures PairedAt(w'.l.leases, w'.l, w'.owner, w'.renewing, u) {
      assert PairedAt(w.l.leases, w.l, w.owner, w.renewing, u);
    }
  }

  /** A sweep of a tenant set, no later than the global sweep it follows, keeps the pairs exactly when
      it spares the renewals in progress. */
  lemma SweepKeepsInvIffSpares(w: World, c: Config, t: Tenant, now: real)
    requires Sane(c) && Inv(w) && now <= w.swept
    ensures Inv(Next(w, c, FairRuns.SweepTenant(t, now))) <==> Spares(w, t, now)
  {
    var w' := Next(w, c, FairRuns.SweepTenant(t, now));
    forall u ensures Spares(w, t, now) ==> PairedAt(w'.l.leases, w'.l, w'.owner, w'.renewing, u)
    {
      assert PairedAt(w.l.leases, w.l, w.owner, w.renewing, u);
    }
    if Paired(w') {
      forall s | s in w.renewing && s in Live(w.l.leases, now) && s in w.owner && w.owner[s] == t && s in Held(w.l, t)
        ensures Held(w.l, t)[s] > now
      {
        assert PairedAt(w'.l.leases, w'.l, w'.owner, w'.renewing, s);
      }
    }
  }

  lemma StepKeepsInv(w: World, c: Config, s: FairRuns.Step)
    requires Sane(c) && Inv(w) && Enabled(w, c, s)
    ensures Inv(Next(w, c, s))
  {
    match s {
      case Take(a, members) => CheckoutKeepsInv(w, c, a, members);
      case AbortStep(s, t) => ReleaseKeepsInv(w, c, s, t);
      case CompleteStep(s, t) => ReleaseKeepsInv(w, c, s, t);
      case RenewStep(s, t, now) => WholeWriteKeepsInv(w, c, s, t, now);
      case RearmStep(s, t, now) => WholeWriteKeepsInv(w, c, s, t, now);
      case RenewGlobal(s, now) => FirstHalfKeepsInv(w, c, s, now);
      case RenewTenant(s, t, now) => SecondHalfKeepsInv(w, c, s, t, now);
      case SweepGlobal(now) => SweepGlobalKeepsInv(w, c, now);
      case SweepTenant(t, now) => SweepKeepsInvIffSpares(w, c, t, now);
      case _ => OthersKeepInv(w, c, s);
    }
  }

  lemma OthersKeepInv(w: World, c: Config, s: FairRuns.Step)
    requires Sane(c) && Inv(w) && (s.Put? || s.ConfirmStep? || s.ResetStep?)
    ensures Inv(Next(w, c, s))
  {
    FairRuns.OthersKeepLeases(w.l, c, s);
    var w' := Next(w, c, s);
    forall u ensures PairedAt(w'.l.leases, w'.l, w'.owner, w'.renewing, u) {
      assert PairedAt(w.l.leases, w.l, w.owner, w.renewing, u);
    }
  }

  // ---------- runs ----------

  ghost predicate Feasible(w: World, c: Config, steps: seq<FairRuns.Step>)
    requires Sane(c)
    decreases |steps|
  {
    steps == [] || (Enabled(w, c, steps[0]) && Feasible(Next(w, c, steps[0]), c, steps[1..]))
  }

  ghost function Run(w: World, c: Config, steps: seq<FairRuns.Step>): World
    requires Sane(c)
    decreases |steps|
  {
    if steps == [] then w else Run(Next(w, c, steps[0]), c, steps[1..])
  }

  /** Over every run with split renewals that no prune at or after the old expiry interrupts, every
      globally leased slot is held by its own tenant, and with the same expiry once no renewal of it is
      in progress. */
  lemma {:induction false} LeasesPaired(w: World, c: Config, steps: seq<FairRuns.Step>)
    requires Sane(c) && Inv(w) && Feasible(w, c, steps)
    ensures var e := Run(w, c, steps);
            && Inv(e)
            && forall s :: s in e.l.leases ==>
                 && s in e.owner && s in Held(e.l, e.owner[s])
                 && (s !in e.renewing ==> Held(e.l, e.owner[s])[s] == e.l.leases[s])
    decreases |steps|
  {
    if steps == [] {
      forall s | s in w.l.leases
        ensures s in w.owner && s in Held(w.l, w.owner[s])
        ensures s !in w.renewing ==> Held(w.l, w.owner[s])[s] == w.l.leases[s]
      {
        assert PairedAt(w.l.leases, w.l, w.owner, w.renewing, s);
      }
    } else {
      StepKeepsInv(w, c, steps[0]);
      LeasesPaired(Next(w, c, steps[0]), c, steps[1..]);
    }
  }

  /** In particular from a new lane. */
  lemma LeasesPairedFromStart(weights: map<Tenant, real>, swept: real, c: Config, steps: seq<FairRuns.Step>)
    requires Sane(c) && Feasible(World(FairRuns.Empty(weights), map[], swept, map[]), c, steps)
    ensures Inv(Run(World(FairRuns.Empty(weights), map[], swept, map[]), c, steps))
  {
    LeasesPaired(World(FairRuns.Empty(weights), map[], swept, map[]), c, steps);
  }

  // ---------- the exact condition ----------

  /** A sweep of the global set, or of one tenant's set. */
  datatype Sweep = Everywhere(now: real) | OfTenant(now: real)

  function Swept(l: Lane, t: Tenant, sweeps: seq<Sweep>): Lane
    decreases |sweeps|
  {
    if sweeps == [] then l
    else
      match sweeps[0]
      case Everywhere(n) => Swept(l.(leases := Live(l.leases, n)), t, sweeps[1..])
      case OfTenant(n) => Swept(Prune(l, t, n), t, sweeps[1..])
  }

  lemma {:induction false} LateTenant(l: Lane, t: Tenant, s: Slot, sweeps: seq<Sweep>)
    requires s !in Held(l, t)
    ensures s !in Held(Swept(l, t, sweeps), t)
    decreases |sweeps|
  {
    if sweeps != [] {
      LateTenant(l.(leases := Live(l.leases, sweeps[0].now)), t, s, sweeps[1..]);
      LateTenant(Prune(l, t, sweeps[0].now), t, s, sweeps[1..]);
    }
  }

  predicate GlobalBefore(sweeps: seq<Sweep>, expiry: real) { forall w <- sweeps :: w.Everywhere? ==> w.now < expiry }

  /** No sweep of the tenant's set is at or after the given time. */
  predicate TenantBefore(sweeps: seq<Sweep>, expiry: real) { forall w <- sweeps :: w.OfTenant? ==> w.now < expiry }

  lemma TenantBeforeFirst(sweeps: seq<Sweep>, expiry: real)
    requires sweeps != []
    ensures TenantBefore(sweeps, expiry) <==>
              (sweeps[0].OfTenant? ==> sweeps[0].now < expiry) && TenantBefore(sweeps[1..], expiry)
  {
    assert sweeps == [sweeps[0]] + sweeps[1..];
  }

  lemma {:induction false} SweptKeepsGlobal(l: Lane, t: Tenant, s: Slot, sweeps: seq<Sweep>)
    requires s in l.leases && GlobalBefore(sweeps, l.leases[s])
    ensures s in Swept(l, t, sweeps).leases && Swept(l, t, sweeps).leases[s] == l.leases[s]
    decreases |sweeps|
  {
    if sweeps != [] {
      if sweeps[0].Everywhere? {
        SweptKeepsGlobal(l.(leases := Live(l.leases, sweeps[0].now)), t, s, sweeps[1..]);
      } else {
        SweptKeepsGlobal(Prune(l, t, sweeps[0].now), t, s, sweeps[1..]);
      }
    }
  }

  lemma {:induction false} SweptKeepsTenant(l: Lane, t: Tenant, s: Slot, sweeps: seq<Sweep>)
    requires s in Held(l, t)
    ensures s in Held(Swept(l, t, sweeps), t) <==> TenantBefore(sweeps, Held(l, t)[s])
    decreases |sweeps|
  {
    if sweeps != [] {
      var first, rest := sweeps[0], sweeps[1..];
      TenantBeforeFirst(sweeps, Held(l, t)[s]);
      if first.Everywhere? {
        SweptKeepsTenant(l.(leases := Live(l.leases, first.now)), t, s, rest);
      } else if first.now < Held(l, t)[s] {
        SweptKeepsTenant(Prune(l, t, first.now), t, s, rest);
      } else {
        LateTenant(Prune(l, t, first.now), t, s, rest);
      }
    }
  }

  /** Whatever sweeps fall between the two writes of a renewal, as long as none of the global set
      passes the new expiry: the pair survives exactly when no sweep of the tenant set is at or after
      the old expiry, and then both sets have the new one. */
  lemma SplitRenewalIff(l: Lane, c: Config, s: Slot, t: Tenant, now: real, sweeps: seq<Sweep>)
    requires Sane(c) && s in l.leases && s in Held(l, t) && GlobalBefore(sweeps, now + c.ttl)
    ensures var l1 := FairRuns.Next(l, c, FairRuns.RenewGlobal(s, now));
            var l2 := Swept(l1, t, sweeps);
            var l3 := FairRuns.Next(l2, c, FairRuns.RenewTenant(s, t, now));
            && s in l3.leases && l3.leases[s] == now + c.ttl
            && (s in Held(l3, t) <==> TenantBefore(sweeps, Held(l, t)[s]))
            && (s in Held(l3, t) ==> Held(l3, t)[s] == l3.leases[s])
  {
    var l1 := FairRuns.Next(l, c, FairRuns.RenewGlobal(s, now));
    SweptKeepsGlobal(l1, t, s, sweeps);
    SweptKeepsTenant(l1, t, s, sweeps);
  }

  /** A renewal by a client whose clock lags the sweeper's, between the sweeper's two passes: the pair
      survives exactly when the new expiry is still ahead of the sweep. */
  lemma LaggingRenewalIff(l: Lane, c: Config, s: Slot, t: Tenant, now: real, swept: real)
    requires Sane(c) && s in l.leases && s in Held(l, t) && Held(l, t)[s] == l.leases[s] > swept
    ensures var l1 := FairRuns.Next(l, c, FairRuns.SweepGlobal(swept));
            var l2 := FairRuns.Next(l1, c, FairRuns.RenewStep(s, t, now));
            var l3 := FairRuns.Next(l2, c, FairRuns.SweepTenant(t, swept));
            s in l3.leases && (s in Held(l3, t) <==> now + c.ttl > swept)
  {
  }

  /** Unlimited, with leases of ten seconds. */
  const Plain := Config(0, 0, 0, 60, 10.0, false, 1.0)

  /** One job checked out at time 0 under slot s for tenant t. */
  lemma OneLease(s: Slot, t: Tenant, job: Job) returns (steps: seq<FairRuns.Step>)
    ensures FairRuns.Feasible(FairRuns.Empty(map[]), Plain, steps)
    ensures var l := FairRuns.Run(FairRuns.Empty(map[]), Plain, steps);
            l.leases == map[s := 10.0] && Held(l, t) == map[s := 10.0]
  {
    var empty, a := FairRuns.Empty(map[]), Ask(0.0, s, 0, 0.0);
    FairRuns.RunExtend(empty, Plain, [], FairRuns.Put(t, job));
    FairRuns.RunExtend(empty, Plain, [FairRuns.Put(t, job)], FairRuns.Take(a, [t]));
    steps := [FairRuns.Put(t, job)] + [FairRuns.Take(a, [t])];
    var l := FairRuns.Next(empty, Plain, FairRuns.Put(t, job));
    assert [] + [FairRuns.Put(t, job)] == [FairRuns.Put(t, job)];
    assert Ready(empty, t) + [job] == [job];
    assert l.ring == map[t := 0.0] && l.ready == map[t := [job]];
    assert IsRange(l.ring, 60, [t]);
    var q := l.(leases := Live(l.leases, 0.0));
    var p := Prune(q, t, 0.0);
    assert Held(p, t) == map[] && p.leases == map[];
    assert Scan(q, Plain, a, Shares(l, Plain, a), [t]) == (Serve(p, Plain, a, t), Some(t));
  }

  /** A reachable lane with a global lease that its tenant does not hold: the old expiry is 10, the
      renewal at 9 writes 19 to the global set, and the sweep at 10 passes before the second write. */
  lemma SplitRenewalLosesPair(s: Slot, t: Tenant, job: Job) returns (steps: seq<FairRuns.Step>)
    ensures FairRuns.Feasible(FairRuns.Empty(map[]), Plain, steps)
    ensures var l := FairRuns.Run(FairRuns.Empty(map[]), Plain, steps); s in l.leases && s !in Held(l, t)
  {
    steps := OneLease(s, t, job);
    var l := FairRuns.Run(FairRuns.Empty(map[]), Plain, steps);
    SweepBetweenLoses(l, s, t);
    steps := Longer(steps, FairRuns.RenewGlobal(s, 9.0));
    steps := Longer(steps, FairRuns.SweepGlobal(10.0));
    steps := Longer(steps, FairRuns.SweepTenant(t, 10.0));
    steps := Longer(steps, FairRuns.RenewTenant(s, t, 9.0));
  }

  /** A reachable lane where a lagging clock lost the pair: between the two passes of a sweep at 8 a
      client whose clock shows -5 renews to 5. */
  lemma LaggingRenewalLosesPair(s: Slot, t: Tenant, job: Job) returns (steps: seq<FairRuns.Step>)
    ensures FairRuns.Feasible(FairRuns.Empty(map[]), Plain, steps)
    ensures var l := FairRuns.Run(FairRuns.Empty(map[]), Plain, steps); s in l.leases && s !in Held(l, t)
  {
    steps := OneLease(s, t, job);
    LaggingRenewalIff(FairRuns.Run(FairRuns.Empty(map[]), Plain, steps), Plain, s, t, -5.0, 8.0);
    steps := Longer(steps, FairRuns.SweepGlobal(8.0));
    steps := Longer(steps, FairRuns.RenewStep(s, t, -5.0));
    steps := Longer(steps, FairRuns.SweepTenant(t, 8.0));
  }

  lemma SweepBetweenLoses(l: Lane, s: Slot, t: Tenant)
    requires l.leases == map[s := 10.0] && Held(l, t) == map[s := 10.0]
    ensures var l1 := FairRuns.Next(l, Plain, FairRuns.RenewGlobal(s, 9.0));
            var l2 := FairRuns.Next(l1, Plain, FairRuns.SweepGlobal(10.0));
            var l3 := FairRuns.Next(l2, Plain, FairRuns.SweepTenant(t, 10.0));
            var l4 := FairRuns.Next(l3, Plain, FairRuns.RenewTenant(s, t, 9.0));
            s in l4.leases && s !in Held(l4, t)
  {
  }

  lemma Longer(steps: seq<FairRuns.Step>, s: FairRuns.Step) returns (more: seq<FairRuns.Step>)
    requires FairRuns.Feasible(FairRuns.Empty(map[]), Plain, steps) && !s.Take?
    ensures FairRuns.Feasible(FairRuns.Empty(map[]), Plain, more)
    ensures FairRuns.Run(FairRuns.Empty(map[]), Plain, more)
         == FairRuns.Next(FairRuns.Run(FairRuns.Empty(map[]), Plain, steps), Plain, s)
  {
    more := steps + [s];
    FairRuns.RunExtend(FairRuns.Empty(map[]), Plain, steps, s);
  }
}
