/**
 What each script of the throughput lane does to the keys, said key by key and without the script,
 and what an abort undoes of a checkout.
 */
module LaneEffects {
  import opened Collections
  import opened FairScheduler
  import opened FairRuns

  /** No slot but s has a different score, and s has this one, or none. */
  ghost predicate Scored(z: map<Slot, real>, z': map<Slot, real>, s: Slot, score: Option<real>) {
    && (s in z' <==> score.Some?) && (score.Some? ==> z'[s] == score.value)
    && forall u :: u != s ==> (u in z' <==> u in z) && (u in z ==> z'[u] == z[u])
  }

  /** Slot s is leased until this time, or not at all, globally and by tenant t; no other lease differs. */
  ghost predicate Leases(l: Lane, l': Lane, s: Slot, t: Tenant, expiry: Option<real>) {
    && Scored(l.leases, l'.leases, s, expiry) && Scored(Held(l, t), Held(l', t), s, expiry)
    && forall u :: u != t ==> Held(l', u) == Held(l, u)
  }

  /** Only the leases differ. */
  ghost predicate OnlyLeases(l: Lane, l': Lane) { l' == l.(leases := l'.leases, held := l'.held) }

  /** Only the virtual time of t, its ring score and its ready list differ, forwarding aside. */
  ghost predicate OnlyTenant(l: Lane, l': Lane, t: Tenant) {
    && l'.weights == l.weights
    && forall u :: u != t ==>
         && Ready(l', u) == Ready(l, u) && Vtime(l', u) == Vtime(l, u)
         && (u in l'.ring <==> u in l.ring) && (u in l.ring ==> l'.ring[u] == l.ring[u])
  }

  /** Completion frees the slot in both sets and touches nothing else. */
  lemma CompleteMeans(l: Lane, s: Slot, t: Tenant)
    ensures var l' := Complete(l, s, t); OnlyLeases(l, l') && Leases(l, l', s, t, None)
  {
  }

  /** Re-arming leases the slot in both sets, whatever was there. */
  lemma RearmMeans(l: Lane, s: Slot, t: Tenant, expiry: real)
    ensures var l' := Rearm(l, s, t, expiry); OnlyLeases(l, l') && Leases(l, l', s, t, Some(expiry))
  {
  }

  lemma RenewedMeans(z: map<Slot, real>, s: Slot, expiry: real)
    ensures Scored(z, Renewed(z, s, expiry), s, if s in z then Some(expiry) else None)
  {
  }

  /** Renewal moves the expiry where the slot is still leased, and brings nothing back. */
  lemma RenewMeans(l: Lane, s: Slot, t: Tenant, expiry: real)
    ensures var l' := RenewHeld(l.(leases := Renewed(l.leases, s, expiry)), s, t, expiry);
            && OnlyLeases(l, l') && (forall u :: u != t ==> Held(l', u) == Held(l, u))
            && Scored(l.leases, l'.leases, s, if s in l.leases then Some(expiry) else None)
            && Scored(Held(l, t), Held(l', t), s, if s in Held(l, t) then Some(expiry) else None)
  {
    RenewedMeans(l.leases, s, expiry);
    RenewedMeans(Held(l, t), s, expiry);
  }

  /** The sweep keeps exactly the unexpired leases, each with its expiry. */
  lemma SweepMeans(l: Lane, now: real)
    ensures var l' := Swept(l, now);
            && OnlyLeases(l, l') && l'.leases.Keys == Unexpired(l.leases, now)
            && (forall s :: s in l'.leases ==> l'.leases[s] == l.leases[s])
            && forall t :: Held(l', t).Keys == Unexpired(Held(l, t), now)
                           && forall s :: s in Held(l', t) ==> Held(l', t)[s] == Held(l, t)[s]
  {
    LiveIsUnexpired(l.leases, now);
    forall t ensures Held(Swept(l, now), t) == Live(Held(l, t), now) {}
    forall t ensures Live(Held(l, t), now).Keys == Unexpired(Held(l, t), now) { LiveIsUnexpired(Held(l, t), now); }
  }

  /** The idle reset forgets every virtual time exactly when no tenant is queued, no lease is unexpired
      and nothing is being forwarded; otherwise it does nothing, and it never does anything else. */
  lemma ResetMeans(l: Lane, now: real)
    ensures var idle := l.ring == map[] && Unexpired(l.leases, now) == {} && l.fwd == map[];
            ResetVtime(l, now) == l.(vtime := if idle then map[] else l.vtime)
  {
    LiveIsUnexpired(l.leases, now);
  }

  /** An enqueue is refused exactly when a positive window is full, and then does nothing. Accepted, the
      job is last in its tenant's list and no other list differs. */
  lemma EnqueueMeans(l: Lane, c: Config, t: Tenant, job: Job)
    ensures var (l', accepted) := Enqueue(l, c, t, job);
            && (accepted <==> c.window <= 0 || |Ready(l, t)| < c.window) && (!accepted ==> l' == l)
            && l' == l.(ready := l'.ready, ring := l'.ring, vtime := l'.vtime)
            && (accepted ==> Ready(l', t) == Ready(l, t) + [job] && forall u :: u != t ==> Ready(l', u) == Ready(l, u))
  {
  }

  /** A tenant new to the ring enters it with the larger of its remembered virtual time and the least of
      the ring; one that is in it already keeps its place, and so do all others. */
  lemma EnqueueJoins(l: Lane, c: Config, t: Tenant, job: Job)
    requires Enqueue(l, c, t, job).1
    ensures var l' := Enqueue(l, c, t, job).0;
            && (t in l.ring ==> l'.ring == l.ring && l'.vtime == l.vtime)
            && (t !in l.ring ==> exists v ::
                  Joins(l, t, v) && l'.ring == l.ring[t := v] && l'.vtime == l.vtime[t := v])
  {
    if t !in l.ring {
      var v := if l.ring != map[] && Least(l.ring) > Vtime(l, t) then Least(l.ring) else Vtime(l, t);
      var l' := Enqueue(l, c, t, job).0;
      assert Joins(l, t, v) && l'.ring == l.ring[t := v] && l'.vtime == l.vtime[t := v];
    }
  }

  /** v is the least number that is below neither the tenant's virtual time nor every ring score. */
  ghost predicate Joins(l: Lane, t: Tenant, v: real) {
    && v >= Vtime(l, t) && (l.ring != map[] ==> exists u :: u in l.ring && v >= l.ring[u])
    && (v == Vtime(l, t) || (l.ring != map[] && forall u :: u in l.ring ==> v <= l.ring[u]))
  }

  /** A confirmation forgets the forwarding entry and nothing else. */
  lemma ConfirmMeans(l: Lane, s: Slot)
    requires l.fwd.Keys == l.meta.Keys
    ensures var l' := Confirm(l, s);
            && l' == l.(fwd := l'.fwd, meta := l'.meta) && l'.fwd.Keys == l.fwd.Keys - {s} == l'.meta.Keys
            && forall u :: u in l'.fwd ==> l'.fwd[u] == l.fwd[u] && l'.meta[u] == l.meta[u]
  {
  }

  /** An abort of a forwarding entry returns the job to the end of its tenant's list and gives back one
      job's charge; without an entry it does nothing. It also frees the slot in both sets. */
  lemma AbortMeans(l: Lane, c: Config, s: Slot, t: Tenant)
    requires Sane(c)
    ensures s !in l.fwd ==> Abort(l, c, s, t) == l
    ensures s in l.fwd ==>
              var l' := Abort(l, c, s, t);
              var w := if t in l.weights && l.weights[t] > 0.0 then l.weights[t] else c.defaultWeight;
              && Ready(l', t) == Ready(l, t) + [l.fwd[s]] && OnlyTenant(l, l', t)
              && Vtime(l', t) == Vtime(l, t) - 1.0 / w && t in l'.ring && l'.ring[t] == Vtime(l', t)
              && l'.fwd == l.fwd - {s} && l'.meta == l.meta - {s}
  {
  }

  lemma AbortFrees(l: Lane, c: Config, s: Slot, t: Tenant)
    requires Sane(c) && s in l.fwd
    ensures Leases(l, Abort(l, c, s, t), s, t, None)
  {
    CompleteMeans(l, s, t);
    var (a, f) := (Abort(l, c, s, t), Complete(l, s, t));
    assert a.leases == f.leases && a.held == f.held;
  }

  /** What a served checkout does: the head job of the tenant moves to the forwarding buffer, its virtual
      time grows by the cost of one job, the slot is leased until now plus the TTL. */
  ghost predicate Served(l: Lane, l': Lane, c: Config, a: Ask, t: Tenant)
    requires Sane(c)
  {
    var w := if t in l.weights && l.weights[t] > 0.0 then l.weights[t] else c.defaultWeight;
    && Ready(l, t) != [] && Ready(l', t) == Ready(l, t)[1..] && OnlyTenant(l, l', t)
    && l'.fwd == l.fwd[a.slot := Ready(l, t)[0]] && l'.meta == l.meta[a.slot := t]
    && t in l.ring && Vtime(l', t) == l.ring[t] + 1.0 / w
    && (t in l'.ring <==> |Ready(l, t)| > 1) && (t in l'.ring ==> l'.ring[t] == Vtime(l', t))
    && Scored(Live(l.leases, a.now), l'.leases, a.slot, Some(a.now + c.ttl))
    && Scored(Live(Held(l, t), a.now), Held(l', t), a.slot, Some(a.now + c.ttl))
  }

  lemma ServeMeans(l: Lane, c: Config, a: Ask, t: Tenant)
    requires Sane(c) && Ready(l, t) != [] && t in l.ring
    requires Live(l.leases, a.now) == l.leases && Live(Held(l, t), a.now) == Held(l, t)
    ensures Served(l, Serve(l, c, a, t), c, a, t)
  {
  }

  /** On an exact ring every checkout that serves does exactly that, and one that does not only drops
      expired leases. */
  lemma CheckoutMeans(l: Lane, c: Config, a: Ask, members: seq<Tenant>)
    requires Sane(c) && Exact(l) && IsRange(l.ring, c.fetchN, members)
    ensures var (l', r) := Checkout(l, c, a, members);
            match r
            case None => OnlyLeases(l, l') && l'.leases == Live(l.leases, a.now)
            case Some(t) => Served(l, l', c, a, t)
  {
    var p := CheckoutFinds(l, c, a, members);
    var k := CheckoutWinner(l, c, a, members);
    if !BudgetFull(l, c, a) && k < |members| {
      LiveTwice(l.leases, a.now);
      LiveTwice(Held(l, members[k]), a.now);
      ServeMeans(p, c, a, members[k]);
      ServedRebased(l, p, Serve(p, c, a, members[k]), c, a, members[k]);
    }
  }

  lemma ServedRebased(l: Lane, p: Lane, l': Lane, c: Config, a: Ask, t: Tenant)
    requires Sane(c) && Served(p, l', c, a, t) && p == l.(leases := Live(l.leases, a.now), held := p.held)
    requires Held(p, t) == Live(Held(l, t), a.now)
    ensures Served(l, l', c, a, t)
  {
    LiveTwice(l.leases, a.now);
    LiveTwice(Held(l, t), a.now);
  }

  /** What abort brings back of the lane a checkout found. */
  ghost predicate Undone(l: Lane, b: Lane, now: real, t: Tenant) {
    && Ready(l, t) != [] && Ready(b, t) == Ready(l, t)[1..] + [Ready(l, t)[0]]
    && OnlyTenant(l, b, t) && b.ring == l.ring && Vtime(b, t) == Vtime(l, t)
    && b.fwd == l.fwd && b.meta == l.meta
    && b.leases == Live(l.leases, now) && Held(b, t) == Live(Held(l, t), now)
  }

  lemma UndoScored(z: map<Slot, real>, z': map<Slot, real>, z'': map<Slot, real>, s: Slot, expiry: real)
    requires s !in z && Scored(z, z', s, Some(expiry)) && Scored(z', z'', s, None)
    ensures z'' == z
  {
  }

  lemma UndoTenant(l: Lane, l': Lane, b: Lane, t: Tenant)
    requires OnlyTenant(l, l', t) && OnlyTenant(l', b, t) && t in l.ring && t in b.ring && b.ring[t] == l.ring[t]
    ensures OnlyTenant(l, b, t) && b.ring == l.ring
  {
  }

  lemma UndoCharge(l: Lane, l': Lane, b: Lane, c: Config, a: Ask, t: Tenant)
    requires Sane(c) && Served(l, l', c, a, t) && b == Abort(l', c, a.slot, t) && l.ring[t] == Vtime(l, t)
    ensures OnlyTenant(l', b, t) && t in b.ring && b.ring[t] == Vtime(b, t) == l.ring[t]
    ensures Ready(b, t) == Ready(l, t)[1..] + [Ready(l, t)[0]]
  {
    AbortMeans(l', c, a.slot, t);
  }

  lemma UndoLeases(l: Lane, l': Lane, b: Lane, c: Config, a: Ask, t: Tenant)
    requires Sane(c) && Served(l, l', c, a, t) && b == Abort(l', c, a.slot, t)
    requires a.slot !in l.fwd && a.slot !in l.meta && a.slot !in l.leases && a.slot !in Held(l, t)
    ensures b.fwd == l.fwd && b.meta == l.meta
    ensures b.leases == Live(l.leases, a.now) && Held(b, t) == Live(Held(l, t), a.now)
  {
    AbortMeans(l', c, a.slot, t);
    AbortFrees(l', c, a.slot, t);
    UndoScored(Live(l.leases, a.now), l'.leases, b.leases, a.slot, a.now + c.ttl);
    UndoScored(Live(Held(l, t), a.now), Held(l', t), Held(b, t), a.slot, a.now + c.ttl);
  }

  /** Every ring score is its tenant's virtual time. */
  ghost predicate Mirrors(l: Lane) { forall u :: u in l.ring ==> l.ring[u] == Vtime(l, u) }

  lemma TakeMirrors(l: Lane, c: Config, a: Ask, members: seq<Tenant>)
    requires Sane(c) && Exact(l) && Mirrors(l) && IsRange(l.ring, c.fetchN, members)
    ensures Mirrors(Checkout(l, c, a, members).0)
  {
    CheckoutMeans(l, c, a, members);
    var (l', r) := Checkout(l, c, a, members);
    if r.Some? { ServedMirrors(l, l', c, a, r.value); }
  }

  lemma ServedMirrors(l: Lane, l': Lane, c: Config, a: Ask, t: Tenant)
    requires Sane(c) && Mirrors(l) && Served(l, l', c, a, t)
    ensures Mirrors(l')
  {
  }

  lemma PutMirrors(l: Lane, c: Config, t: Tenant, job: Job)
    requires Mirrors(l)
    ensures Mirrors(Enqueue(l, c, t, job).0)
  {
    EnqueueMeans(l, c, t, job);
    if Enqueue(l, c, t, job).1 { EnqueueJoins(l, c, t, job); }
  }

  lemma AbortMirrors(l: Lane, c: Config, s: Slot, t: Tenant)
    requires Sane(c) && Mirrors(l)
    ensures Mirrors(Abort(l, c, s, t))
  {
    AbortMeans(l, c, s, t);
  }

  lemma StepMirrors(l: Lane, c: Config, s: Step)
    requires Sane(c) && Exact(l) && Mirrors(l) && Enabled(l, c, s)
    ensures Mirrors(Next(l, c, s))
  {
    match s {
      case Take(a, members) => TakeMirrors(l, c, a, members);
      case Put(t, job) => PutMirrors(l, c, t, job);
      case AbortStep(s, t) => AbortMirrors(l, c, s, t);
      case _ =>
    }
  }

  lemma {:induction false} RunMirrors(l: Lane, c: Config, steps: seq<Step>)
    requires Sane(c) && Exact(l) && Mirrors(l) && Feasible(l, c, steps)
    ensures Exact(Run(l, c, steps)) && Mirrors(Run(l, c, steps))
    decreases |steps|
  {
    if steps != [] {
      StepExact(l, c, steps[0]);
      StepMirrors(l, c, steps[0]);
      RunMirrors(Next(l, c, steps[0]), c, steps[1..]);
    }
  }

  /** Abort undoes checkout: after any run and with a slot id nothing uses, everything of the tenant is
      as it was, charge, place in the ring and leases, expired ones aside, except that the job is now
      last in its list. */
  lemma AbortUndoesCheckout(weights: map<Tenant, real>, c: Config, steps: seq<Step>, a: Ask, members: seq<Tenant>)
    requires Sane(c) && Feasible(Empty(weights), c, steps)
    requires var l := Run(Empty(weights), c, steps);
             && IsRange(l.ring, c.fetchN, members) && a.slot !in l.fwd && a.slot !in l.meta && a.slot !in l.leases
             && forall u :: a.slot !in Held(l, u)
    ensures var l := Run(Empty(weights), c, steps);
            var (l', r) := Checkout(l, c, a, members);
            r.Some? ==> Undone(l, Abort(l', c, a.slot, r.value), a.now, r.value)
  {
    RunMirrors(Empty(weights), c, steps);
    UndoCheckout(Run(Empty(weights), c, steps), c, a, members);
  }

  lemma UndoCheckout(l: Lane, c: Config, a: Ask, members: seq<Tenant>)
    requires Sane(c) && Exact(l) && Mirrors(l) && IsRange(l.ring, c.fetchN, members)
    requires a.slot !in l.fwd && a.slot !in l.meta && a.slot !in l.leases && forall u :: a.slot !in Held(l, u)
    ensures var (l', r) := Checkout(l, c, a, members);
            r.Some? ==> Undone(l, Abort(l', c, a.slot, r.value), a.now, r.value)
  {
    var (l', r) := Checkout(l, c, a, members);
    if r.Some? {
      var t, b := r.value, Abort(l', c, a.slot, r.value);
      CheckoutMeans(l, c, a, members);
      UndoCharge(l, l', b, c, a, t);
      UndoLeases(l, l', b, c, a, t);
      UndoTenant(l, l', b, t);
    }
  }
}
