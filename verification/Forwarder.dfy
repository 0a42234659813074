/**
 The forwarders: several processes that check jobs out of a lane, publish them and confirm, or
 abort, or recover what another process left in the forwarding buffer. A process may crash
 between any two steps. Nothing accepted is ever lost.
 */
module Forwarder {
  import opened Collections
  import opened FairScheduler
  import FairRuns

  /** Where one process stands between two steps. */
  datatype Proc =
    | Idle
    | Holding(slot: Slot, tenant: Tenant, job: Job) // checked out
    | Sent(slot: Slot)                              // produced, confirm comes next
    | Failing(slot: Slot, tenant: Tenant)           // not produced, abort comes next
    | Dropped(slot: Slot, tenant: Tenant)           // expiry published, complete comes next
    | Released(slot: Slot)                          // completed, confirm comes next
    | Listed(entries: map<Slot, Job>)               // has read the forwarding buffer
    | Stale(slot: Slot, tenant: Tenant, job: Job)   // recovering an orphaned entry
    | Resent(slot: Slot, tenant: Tenant)            // produced it again, confirm comes next
    | Rearming(slot: Slot, tenant: Tenant)          // confirmed, lease comes next

  /** A payload and the tenant it was accepted for. */
  datatype Parcel = Parcel(tenant: Tenant, job: Job)

  /** issued remembers the parcel of every slot, published what reached Kafka (the ready topic or the
      expiry drop) under which slot, settled what a confirm took out of the buffer. */
  datatype World = World(
    lane: Lane,
    procs: map<nat, Proc>,
    accepted: multiset<Parcel>,
    issued: map<Slot, Parcel>,
    published: set<(Slot, Job)>,
    settled: map<Slot, Parcel>)

  function At(w: World, p: nat): Proc { if p in w.procs then w.procs[p] else Idle }

  datatype Step =
    | Put(t: Tenant, job: Job)
    | Take(p: nat, a: Ask, members: seq<Tenant>)
    | Produce(p: nat)
    | ProduceFails(p: nat)
    | PublishExpired(p: nat)
    | CompleteBy(p: nat)
    | ConfirmBy(p: nat)
    | AbortBy(p: nat)
    | ListForwards(p: nat)
    | Pick(p: nat, worker: nat, slot: Slot, now: real, grace: real, payloadTenant: Tenant)
    | RearmBy(p: nat, now: real)
    | Crash(p: nat)
    | LeaseStep(s: FairRuns.Step) // workers completing and renewing, sweeps, virtual-time resets

  predicate TouchesLeasesOnly(s: FairRuns.Step) {
    || s.CompleteStep? || s.RenewStep? || s.RenewGlobal? || s.RenewTenant?
    || s.SweepGlobal? || s.SweepTenant? || s.ResetStep?
  }

  /** An entry is stale when its lease is gone, or expired for longer than the grace. */
  predicate IsStale(l: Lane, s: Slot, now: real, grace: real) {
    s in l.leases ==> l.leases[s] <= now && now - l.leases[s] >= grace
  }

  /** The tenant of an orphaned entry: from the meta hash, else from the payload. */
  function Recovered(l: Lane, s: Slot, payloadTenant: Tenant): Tenant {
    if s in l.meta then l.meta[s] else payloadTenant
  }

  ghost predicate Enabled(w: World, c: Config, s: Step) {
    match s
    case Put(_, _) => true
    case Take(p, a, members) => At(w, p).Idle? && a.slot !in w.issued && IsRange(w.lane.ring, c.fetchN, members)
    case Produce(p) => At(w, p).Holding? || At(w, p).Stale?
    case ProduceFails(p) => At(w, p).Holding? || At(w, p).Stale?
    case PublishExpired(p) => At(w, p).Holding?
    case CompleteBy(p) => At(w, p).Dropped?
    case ConfirmBy(p) => At(w, p).Sent? || At(w, p).Released? || At(w, p).Resent?
    case AbortBy(p) => At(w, p).Failing?
    case ListForwards(p) => At(w, p).Idle?
    case Pick(p, worker, slot, now, grace, payloadTenant) =>
      && At(w, p).Listed? && slot in At(w, p).entries && At(w, worker).Idle? && IsStale(w.lane, slot, now, grace)
      && Recovered(w.lane, slot, payloadTenant) != ""
    case RearmBy(p, _) => At(w, p).Rearming?
    case Crash(_) => true
    case LeaseStep(s) => TouchesLeasesOnly(s)
  }

  /** The checkout left lane l; its caller now holds the job it parked under the slot. */
  function HandOver(w: World, p: nat, s: Slot, l: Lane, served: Option<Tenant>): World {
    if served.None? || s !in l.fwd then w.(lane := l)
    else
      var parcel := Parcel(served.value, l.fwd[s]);
      w.(lane := l, procs := w.procs[p := Holding(s, parcel.tenant, parcel.job)], issued := w.issued[s := parcel])
  }

  /** The forwarding buffer: each payload with the tenant its meta entry names. */
  function Buffer(l: Lane): map<Slot, Parcel> {
    map s | s in l.fwd && s in l.meta :: Parcel(l.meta[s], l.fwd[s])
  }

  function Settle(w: World, s: Slot): World {
    if s in Buffer(w.lane) then w.(lane := Confirm(w.lane, s), settled := w.settled[s := Buffer(w.lane)[s]])
    else w.(lane := Confirm(w.lane, s))
  }

  ghost function Next(w: World, c: Config, s: Step): World
    requires Sane(c) && Enabled(w, c, s)
  {
    match s
    case Put(t, job) =>
      var (l, ok) := Enqueue(w.lane, c, t, job);
      w.(lane := l, accepted := if ok then w.accepted + multiset{Parcel(t, job)} else w.accepted)
    case Take(p, a, members) =>
      var r := Checkout(w.lane, c, a, members);
      HandOver(w, p, a.slot, r.0, r.1)
    case Produce(p) =>
      var q := At(w, p);
      w.(published := w.published + {(q.slot, q.job)},
         procs := w.procs[p := if q.Holding? then Sent(q.slot) else Resent(q.slot, q.tenant)])
    case ProduceFails(p) => w.(procs := w.procs[p := Failing(At(w, p).slot, At(w, p).tenant)])
    case PublishExpired(p) =>
      var q := At(w, p);
      w.(published := w.published + {(q.slot, q.job)}, procs := w.procs[p := Dropped(q.slot, q.tenant)])
    case CompleteBy(p) =>
      var q := At(w, p);
      w.(lane := Complete(w.lane, q.slot, q.tenant), procs := w.procs[p := Released(q.slot)])
    case ConfirmBy(p) =>
      var q := At(w, p);
      Settle(w, q.slot).(procs := w.procs[p := if q.Resent? then Rearming(q.slot, q.tenant) else Idle])
    case AbortBy(p) =>
      w.(lane := Abort(w.lane, c, At(w, p).slot, At(w, p).tenant), procs := w.procs[p := Idle])
    case ListForwards(p) => w.(procs := w.procs[p := Listed(w.lane.fwd)])
    case Pick(p, worker, slot, now, grace, payloadTenant) =>
      var t := Recovered(w.lane, slot, payloadTenant);
      w.(procs := w.procs[worker := Stale(slot, t, At(w, p).entries[slot])])
    case RearmBy(p, now) =>
      var q := At(w, p);
      w.(lane := Rearm(w.lane, q.slot, q.tenant, now + c.ttl), procs := w.procs[p := Idle])
    case Crash(p) => w.(procs := w.procs[p := Idle])
    case LeaseStep(s) => w.(lane := FairRuns.Next(w.lane, c, s))
  }

  // ---------- counting parcels ----------

  ghost function Stored(m: map<Slot, Parcel>): multiset<Parcel>
    decreases |m|
  {
    if m == map[] then multiset{}
    else
      var s :| s in m;
      assert m.Keys == (m - {s}).Keys + {s};
      multiset{m[s]} + Stored(m - {s})
  }

  lemma Smaller(m: map<Slot, Parcel>, s: Slot)
    requires s in m
    ensures |m - {s}| < |m|
  {
    assert m.Keys == (m - {s}).Keys + {s};
  }

  lemma Swapped(a: multiset<Parcel>, b: multiset<Parcel>, c: multiset<Parcel>)
    ensures a + (b + c) == b + (a + c)
  {
  }

  /** The choice of the first key does not matter. */
  lemma {:induction false} StoredSplit(m: map<Slot, Parcel>, s: Slot)
    requires s in m
    ensures Stored(m) == multiset{m[s]} + Stored(m - {s})
    decreases |m|
  {
    var u :| u in m && Stored(m) == multiset{m[u]} + Stored(m - {u});
    if u != s {
      var rest := m - {u} - {s};
      assert rest == m - {s} - {u};
      Smaller(m, u);
      Smaller(m, s);
      StoredSplit(m - {u}, s);
      StoredSplit(m - {s}, u);
      Swapped(multiset{m[u]}, multiset{m[s]}, Stored(rest));
    }
  }

  lemma StoredTake(m: map<Slot, Parcel>, s: Slot)
    requires s in m
    ensures Stored(m) == Stored(m - {s}) + multiset{m[s]}
  {
    StoredSplit(m, s);
  }

  lemma StoredPut(m: map<Slot, Parcel>, s: Slot, parcel: Parcel)
    requires s !in m
    ensures Stored(m[s := parcel]) == Stored(m) + multiset{parcel}
  {
    StoredSplit(m[s := parcel], s);
    assert m[s := parcel] - {s} == m;
  }

  function One(b: bool): nat { if b then 1 else 0 }

  lemma HeadCount(list: seq<Job>, job: Job)
    requires list != []
    ensures multiset(list)[job] == One(list[0] == job) + multiset(list[1..])[job]
  {
    assert list == [list[0]] + list[1..];
  }

  lemma TailCount(list: seq<Job>, last: Job, job: Job)
    ensures multiset(list + [last])[job] == multiset(list)[job] + One(last == job)
  {
  }

  lemma PlusCount(m: multiset<Parcel>, one: Parcel, x: Parcel)
    ensures (m + multiset{one})[x] == m[x] + One(one == x)
  {
  }

  // ---------- no loss ----------

  /** Of one parcel as many copies were accepted as are in its own tenant's ready list, in the buffer
      under its tenant, and settled. */
  ghost predicate Balanced(x: Parcel, accepted: multiset<Parcel>, l: Lane, settled: map<Slot, Parcel>) {
    accepted[x] == multiset(Ready(l, x.tenant))[x.job] + Stored(Buffer(l))[x] + Stored(settled)[x]
  }

  /** Every parcel is balanced; and what is settled has been published under its slot. */
  ghost predicate Conserved(w: World) {
    && (forall x :: Balanced(x, w.accepted, w.lane, w.settled))
    && (forall s :: s in w.settled ==> (s, w.settled[s].job) in w.published)
  }

  /** What a process remembers of a slot is true; the tenant it would give the job back to is the
      right one as long as there is a job to give back. */
  ghost predicate ProcSound(q: Proc, issued: map<Slot, Parcel>, published: set<(Slot, Job)>, buffered: set<Slot>) {
    match q
    case Holding(s, t, job) => s in issued && issued[s] == Parcel(t, job)
    case Failing(s, t) => s in issued && (s in buffered ==> issued[s].tenant == t)
    case Stale(s, t, job) => s in issued && issued[s].job == job && (s in buffered ==> issued[s].tenant == t)
    case Sent(s) => s in issued && (s, issued[s].job) in published
    case Dropped(s, _) => s in issued && (s, issued[s].job) in published
    case Released(s) => s in issued && (s, issued[s].job) in published
    case Resent(s, _) => s in issued && (s, issued[s].job) in published
    case Listed(entries) => forall s :: s in entries ==> s in issued && issued[s].job == entries[s]
    case _ => true
  }

  ghost predicate ProcsSound(w: World) {
    forall p :: p in w.procs ==> ProcSound(w.procs[p], w.issued, w.published, w.lane.fwd.Keys)
  }

  /** Buffer and meta hash have the same slots, and hold what was issued. */
  ghost predicate Tracked(w: World) {
    && w.lane.fwd.Keys == w.lane.meta.Keys
    && (forall s :: s in w.lane.fwd ==> s in w.issued && w.issued[s] == Parcel(w.lane.meta[s], w.lane.fwd[s]))
    && (forall s :: s in w.settled ==> s in w.issued && s !in w.lane.fwd)
  }

  ghost predicate Inv(w: World) { Conserved(w) && Tracked(w) && ProcsSound(w) }

  /** A checkout either leaves lists and buffer alone, or moves the head of one list to the buffer
      under the fresh slot. */
  ghost predicate Moved(l: Lane, l': Lane, s: Slot, served: Option<Tenant>) {
    match served
    case None => l'.ready == l.ready && l'.fwd == l.fwd && l'.meta == l.meta
    case Some(t) =>
      && Ready(l, t) != [] && l'.fwd == l.fwd[s := Ready(l, t)[0]] && l'.meta == l.meta[s := t]
      && (forall u :: Ready(l', u) == if u == t then Ready(l, t)[1..] else Ready(l, u))
  }

  lemma CheckoutMoves(l: Lane, c: Config, a: Ask, members: seq<Tenant>)
    requires Sane(c)
    ensures var (l', served) := Checkout(l, c, a, members); Moved(l, l', a.slot, served)
  {
    var p := FairRuns.CheckoutTrims(l, c, a, members);
    var served := Checkout(l, c, a, members).1;
    if served.Some? { ServeMoves(l, p, c, a, served.value); }
  }

  lemma ServeMoves(l: Lane, p: Lane, c: Config, a: Ask, t: Tenant)
    requires Sane(c) && p.ready == l.ready && p.fwd == l.fwd && p.meta == l.meta && Ready(p, t) != []
    ensures Moved(l, Serve(p, c, a, t), a.slot, Some(t))
  {
  }

  lemma MovedBuffer(l: Lane, l': Lane, s: Slot, t: Tenant)
    requires Moved(l, l', s, Some(t)) && l.fwd.Keys == l.meta.Keys && s !in l.fwd
    ensures Stored(Buffer(l')) == Stored(Buffer(l)) + multiset{Parcel(t, Ready(l, t)[0])}
  {
    assert Buffer(l') == Buffer(l)[s := Parcel(t, Ready(l, t)[0])];
    StoredPut(Buffer(l), s, Parcel(t, Ready(l, t)[0]));
  }

  /** Such a move keeps every parcel balanced. */
  lemma MovedBalanced(x: Parcel, accepted: multiset<Parcel>, l: Lane, l': Lane, settled: map<Slot, Parcel>, s: Slot,
                      served: Option<Tenant>)
    requires Balanced(x, accepted, l, settled) && Moved(l, l', s, served) && l.fwd.Keys == l.meta.Keys && s !in l.fwd
    ensures Balanced(x, accepted, l', settled)
  {
    match served
    case None => assert Buffer(l') == Buffer(l) && Ready(l', x.tenant) == Ready(l, x.tenant);
    case Some(t) =>
      var list := Ready(l, t);
      MovedBuffer(l, l', s, t);
      PlusCount(Stored(Buffer(l)), Parcel(t, list[0]), x);
      if x.tenant == t { HeadCount(list, x.job); }
  }

  lemma TakeKeepsInv(w: World, c: Config, s: Step)
    requires Sane(c) && Inv(w) && s.Take? && Enabled(w, c, s)
    ensures Inv(Next(w, c, s))
  {
    var (l, served) := Checkout(w.lane, c, s.a, s.members);
    CheckoutMoves(w.lane, c, s.a, s.members);
    forall x ensures Balanced(x, w.accepted, l, w.settled) {
      MovedBalanced(x, w.accepted, w.lane, l, w.settled, s.a.slot, served);
    }
    HandOverTracks(w, s.p, s.a.slot, l, served);
  }

  lemma HandOverTracks(w: World, p: nat, s: Slot, l: Lane, served: Option<Tenant>)
    requires Tracked(w) && ProcsSound(w) && s !in w.issued && Moved(w.lane, l, s, served)
    ensures Tracked(HandOver(w, p, s, l, served)) && ProcsSound(HandOver(w, p, s, l, served))
  {
    var w' := HandOver(w, p, s, l, served);
    forall p | p in w'.procs ensures ProcSound(w'.procs[p], w'.issued, w'.published, w'.lane.fwd.Keys) {
      if p in w.procs { assert ProcSound(w.procs[p], w.issued, w.published, w.lane.fwd.Keys); }
    }
  }

  lemma PublishKeepsInv(w: World, c: Config, s: Step)
    requires Sane(c) && Inv(w) && (s.Produce? || s.PublishExpired?) && Enabled(w, c, s)
    ensures Inv(Next(w, c, s))
  {
    var w' := Next(w, c, s);
    forall p | p in w'.procs ensures ProcSound(w'.procs[p], w'.issued, w'.published, w'.lane.fwd.Keys) {
      if p in w.procs { assert ProcSound(w.procs[p], w.issued, w.published, w.lane.fwd.Keys); }
    }
  }

  /** Taking an entry out of the buffer. */
  lemma BufferWithout(l: Lane, s: Slot)
    requires s in Buffer(l)
    ensures Buffer(Confirm(l, s)) == Buffer(l) - {s}
  {
  }

  lemma SettleBalanced(x: Parcel, w: World, s: Slot)
    requires Balanced(x, w.accepted, w.lane, w.settled) && s !in w.settled && w.lane.fwd.Keys == w.lane.meta.Keys
    ensures Balanced(x, w.accepted, Settle(w, s).lane, Settle(w, s).settled)
  {
    if s in w.lane.fwd {
      var parcel := Buffer(w.lane)[s];
      BufferWithout(w.lane, s);
      StoredTake(Buffer(w.lane), s);
      StoredPut(w.settled, s, parcel);
      PlusCount(Stored(Buffer(w.lane) - {s}), parcel, x);
      PlusCount(Stored(w.settled), parcel, x);
    }
  }

  /** Confirming a slot whose payload was published keeps the account. */
  lemma SettleKeepsAccount(w: World, s: Slot)
    requires Conserved(w) && Tracked(w) && s in w.issued && (s, w.issued[s].job) in w.published
    ensures Conserved(Settle(w, s)) && Tracked(Settle(w, s))
  {
    var w' := Settle(w, s);
    forall x ensures Balanced(x, w'.accepted, w'.lane, w'.settled) {
      assert Balanced(x, w.accepted, w.lane, w.settled);
      if s in w.lane.fwd { SettleBalanced(x, w, s); }
    }
  }

  lemma ConfirmKeepsInv(w: World, c: Config, s: Step)
    requires Sane(c) && Inv(w) && s.ConfirmBy? && Enabled(w, c, s)
    ensures Inv(Next(w, c, s))
  {
    assert ProcSound(At(w, s.p), w.issued, w.published, w.lane.fwd.Keys);
    SettleKeepsAccount(w, At(w, s.p).slot);
    ShrunkProcs(w, Next(w, c, s), s.p);
  }

  /** A smaller buffer keeps what the other processes remember true. */
  lemma ShrunkProcs(w: World, w': World, p: nat)
    requires ProcsSound(w) && w'.issued == w.issued && w'.published == w.published
             && w'.lane.fwd.Keys <= w.lane.fwd.Keys
    requires p in w'.procs && (w'.procs[p].Idle? || w'.procs[p].Rearming?) && w'.procs == w.procs[p := w'.procs[p]]
    ensures ProcsSound(w')
  {
    forall q | q in w'.procs ensures ProcSound(w'.procs[q], w'.issued, w'.published, w'.lane.fwd.Keys) {
      if q in w.procs { assert ProcSound(w.procs[q], w.issued, w.published, w.lane.fwd.Keys); }
    }
  }

  /** A job given back goes from the buffer to the tail of its own tenant's list. */
  lemma AbortBalanced(x: Parcel, accepted: multiset<Parcel>, l: Lane, settled: map<Slot, Parcel>, c: Config, s: Slot,
                      t: Tenant)
    requires Sane(c) && Balanced(x, accepted, l, settled)
    requires s in l.fwd && s in l.meta && l.meta[s] == t
    ensures Balanced(x, accepted, Abort(l, c, s, t), settled)
  {
    AbortGives(l, c, s, t);
    StoredTake(Buffer(l), s);
    PlusCount(Stored(Buffer(l) - {s}), Buffer(l)[s], x);
    if x.tenant == t { TailCount(Ready(l, t), l.fwd[s], x.job); }
  }

  lemma AbortGives(l: Lane, c: Config, s: Slot, t: Tenant)
    requires Sane(c) && s in l.fwd
    ensures var l' := Abort(l, c, s, t);
            && Buffer(l') == Buffer(l) - {s}
            && forall u :: Ready(l', u) == if u == t then Ready(l, t) + [l.fwd[s]] else Ready(l, u)
  {
  }

  lemma AbortKeepsInv(w: World, c: Config, s: Step)
    requires Sane(c) && Inv(w) && s.AbortBy? && Enabled(w, c, s)
    ensures Inv(Next(w, c, s))
  {
    var q, w' := At(w, s.p), Next(w, c, s);
    assert ProcSound(q, w.issued, w.published, w.lane.fwd.Keys);
    if q.slot in w.lane.fwd {
      forall x ensures Balanced(x, w'.accepted, w'.lane, w'.settled) {
        AbortBalanced(x, w.accepted, w.lane, w.settled, c, q.slot, q.tenant);
      }
    }
    ShrunkProcs(w, w', s.p);
  }

  lemma EnqueueAppends(l: Lane, c: Config, t: Tenant, job: Job)
    ensures var (l', ok) := Enqueue(l, c, t, job);
            && l'.fwd == l.fwd && l'.meta == l.meta
            && forall u :: Ready(l', u) == if ok && u == t then Ready(l, t) + [job] else Ready(l, u)
  {
  }

  lemma PutKeepsInv(w: World, c: Config, s: Step)
    requires Sane(c) && Inv(w) && s.Put?
    ensures Inv(Next(w, c, s))
  {
    var w' := Next(w, c, s);
    EnqueueAppends(w.lane, c, s.t, s.job);
    forall x ensures Balanced(x, w'.accepted, w'.lane, w'.settled) {
      assert Balanced(x, w.accepted, w.lane, w.settled);
      PutBalanced(x, w.accepted, w.lane, w.settled, c, s.t, s.job);
    }
    assert w'.procs == w.procs && w'.issued == w.issued && w'.published == w.published;
  }

  lemma PutBalanced(x: Parcel, accepted: multiset<Parcel>, l: Lane, settled: map<Slot, Parcel>, c: Config, t: Tenant,
                    job: Job)
    requires Balanced(x, accepted, l, settled)
    ensures var (l', ok) := Enqueue(l, c, t, job);
            Balanced(x, if ok then accepted + multiset{Parcel(t, job)} else accepted, l', settled)
  {
    var (l', ok) := Enqueue(l, c, t, job);
    EnqueueAppends(l, c, t, job);
    assert Buffer(l') == Buffer(l);
    PlusCount(accepted, Parcel(t, job), x);
    if x.tenant == t { TailCount(Ready(l, t), job, x.job); }
  }

  /** Lists and buffer are as before, so every parcel stays balanced. */
  lemma SameConserved(w: World, w': World)
    requires Conserved(w) && w'.accepted == w.accepted && w'.settled == w.settled && w'.published == w.published
    requires w'.lane.ready == w.lane.ready && w'.lane.fwd == w.lane.fwd && w'.lane.meta == w.lane.meta
    ensures Conserved(w')
  {
    assert Buffer(w'.lane) == Buffer(w.lane);
    forall x ensures Balanced(x, w'.accepted, w'.lane, w'.settled) {
      assert Balanced(x, w.accepted, w.lane, w.settled) && Ready(w'.lane, x.tenant) == Ready(w.lane, x.tenant);
    }
  }

  /** The remaining steps move neither payloads nor publications. */
  lemma QuietKeepsInv(w: World, c: Config, s: Step)
    requires Sane(c) && Inv(w) && Enabled(w, c, s)
    requires s.ProduceFails? || s.CompleteBy? || s.ListForwards? || s.Pick? || s.RearmBy? || s.Crash?
    ensures Inv(Next(w, c, s))
  {
    SameConserved(w, Next(w, c, s));
    QuietKeepsProcs(w, c, s);
  }

  lemma QuietKeepsProcs(w: World, c: Config, s: Step)
    requires Sane(c) && Tracked(w) && ProcsSound(w) && Enabled(w, c, s)
    requires s.ProduceFails? || s.CompleteBy? || s.ListForwards? || s.Pick? || s.RearmBy? || s.Crash?
    ensures ProcsSound(Next(w, c, s))
  {
    var w' := Next(w, c, s);
    forall p | p in w'.procs ensures ProcSound(w'.procs[p], w'.issued, w'.published, w'.lane.fwd.Keys) {
      if p in w.procs { assert ProcSound(w.procs[p], w.issued, w.published, w.lane.fwd.Keys); }
      if !s.Crash? && s.p in w.procs { assert ProcSound(At(w, s.p), w.issued, w.published, w.lane.fwd.Keys); }
    }
  }

  lemma LeaseStepQuiet(l: Lane, c: Config, s: FairRuns.Step)
    requires Sane(c) && TouchesLeasesOnly(s)
    ensures var l' := FairRuns.Next(l, c, s); l'.ready == l.ready && l'.fwd == l.fwd && l'.meta == l.meta
  {
  }

  lemma LeaseStepKeepsInv(w: World, c: Config, s: Step)
    requires Sane(c) && Inv(w) && s.LeaseStep? && Enabled(w, c, s)
    ensures Inv(Next(w, c, s))
  {
    LeaseStepQuiet(w.lane, c, s.s);
    SameConserved(w, Next(w, c, s));
  }

  lemma StepKeepsInv(w: World, c: Config, s: Step)
    requires Sane(c) && Inv(w) && Enabled(w, c, s)
    ensures Inv(Next(w, c, s))
  {
    match s {
      case Put(_, _) => PutKeepsInv(w, c, s);
      case Take(_, _, _) => TakeKeepsInv(w, c, s);
      case Produce(_) => PublishKeepsInv(w, c, s);
      case PublishExpired(_) => PublishKeepsInv(w, c, s);
      case ConfirmBy(_) => ConfirmKeepsInv(w, c, s);
      case AbortBy(_) => AbortKeepsInv(w, c, s);
      case LeaseStep(_) => LeaseStepKeepsInv(w, c, s);
      case _ => QuietKeepsInv(w, c, s);
    }
  }

  ghost predicate Feasible(w: World, c: Config, steps: seq<Step>)
    requires Sane(c)
    decreases |steps|
  {
    steps == [] || (Enabled(w, c, steps[0]) && Feasible(Next(w, c, steps[0]), c, steps[1..]))
  }

  ghost function Run(w: World, c: Config, steps: seq<Step>): World
    requires Sane(c) && Feasible(w, c, steps)
    decreases |steps|
  {
    if steps == [] then w else Run(Next(w, c, steps[0]), c, steps[1..])
  }

  lemma {:induction false} RunKeepsInv(w: World, c: Config, steps: seq<Step>)
    requires Sane(c) && Inv(w) && Feasible(w, c, steps)
    ensures Inv(Run(w, c, steps))
    decreases |steps|
  {
    if steps != [] {
      StepKeepsInv(w, c, steps[0]);
      RunKeepsInv(Next(w, c, steps[0]), c, steps[1..]);
    }
  }

  function Start(weights: map<Tenant, real>): World {
    World(FairRuns.Empty(weights), map[], multiset{}, map[], {}, map[])
  }

  /** No loss: over every interleaving of enqueues, forwarders, recovery and crashes, each accepted
      payload is in its own tenant's ready list, in the forwarding buffer under its tenant, or
      published, counted with multiplicity. */
  lemma NothingLost(weights: map<Tenant, real>, c: Config, steps: seq<Step>)
    requires Sane(c) && Feasible(Start(weights), c, steps)
    ensures Conserved(Run(Start(weights), c, steps))
  {
    RunKeepsInv(Start(weights), c, steps);
  }
}
