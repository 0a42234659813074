/**
 The throughput lane of the weighted-fair scheduler: per-tenant ready lists, a ring ordered by
 virtual time, leases and the forwarding buffer. Scores and weights are reals. Absent keys read
 as empty, as in Redis; a list that becomes empty is deleted.
 */
module FairScheduler {
  import opened Collections

  type Tenant = string
  type Slot = string
  type Job = string

  datatype Lane = Lane(
    ring: map<Tenant, real>,
    vtime: map<Tenant, real>,
    weights: map<Tenant, real>,
    ready: map<Tenant, seq<Job>>,
    leases: map<Slot, real>,
    held: map<Tenant, map<Slot, real>>, // lease set of each tenant
    fwd: map<Slot, Job>,
    meta: map<Slot, Tenant>)

  datatype Config = Config(
    window: int, budget: int, cap: int, fetchN: nat, ttl: real,
    weighted: bool, defaultWeight: real)

  /** NewScheduler raises a non-positive default weight, fetchN is at least 60 and the lease TTL
      has a positive floor. */
  predicate Sane(c: Config) { c.defaultWeight > 0.0 && c.fetchN >= 1 && c.ttl > 0.0 }

  function Ready(l: Lane, t: Tenant): seq<Job> { if t in l.ready then l.ready[t] else [] }

  function Held(l: Lane, t: Tenant): map<Slot, real> { if t in l.held then l.held[t] else map[] }

  function Vtime(l: Lane, t: Tenant): real { if t in l.vtime then l.vtime[t] else 0.0 }

  function Weight(l: Lane, c: Config, t: Tenant): real {
    if t in l.weights && l.weights[t] > 0.0 then l.weights[t] else c.defaultWeight
  }

  /** ZREMRANGEBYSCORE -inf now. */
  function Live(z: map<Slot, real>, now: real): map<Slot, real> {
    map s | s in z && z[s] > now :: z[s]
  }

  function Prune(l: Lane, t: Tenant, now: real): Lane {
    l.(held := l.held[t := Live(Held(l, t), now)])
  }

  // ---------- sorted-set primitives ----------

  ghost predicate IsLeast(z: map<Tenant, real>, v: real) {
    (exists t :: t in z && z[t] == v) && forall t :: t in z ==> v <= z[t]
  }

  /** The score ZRANGE 0 0 reports. */
  ghost function Least(z: map<Tenant, real>): (v: real)
    requires z != map[]
    ensures IsLeast(z, v)
    decreases |z|
  {
    var t :| t in z;
    var rest := z - {t};
    assert z.Keys == rest.Keys + {t};
    if rest == map[] then z[t]
    else
      var m := Least(rest);
      if z[t] <= m then z[t] else m
  }

  /** ZRANGE 0 n-1: the n lowest members in score order (ties in any order). */
  ghost predicate IsRange(z: map<Tenant, real>, n: nat, members: seq<Tenant>) {
    && (forall i :: 0 <= i < |members| ==> members[i] in z)
    && (forall i, j :: 0 <= i < j < |members| ==> members[i] != members[j] && z[members[i]] <= z[members[j]])
    && |members| == (if n <= |z| then n else |z|)
    && (forall t, i :: t in z && t !in members && 0 <= i < |members| ==> z[members[i]] <= z[t])
  }

  method ZMin(z: map<Tenant, real>) returns (t: Tenant)
    requires z != map[]
    ensures t in z && forall u :: u in z ==> z[t] <= z[u]
    ensures z[t] == Least(z)
  {
    t :| t in z;
    var todo := z.Keys - {t};
    while todo != {}
      invariant todo <= z.Keys && t in z
      invariant forall u :: u in z && u !in todo ==> z[t] <= z[u]
      decreases |todo|
    {
      var u :| u in todo;
      todo := todo - {u};
      if z[u] < z[t] { t := u; }
    }
  }

  /** members are the lowest scores of z in order and rest is what remains. */
  ghost predicate Peeled(z: map<Tenant, real>, rest: map<Tenant, real>, members: seq<Tenant>) {
    && |z| == |rest| + |members|
    && (forall t :: t in rest ==> t in z && rest[t] == z[t])
    && (forall i :: 0 <= i < |members| ==> members[i] in z && members[i] !in rest)
    && (forall t :: t in z ==> t in rest || t in members)
    && (forall i, j :: 0 <= i < j < |members| ==> members[i] != members[j] && z[members[i]] <= z[members[j]])
    && (forall t, i :: t in rest && 0 <= i < |members| ==> z[members[i]] <= z[t])
  }

  lemma PeelOne(z: map<Tenant, real>, rest: map<Tenant, real>, members: seq<Tenant>, t: Tenant)
    requires Peeled(z, rest, members) && t in rest && forall u :: u in rest ==> rest[t] <= rest[u]
    ensures Peeled(z, rest - {t}, members + [t])
  {
    var rest', members' := rest - {t}, members + [t];
    assert rest.Keys == rest'.Keys + {t};
    forall u | u in z ensures u in rest' || u in members' {
      if u in members { assert u in members'; } else if u == t { assert members'[|members|] == t; }
    }
  }

  method ZRange(z: map<Tenant, real>, n: nat) returns (members: seq<Tenant>)
    ensures IsRange(z, n, members)
  {
    members := [];
    var rest := z;
    while |members| < n && rest != map[]
      invariant |members| <= n && Peeled(z, rest, members)
      decreases n - |members|
    {
      var t := ZMin(rest);
      PeelOne(z, rest, members, t);
      members, rest := members + [t], rest - {t};
    }
  }

  // ---------- the scripts ----------

  ghost function Enqueue(l: Lane, c: Config, t: Tenant, job: Job): (Lane, bool) {
    if c.window > 0 && |Ready(l, t)| >= c.window then (l, false)
    else
      var v := if l.ring != map[] && Least(l.ring) > Vtime(l, t) then Least(l.ring) else Vtime(l, t);
      var seeded := if t in l.ring then l else l.(ring := l.ring[t := v], vtime := l.vtime[t := v]);
      (seeded.(ready := l.ready[t := Ready(l, t) + [job]]), true)
  }

  /** What a checkout is told besides the lane: its clock, a fresh slot id, and the cached hints. */
  datatype Ask = Ask(now: real, slot: Slot, activeHint: int, weightHint: real)

  function Active(l: Lane, a: Ask): int {
    var n := if |l.ring| < 1 then 1 else |l.ring|;
    if a.activeHint > n then a.activeHint else n
  }

  function SumWeight(l: Lane, c: Config, a: Ask): (w: real)
    requires Sane(c)
    ensures w > 0.0
  {
    if a.weightHint > 0.0 then a.weightHint
    else
      assert c.defaultWeight * Active(l, a) as real >= c.defaultWeight;
      c.defaultWeight * Active(l, a) as real
  }

  /** The part of the budget that falls to a weight, in whole jobs and at least one. */
  function Part(budget: real, weight: real, total: real): (n: int)
    requires total > 0.0
    ensures n >= 1
  {
    var f := (budget * weight / total).Floor;
    if f < 1 then 1 else f
  }

  /** How many jobs a tenant may have in flight under the budget; 0 means unlimited. */
  function Portion(c: Config, active: int, weight: real, total: real): (n: int)
    requires active >= 1 && total > 0.0
    ensures n >= 0
  {
    if c.budget <= 0 then 0
    else if c.weighted then Part(c.budget as real, weight, total)
    else CeilDiv(c.budget, active)
  }

  /** The in-flight share of a tenant in the first round, bounded by the cap; 0 means unlimited. */
  function Share(l: Lane, c: Config, a: Ask, t: Tenant): (n: int)
    requires Sane(c)
    ensures c.cap > 0 ==> 1 <= n <= c.cap
  {
    var even := Portion(c, Active(l, a), Weight(l, c, t), SumWeight(l, c, a));
    if c.cap > 0 && (even == 0 || c.cap < even) then c.cap else even
  }

  /** The limits of the two rounds: the shares of the ring tenants, then the hard cap alone. */
  function Shares(l: Lane, c: Config, a: Ask): map<Tenant, int>
    requires Sane(c)
  {
    map t | t in l.ring :: Share(l, c, a, t)
  }

  function Caps(l: Lane, c: Config): map<Tenant, int> { map t | t in l.ring :: c.cap }

  function CeilDiv(x: int, y: int): (n: int)
    requires x >= 1 && y >= 1
    ensures n >= 1
  {
    (x + y - 1) / y
  }

  /** Under its limit; no limit and a limit of 0 both mean unlimited. */
  predicate Under(limits: map<Tenant, int>, t: Tenant, n: int) {
    t !in limits || limits[t] == 0 || n < limits[t]
  }

  /** Pop the head job of a tenant, charge 1/w, lease the slot, and park the job in the buffer. */
  function Serve(l: Lane, c: Config, a: Ask, t: Tenant): Lane
    requires Sane(c) && Ready(l, t) != []
  {
    var v := (if t in l.ring then l.ring[t] else 0.0) + 1.0 / Weight(l, c, t);
    var rest := Ready(l, t)[1..];
    var expiry := a.now + c.ttl;
    l.(vtime := l.vtime[t := v],
       ring := if rest == [] then l.ring - {t} else l.ring[t := v],
       ready := if rest == [] then l.ready - {t} else l.ready[t := rest],
       leases := l.leases[a.slot := expiry],
       held := l.held[t := Held(l, t)[a.slot := expiry]],
       fwd := l.fwd[a.slot := Ready(l, t)[0]],
       meta := l.meta[a.slot := t])
  }

  /** One round over the fetched members: serve the first one under its limit that has a job. */
  function Scan(l: Lane, c: Config, a: Ask, limits: map<Tenant, int>, members: seq<Tenant>): (Lane, Option<Tenant>)
    requires Sane(c)
    decreases |members|
  {
    if members == [] then (l, None)
    else
      var t := members[0];
      var p := Prune(l, t, a.now);
      if !Under(limits, t, |Held(p, t)|) then Scan(p, c, a, limits, members[1..])
      else if Ready(p, t) == [] then Scan(p.(ring := p.ring - {t}), c, a, limits, members[1..])
      else (Serve(p, c, a, t), Some(t))
  }

  /** A round under the shares, then a fallback round under the hard cap only. */
  function Rounds(l: Lane, c: Config, a: Ask, shares: map<Tenant, int>, caps: map<Tenant, int>,
                  members: seq<Tenant>): (Lane, Option<Tenant>)
    requires Sane(c)
  {
    var (first, served) := Scan(l, c, a, shares, members);
    if served.Some? then (first, served) else Scan(first, c, a, caps, members)
  }

  predicate BudgetFull(l: Lane, c: Config, a: Ask) { c.budget > 0 && |Live(l.leases, a.now)| >= c.budget }

  function Checkout(l: Lane, c: Config, a: Ask, members: seq<Tenant>): (Lane, Option<Tenant>)
    requires Sane(c)
  {
    var p := l.(leases := Live(l.leases, a.now));
    if BudgetFull(l, c, a) then (p, None)
    else Rounds(p, c, a, Shares(l, c, a), Caps(l, c), members)
  }

  function Confirm(l: Lane, s: Slot): Lane {
    if s in l.fwd then l.(fwd := l.fwd - {s}, meta := l.meta - {s}) else l
  }

  function Abort(l: Lane, c: Config, s: Slot, t: Tenant): Lane
    requires Sane(c)
  {
    if s !in l.fwd then l
    else
      var v := Vtime(l, t) - 1.0 / Weight(l, c, t);
      l.(fwd := l.fwd - {s}, meta := l.meta - {s},
         ready := l.ready[t := Ready(l, t) + [l.fwd[s]]],
         leases := l.leases - {s}, held := l.held[t := Held(l, t) - {s}],
         vtime := l.vtime[t := v], ring := l.ring[t := v])
  }

  function Complete(l: Lane, s: Slot, t: Tenant): Lane {
    l.(leases := l.leases - {s}, held := l.held[t := Held(l, t) - {s}])
  }

  /** ZADD XX on one lease set. */
  function Renewed(z: map<Slot, real>, s: Slot, expiry: real): map<Slot, real> {
    if s in z then z[s := expiry] else z
  }

  function RenewHeld(l: Lane, s: Slot, t: Tenant, expiry: real): Lane {
    l.(held := l.held[t := Renewed(Held(l, t), s, expiry)])
  }

  function Rearm(l: Lane, s: Slot, t: Tenant, expiry: real): Lane {
    l.(leases := l.leases[s := expiry], held := l.held[t := Held(l, t)[s := expiry]])
  }

  function Swept(l: Lane, now: real): Lane {
    l.(leases := Live(l.leases, now), held := map t | t in l.held :: Live(l.held[t], now))
  }

  function ResetVtime(l: Lane, now: real): Lane {
    if l.ring != map[] || Live(l.leases, now) != map[] || l.fwd != map[] then l else l.(vtime := map[])
  }

  // ---------- the scripts, step by step ----------

  /** The scripts against the keys of one lane. */
  class Scheduler {
    const config: Config
    var lane: Lane

    constructor (config: Config, weights: map<Tenant, real>)
      ensures this.config == config
      ensures lane == Lane(map[], map[], weights, map[], map[], map[], map[], map[])
    {
      this.config := config;
      lane := Lane(map[], map[], weights, map[], map[], map[], map[], map[]);
    }

    method EnqueueJob(t: Tenant, job: Job) returns (accepted: bool)
      modifies this
      ensures (lane, accepted) == Enqueue(old(lane), config, t, job)
    {
      if config.window > 0 && |Ready(lane, t)| >= config.window { return false; }
      if t !in lane.ring {
        var v := Vtime(lane, t);
        if lane.ring != map[] {
          var least := ZMin(lane.ring);
          if lane.ring[least] > v { v := lane.ring[least]; }
        }
        lane := lane.(ring := lane.ring[t := v], vtime := lane.vtime[t := v]);
      }
      lane := lane.(ready := lane.ready[t := Ready(lane, t) + [job]]);
      return true;
    }

    /** One of the two rounds of the checkout loop. */
    method Round(a: Ask, limits: map<Tenant, int>, members: seq<Tenant>) returns (served: Option<Tenant>)
      requires Sane(config)
      modifies this
      ensures (lane, served) == Scan(old(lane), config, a, limits, members)
    {
      var i := 0;
      while i < |members|
        invariant 0 <= i <= |members|
        invariant Scan(old(lane), config, a, limits, members) == Scan(lane, config, a, limits, members[i..])
      {
        var t := members[i];
        assert members[i..][0] == t && members[i..][1..] == members[i + 1..];
        lane := lane.(held := lane.held[t := Live(Held(lane, t), a.now)]);
        var limit := if t in limits then limits[t] else 0;
        if limit == 0 || |lane.held[t]| < limit {
          if Ready(lane, t) != [] {
            Dispatch(a, t);
            return Some(t);
          }
          lane := lane.(ring := lane.ring - {t});
        }
        i := i + 1;
      }
      return None;
    }

    /** LPOP, charge the tenant, and record the lease and the forwarding entry. */
    method Dispatch(a: Ask, t: Tenant)
      requires Sane(config) && Ready(lane, t) != []
      modifies this
      ensures lane == Serve(old(lane), config, a, t)
    {
      var l := lane;
      var job, rest := l.ready[t][0], l.ready[t][1..];
      var v := (if t in l.ring then l.ring[t] else 0.0) + 1.0 / Weight(l, config, t);
      l := l.(vtime := l.vtime[t := v]);
      if rest == [] {
        l := l.(ready := l.ready - {t}, ring := l.ring - {t});
      } else {
        l := l.(ready := l.ready[t := rest], ring := l.ring[t := v]);
      }
      var expiry := a.now + config.ttl;
      l := l.(leases := l.leases[a.slot := expiry], held := l.held[t := Held(l, t)[a.slot := expiry]]);
      lane := l.(fwd := l.fwd[a.slot := job], meta := l.meta[a.slot := t]);
    }

    method BothRounds(a: Ask, shares: map<Tenant, int>, caps: map<Tenant, int>, members: seq<Tenant>)
      returns (served: Option<Tenant>)
      requires Sane(config)
      modifies this
      ensures (lane, served) == Rounds(old(lane), config, a, shares, caps, members)
    {
      served := Round(a, shares, members);
      if served.None? {
        served := Round(a, caps, members);
      }
    }

    method CheckoutJob(a: Ask) returns (served: Option<Tenant>, ghost members: seq<Tenant>)
      requires Sane(config)
      modifies this
      ensures IsRange(old(lane).ring, config.fetchN, members)
      ensures (lane, served) == Checkout(old(lane), config, a, members)
    {
      var fetched := ZRange(lane.ring, config.fetchN);
      members := fetched;
      served := CheckoutAmong(a, fetched);
    }

    method CheckoutAmong(a: Ask, members: seq<Tenant>) returns (served: Option<Tenant>)
      requires Sane(config)
      modifies this
      ensures (lane, served) == Checkout(old(lane), config, a, members)
    {
      var shares, caps := Shares(lane, config, a), Caps(lane, config);
      lane := lane.(leases := Live(lane.leases, a.now));
      if config.budget > 0 && |lane.leases| >= config.budget { return None; }
      served := BothRounds(a, shares, caps, members);
    }

    method ConfirmForward(s: Slot) returns (removed: bool)
      modifies this
      ensures lane == Confirm(old(lane), s) && removed == (s in old(lane).fwd)
    {
      if s !in lane.fwd { return false; }
      lane := lane.(fwd := lane.fwd - {s});
      lane := lane.(meta := lane.meta - {s});
      return true;
    }

    method AbortForward(s: Slot, t: Tenant) returns (aborted: bool)
      requires Sane(config)
      modifies this
      ensures lane == Abort(old(lane), config, s, t) && aborted == (s in old(lane).fwd)
    {
      if s !in lane.fwd { return false; }
      var l, job := lane, lane.fwd[s];
      l := l.(fwd := l.fwd - {s}, meta := l.meta - {s});
      l := l.(ready := l.ready[t := Ready(l, t) + [job]]);
      l := l.(leases := l.leases - {s}, held := l.held[t := Held(l, t) - {s}]);
      var v := Vtime(l, t) - 1.0 / Weight(l, config, t);
      l := l.(vtime := l.vtime[t := v]);
      if |l.ready[t]| > 0 { l := l.(ring := l.ring[t := v]); }
      lane := l;
      return true;
    }

    method ResetVtimeIfQuiescent(now: real) returns (reset: bool)
      modifies this
      ensures lane == ResetVtime(old(lane), now)
      ensures reset == (old(lane).ring == map[] && Live(old(lane).leases, now) == map[] && old(lane).fwd == map[])
    {
      if |lane.ring| > 0 { return false; }
      if |Live(lane.leases, now)| > 0 { return false; }
      if |lane.fwd| > 0 { return false; }
      lane := lane.(vtime := map[]);
      return true;
    }

    method CompleteJob(t: Tenant, s: Slot)
      modifies this
      ensures lane == if s == "" then old(lane) else Complete(old(lane), s, t)
    {
      if s == "" { return; }
      lane := lane.(leases := lane.leases - {s});
      lane := lane.(held := lane.held[t := Held(lane, t) - {s}]);
    }

    /** Two ZADD XX in one pipeline: others may run between them, so each is a step of its own. */
    method RenewLease(t: Tenant, s: Slot, now: real)
      modifies this
      ensures var expiry := now + config.ttl;
              lane == if s == "" then old(lane)
                      else RenewHeld(old(lane).(leases := Renewed(old(lane).leases, s, expiry)), s, t, expiry)
    {
      if s == "" { return; }
      var expiry := now + config.ttl;
      if s in lane.leases { lane := lane.(leases := lane.leases[s := expiry]); }
      var mine := Held(lane, t);
      if s in mine { mine := mine[s := expiry]; }
      lane := lane.(held := lane.held[t := mine]);
    }

    method RearmLease(t: Tenant, s: Slot, now: real)
      modifies this
      ensures lane == Rearm(old(lane), s, t, now + config.ttl)
    {
      var expiry := now + config.ttl;
      lane := lane.(leases := lane.leases[s := expiry]);
      lane := lane.(held := lane.held[t := Held(lane, t)[s := expiry]]);
    }

    /** The sweep, under its lock: drop expired entries from the global set and then from each
        tenant's set. */
    method ReclaimExpiredLeases(locked: bool, now: real) returns (removed: int)
      modifies this
      ensures !locked ==> lane == old(lane) && removed == 0
      ensures locked ==> lane == Swept(old(lane), now) && removed == |old(lane).leases| - |lane.leases|
    {
      if !locked { return 0; }
      var before := lane;
      lane := lane.(leases := Live(lane.leases, now));
      removed := |before.leases| - |lane.leases|;
      var todo := before.held.Keys;
      while todo != {}
        invariant todo <= before.held.Keys && lane == before.(leases := Live(before.leases, now), held := lane.held)
        invariant lane.held.Keys == before.held.Keys
        invariant forall t <- before.held ::
                    lane.held[t] == if t in todo then before.held[t] else Live(before.held[t], now)
        decreases |todo|
      {
        var t :| t in todo;
        todo := todo - {t};
        lane := lane.(held := lane.held[t := Live(lane.held[t], now)]);
      }
    }
  }
}
