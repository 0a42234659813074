/**
 The exclusive allocator of ingest partitions: a tenant-to-partition hash, a set of free
 partitions and the partition count the free set was last built for.
 */
module TenantPartitions {
  import opened Collections

  type Tenant = string

  datatype Table = Table(owned: map<Tenant, int>, free: set<int>, stored: int)

  function Kept(owned: map<Tenant, int>, count: int): map<Tenant, int> {
    map t | t in owned && 0 <= owned[t] < count :: owned[t]
  }

  /** Drop assignments beyond the count; then every partition below the count that is not assigned
      becomes free, next to whatever was already free when the count did not change. */
  function Warm(s: Table, count: int): Table {
    if count < 1 then s
    else
      var kept := Kept(s.owned, count);
      var free := Interval(0, count) - kept.Values;
      Table(kept, if s.stored != count then free else free + (s.free * Interval(0, count)), count)
  }

  datatype Reply = Got(partition: int) | NoneFree | Refused

  /** The set member SPOP removes is up to Redis: popped is one it may choose. */
  predicate MayPop(s: Table, popped: int) { s.free == {} || popped in s.free }

  function Checkout(s: Table, t: Tenant, count: int, popped: int): (Table, Reply) {
    if count < 1 then (s, Refused)
    else if t in s.owned && 0 <= s.owned[t] < count then (s, Got(s.owned[t]))
    else
      var dropped := s.owned - {t};
      if s.free == {} then (s.(owned := dropped), NoneFree)
      else if !(0 <= popped < count) then (s.(owned := dropped), Refused)
      else (s.(owned := dropped[t := popped], free := s.free - {popped}), Got(popped))
  }

  // ---------- the scripts, step by step ----------

  /** SADD every partition below the count that is neither in use nor already free. */
  method Fill(count: int, taken: set<int>, current: set<int>) returns (free: set<int>)
    requires count >= 1
    ensures free == (Interval(0, count) - taken) + current
  {
    free := current;
    var p := 0;
    while p < count
      invariant 0 <= p <= count
      invariant forall x :: x in free <==> x in current || (0 <= x < p && x !in taken)
    {
      if p !in taken && p !in current { free := free + {p}; }
      p := p + 1;
    }
  }

  /** The HGETALL loop: collect the partitions in use and HDEL the assignments out of range. */
  method Reconcile(before: map<Tenant, int>, count: int) returns (owned: map<Tenant, int>, taken: set<int>)
    ensures owned == Kept(before, count) && taken == owned.Values
  {
    owned, taken := before, {};
    var todo := before.Keys;
    while todo != {}
      invariant todo <= before.Keys
      invariant owned == map t | t in before && (t in todo || 0 <= before[t] < count) :: before[t]
      invariant taken == set t | t in before && t !in todo && 0 <= before[t] < count :: before[t]
      decreases |todo|
    {
      var t :| t in todo;
      todo := todo - {t};
      if 0 <= before[t] < count {
        taken := taken + {before[t]};
      } else {
        owned := owned - {t};
      }
    }
    assert forall p :: p in owned.Values ==> exists t :: t in owned && owned[t] == p;
  }

  /** The allocator's keys in Redis. */
  class Allocator {
    var table: Table

    constructor ()
      ensures table == Table(map[], {}, -1)
    {
      table := Table(map[], {}, -1);
    }

    method WarmUp(count: int) returns (size: int)
      modifies this
      ensures table == Warm(old(table), count)
      ensures size == if count < 1 then -1 else |table.free|
    {
      if count < 1 { return -1; }
      var owned, taken := Reconcile(table.owned, count);
      var current: set<int> := {};
      if table.stored == count {
        current := set p | p in table.free && 0 <= p < count;
        assert current == table.free * Interval(0, count);
      }
      var free := Fill(count, taken, current);
      table := Table(owned, free, count);
      return |free|;
    }

    method CheckOut(t: Tenant, count: int) returns (r: Reply, ghost popped: int)
      modifies this
      ensures MayPop(old(table), popped)
      ensures (table, r) == Checkout(old(table), t, count, popped)
    {
      popped := Member(table.free);
      if count < 1 { return Refused, popped; }
      if t in table.owned {
        if 0 <= table.owned[t] < count { return Got(table.owned[t]), popped; }
      }
      table := table.(owned := table.owned - {t});
      if table.free == {} { return NoneFree, popped; }
      var p :| p in table.free;
      popped := p;
      table := table.(free := table.free - {p});
      if !(0 <= p < count) {
        table := table.(free := table.free + {p});
        assert table.free == old(table).free;
        return Refused, popped;
      }
      table := table.(owned := table.owned[t := p]);
      return Got(p), popped;
    }
  }

  // ---------- exclusivity ----------

  ghost predicate Exclusive(s: Table) {
    && (forall t, u :: t in s.owned && u in s.owned && t != u ==> s.owned[t] != s.owned[u])
    && (forall t :: t in s.owned ==> s.owned[t] !in s.free)
  }

  datatype Call = WarmCall(count: int) | CheckoutCall(t: Tenant, count: int, popped: int)

  predicate Enabled(s: Table, c: Call) { c.CheckoutCall? ==> MayPop(s, c.popped) }

  function Apply(s: Table, c: Call): Table {
    match c
    case WarmCall(count) => Warm(s, count)
    case CheckoutCall(t, count, popped) => Checkout(s, t, count, popped).0
  }

  predicate Feasible(s: Table, calls: seq<Call>)
    decreases |calls|
  {
    calls == [] || (Enabled(s, calls[0]) && Feasible(Apply(s, calls[0]), calls[1..]))
  }

  function Run(s: Table, calls: seq<Call>): Table
    decreases |calls|
  {
    if calls == [] then s else Run(Apply(s, calls[0]), calls[1..])
  }

  lemma ApplyExclusive(s: Table, c: Call)
    requires Exclusive(s) && Enabled(s, c)
    ensures Exclusive(Apply(s, c))
  {
    if c.WarmCall? && c.count >= 1 {
      var kept := Kept(s.owned, c.count);
      forall t | t in kept ensures kept[t] !in Warm(s, c.count).free {
        assert kept[t] in kept.Values;
      }
    }
  }

  /** Over any interleaving of warm and checkout calls, with any counts, no two tenants share a
      partition and no assigned partition is free. */
  lemma {:induction false} RunExclusive(s: Table, calls: seq<Call>)
    requires Exclusive(s) && Feasible(s, calls)
    ensures Exclusive(Run(s, calls))
    decreases |calls|
  {
    if calls != [] {
      ApplyExclusive(s, calls[0]);
      RunExclusive(Apply(s, calls[0]), calls[1..]);
    }
  }

  /** After any run, a warm leaves assigned and free partitions that together are exactly 0..count-1. */
  lemma WarmCovers(calls: seq<Call>, count: int)
    requires Feasible(Table(map[], {}, -1), calls) && count >= 1
    ensures var s := Warm(Run(Table(map[], {}, -1), calls), count);
            s.free !! s.owned.Values && s.free + s.owned.Values == Interval(0, count)
  {
    var s := Run(Table(map[], {}, -1), calls);
    RunExclusive(Table(map[], {}, -1), calls);
    WarmPartition(s, count);
  }

  lemma WarmPartition(s: Table, count: int)
    requires Exclusive(s) && count >= 1
    ensures var w := Warm(s, count); w.free !! w.owned.Values && w.free + w.owned.Values == Interval(0, count)
  {
    var w := Warm(s, count);
    ApplyExclusive(s, WarmCall(count));
    forall p | p in w.owned.Values ensures p in Interval(0, count) && p !in w.free {
      var t :| t in w.owned && w.owned[t] == p;
    }
    assert w.free <= Interval(0, count) <= w.free + w.owned.Values;
  }

  /** Every call uses a count of at least n, and counts never shrink along the run. */
  predicate NeverShrinks(n: int, calls: seq<Call>)
    decreases |calls|
  {
    calls == [] || (calls[0].count >= n && NeverShrinks(calls[0].count, calls[1..]))
  }

  /** While counts never shrink, an assigned tenant keeps its partition forever. */
  lemma {:induction false} AssignmentStable(s: Table, calls: seq<Call>, n: int, t: Tenant)
    requires NeverShrinks(n, calls) && t in s.owned && 0 <= s.owned[t] < n
    ensures t in Run(s, calls).owned && Run(s, calls).owned[t] == s.owned[t]
    decreases |calls|
  {
    if calls != [] {
      AssignmentStable(Apply(s, calls[0]), calls[1..], calls[0].count, t);
    }
  }

  /** A partition handed out by a checkout is below the count it was asked with, so the assignment
      is stable from then on. */
  lemma CheckedOutStable(s: Table, t: Tenant, count: int, popped: int, calls: seq<Call>)
    requires NeverShrinks(count, calls) && Checkout(s, t, count, popped).1.Got?
    ensures var (s', r) := Checkout(s, t, count, popped);
            t in Run(s', calls).owned && Run(s', calls).owned[t] == r.partition
  {
    AssignmentStable(Checkout(s, t, count, popped).0, calls, count, t);
  }

  // ---------- what a checkout gives ----------

  /** A valid assignment is repeated; otherwise the tenant gets the partition popped, if one is free and
      below the count, and that one is no longer free. Nobody else's assignment changes. */
  lemma CheckoutMeans(s: Table, t: Tenant, count: int, popped: int)
    requires MayPop(s, popped)
    ensures var (s', r) := Checkout(s, t, count, popped);
            var settled := t in s.owned && 0 <= s.owned[t] < count;
            && (settled ==> r == Got(s.owned[t]) && s' == s)
            && (!settled && count >= 1 && s.free != {} && 0 <= popped < count ==>
                  r == Got(popped) && t in s'.owned && s'.owned[t] == popped && s'.free == s.free - {popped})
            && (!settled && count >= 1 && s.free == {} ==> r == NoneFree)
            && (!r.Got? ==> s'.free == s.free && (count >= 1 ==> t !in s'.owned)) && s'.stored == s.stored
            && forall u :: u != t ==> (u in s'.owned <==> u in s.owned) && (u in s.owned ==> s'.owned[u] == s.owned[u])
  {
  }

  /** A new tenant gets a partition when there is one: after any run and a warm with that count, a checkout
      succeeds exactly when the tenant is assigned already or fewer partitions than the count are, and
      then it is the only owner of what it got. */
  lemma NewTenantServed(calls: seq<Call>, count: int, t: Tenant, popped: int)
    requires Feasible(Table(map[], {}, -1), calls) && count >= 1
    requires MayPop(Warm(Run(Table(map[], {}, -1), calls), count), popped)
    ensures var s := Warm(Run(Table(map[], {}, -1), calls), count);
            var (s', r) := Checkout(s, t, count, popped);
            && (r.Got? <==> t in s.owned || |s.owned.Values| < count)
            && (r.Got? ==> 0 <= r.partition < count && t in s'.owned && s'.owned[t] == r.partition
                           && forall u :: u in s'.owned && u != t ==> s'.owned[u] != r.partition)
  {
    var s := Warm(Run(Table(map[], {}, -1), calls), count);
    WarmCovers(calls, count);
    RunExclusive(Table(map[], {}, -1), calls);
    ApplyExclusive(Run(Table(map[], {}, -1), calls), WarmCall(count));
    ApplyExclusive(s, CheckoutCall(t, count, popped));
    FreeIffRoom(s.owned.Values, s.free, count);
    if t in s.owned { assert s.owned[t] in s.owned.Values; }
    if s.free != {} { assert popped in Interval(0, count); }
  }

  lemma FreeIffRoom(taken: set<int>, free: set<int>, count: int)
    requires count >= 1 && taken !! free && free + taken == Interval(0, count)
    ensures free != {} <==> |taken| < count
  {
    assert |free + taken| == |free| + |taken| == count;
    if free == {} { assert |free| == 0; } else { assert Member(free) in free; }
  }
}
