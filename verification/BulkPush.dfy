/**
 Bulk push into a batch: reserve a window of sequence numbers, build the records, produce them in
 chunks, and give back what was not produced.

 Others keep working on the same batch meanwhile: workers report jobs that were produced, clients
 push and roll back their own windows, and the batch may be sealed or cancelled.
 */
module BulkPush {
  import opened Collections
  import opened BatchLedger
  import opened CompletionGate
  import Delivery

  // ---------- the window ----------

  /** A reserved range of sequence numbers, walked by one push. */
  class SeqWindow {
    var next: int
    var end: int

    constructor (first: int, last: int)
      ensures next == first && end == last
    {
      next, end := first, last;
    }

    /** The next number; none when nothing was reserved or the range is used up. */
    method Take() returns (taken: Option<int>)
      modifies this`next
      ensures taken.Some? <==> old(next) != 0 && end != 0 && old(next) <= end
      ensures if taken.Some? then taken.value == old(next) && next == old(next) + 1 else next == old(next)
    {
      if next == 0 || end == 0 { return None; }
      if next > end { return None; }
      taken := Some(next);
      next := next + 1;
    }
  }

  // ---------- what flags mean ----------

  function Count(flags: seq<bool>): nat {
    if flags == [] then 0 else Count(flags[..|flags| - 1]) + if flags[|flags| - 1] then 1 else 0
  }

  /** The numbers of the window, from first on, whose flag has the given value. */
  function Flagged(first: int, flags: seq<bool>, value: bool): set<int> {
    if flags == [] then {}
    else
      var n := |flags| - 1;
      Flagged(first, flags[..n], value) + if flags[n] == value then {first + n} else {}
  }

  lemma {:induction false} FlaggedMember(first: int, flags: seq<bool>, value: bool, q: int)
    ensures q in Flagged(first, flags, value) <==> first <= q < first + |flags| && flags[q - first] == value
  {
    if flags != [] { FlaggedMember(first, flags[..|flags| - 1], value, q); }
  }

  lemma {:induction false} FlaggedSize(first: int, flags: seq<bool>, value: bool)
    ensures |Flagged(first, flags, value)| == if value then Count(flags) else |flags| - Count(flags)
  {
    if flags != [] {
      var n := |flags| - 1;
      FlaggedSize(first, flags[..n], value);
      FlaggedMember(first, flags[..n], value, first + n);
    }
  }

  /** Produced and unproduced numbers split the window. */
  lemma FlagsSplit(first: int, flags: seq<bool>)
    ensures var (kept, lost) := (Flagged(first, flags, true), Flagged(first, flags, false));
            kept !! lost && forall q :: q in kept || q in lost <==> first <= q < first + |flags|
  {
    forall q ensures q in Flagged(first, flags, true) <==> first <= q < first + |flags| && flags[q - first] {
      FlaggedMember(first, flags, true, q);
    }
    forall q ensures q in Flagged(first, flags, false) <==> first <= q < first + |flags| && !flags[q - first] {
      FlaggedMember(first, flags, false, q);
    }
  }

  /** The plans whose flag is not set; flags may be missing. */
  function Unproduced(plans: seq<string>, flags: seq<bool>): set<string> {
    set i | 0 <= i < |plans| && !(i < |flags| && flags[i]) :: plans[i]
  }

  /** Flags for n plans; a missing flag reads as not produced. */
  function Padded(flags: seq<bool>, n: nat): (padded: seq<bool>)
    ensures |padded| == n
  {
    seq(n, i requires 0 <= i < n => i < |flags| && flags[i])
  }

  lemma CountNext(flags: seq<bool>, i: nat)
    requires i < |flags|
    ensures Count(flags[..i + 1]) == Count(flags[..i]) + if flags[i] then 1 else 0
  {
    assert flags[..i + 1][..i] == flags[..i];
  }

  // ---------- others ----------

  /** The numbers first, ..., first + n - 1, reserved by one push. */
  datatype Window = Window(first: int, n: nat)

  predicate Inside(q: int, window: Window) { window.first <= q < window.first + window.n }

  /** What the rest of the system may do while a push owns the window. */
  predicate Foreign(w: World, a: Action, window: Window) {
    && Enabled(w, a)
    && (a.Produce? ==> !Inside(a.q, window)) && (a.Rollback? ==> forall q <- a.seqs :: !Inside(q, window))
  }

  predicate Foreigns(w: World, acts: seq<Action>, window: Window)
    decreases |acts|
  {
    acts == [] || (Foreign(w, acts[0], window) && Foreigns(Next(w, acts[0]), acts[1..], window))
  }

  lemma {:induction false} ForeignsExtend(w: World, acts: seq<Action>, a: Action, window: Window)
    requires Foreigns(w, acts, window) && Foreign(CompletionGate.Run(w, acts), a, window)
    ensures Foreigns(w, acts + [a], window)
    decreases |acts|
  {
    if acts == [] {
      assert acts + [a] == [a] && [a][1..] == [];
    } else {
      assert (acts + [a])[1..] == acts[1..] + [a];
      ForeignsExtend(Next(w, acts[0]), acts[1..], a, window);
    }
  }

  /** What others do commutes with the client's own produces: whatever others do between two chunks
      they may as well do after the last one. */
  lemma ProduceCommutes(w: World, a: Action, q: int, window: Window)
    requires Inside(q, window) && Foreign(w, a, window)
    ensures Foreign(Next(w, Produce(q)), a, window)
    ensures Next(Next(w, Produce(q)), a) == Next(Next(w, a), Produce(q))
  {
    if a.Produce? { assert w.produced + {q} + {a.q} == w.produced + {a.q} + {q}; }
  }

  // ---------- a push, as a whole ----------

  function First(w: World): int { w.b.seqEnd + 1 }

  function WindowOf(w: World, n: nat): Window { Window(First(w), n) }

  predicate Granted(w: World, n: nat) { n > 0 && AddJobs(w.b, n).1.Added? }

  /** The confirmed records of the window are durable. */
  function Confirmed(w: World, first: int, flags: seq<bool>): World {
    w.(produced := w.produced + Flagged(first, flags, true))
  }

  /** The window is reserved and the confirmed records are durable. */
  function Sent(w: World, flags: seq<bool>): World { Confirmed(Next(w, Reserve(|flags|)), First(w), flags) }

  /** The negative AddJobs of the client; nothing is sent when nothing was lost. */
  function Returned(w: World, lost: set<int>): World {
    if lost == {} then w else Next(w, Rollback(lost))
  }

  /** A push with these flags, while others do acts. */
  function PushEnd(w: World, flags: seq<bool>, acts: seq<Action>): World {
    Returned(CompletionGate.Run(Sent(w, flags), acts), Flagged(First(w), flags, false))
  }

  /** The push owns the window, of which the lost numbers are reserved and not produced. */
  ghost predicate Owns(w: World, window: Window, lost: set<int>) {
    && Inv(w) && window.first + window.n - 1 <= w.b.seqEnd
    && forall q <- lost :: Inside(q, window) && q in w.live && q !in w.produced
  }

  /** Inside the window nothing changed. */
  ghost predicate SameInside(w: World, w': World, window: Window) {
    && (forall q :: Inside(q, window) ==> (q in w'.live <==> q in w.live))
    && (forall q :: Inside(q, window) ==> (q in w'.produced <==> q in w.produced))
  }

  lemma ForeignKeepsWindow(w: World, a: Action, window: Window)
    requires Foreign(w, a, window) && window.first + window.n - 1 <= w.b.seqEnd
    ensures SameInside(w, Next(w, a), window)
  {
  }

  /** Whatever others do, the push keeps its window and its unproduced numbers. */
  lemma ForeignStep(w: World, a: Action, window: Window, lost: set<int>)
    requires Owns(w, window, lost) && Foreign(w, a, window) && (a.SealBatch? ==> WipesNothing(w.b))
    ensures Owns(Next(w, a), window, lost) && SameInside(w, Next(w, a), window)
  {
    StepSound(w, a);
    StepMonotone(w, a);
    ForeignKeepsWindow(w, a, window);
  }

  lemma {:induction false} ForeignRun(w: World, acts: seq<Action>, window: Window, lost: set<int>)
    requires Owns(w, window, lost) && Foreigns(w, acts, window) && Legal(w, acts)
    ensures Owns(CompletionGate.Run(w, acts), window, lost) && SameInside(w, CompletionGate.Run(w, acts), window)
    decreases |acts|
  {
    if acts != [] {
      ForeignStep(w, acts[0], window, lost);
      ForeignRun(Next(w, acts[0]), acts[1..], window, lost);
    }
  }

  /** The rollback of the lost numbers is granted unless the batch was cancelled, and then takes exactly
      them off total_jobs. */
  lemma RollbackGranted(w: World, window: Window, lost: set<int>)
    requires Owns(w, window, lost)
    ensures lost != {} ==> Enabled(w, Rollback(lost))
    ensures w.b.status.Cancelled? ==> AddJobs(w.b, -|lost|).1.CancelledBatch? && Returned(w, lost) == w
    ensures !w.b.status.Cancelled? && lost != {} ==> AddJobs(w.b, -|lost|).1.Shrunk?
    ensures !w.b.status.Cancelled? ==>
              var r := Returned(w, lost); Inv(r) && r.live == w.live - lost && r.b.total == w.b.total - |lost|
  {
    if lost != {} {
      forall q <- lost ensures q in w.live - w.produced { assert Inside(q, window); }
    }
    if lost != {} && !w.b.status.Cancelled? {
      RollbackKeepsInv(w, lost);
      RollbackOpen(w, lost);
    }
  }

  lemma ReservedOwns(w: World, n: nat)
    requires Inv(w) && Granted(w, n)
    ensures var (r, window) := (Next(w, Reserve(n)), WindowOf(w, n));
            && Owns(r, window, {}) && r.b.total == w.b.total + n
            && (forall q :: Inside(q, window) ==> q in r.live && q !in r.produced)
  {
    ReserveKeepsInv(w, n);
  }

  lemma ProducedOwns(w: World, window: Window, kept: set<int>, lost: set<int>)
    requires Owns(w, window, {}) && (forall q :: Inside(q, window) ==> q in w.live && q !in w.produced)
    requires kept !! lost && forall q <- kept + lost :: Inside(q, window)
    ensures Owns(w.(produced := w.produced + kept), window, lost)
  {
    forall q <- kept ensures q in w.live { assert q in kept + lost && Inside(q, window); }
    forall q <- lost ensures Inside(q, window) && q !in w.produced + kept { assert q in kept + lost; }
  }

  lemma SentOwns(w: World, flags: seq<bool>)
    requires Inv(w) && Granted(w, |flags|)
    ensures var s := Sent(w, flags);
            && Owns(s, WindowOf(w, |flags|), Flagged(First(w), flags, false)) && s.b.total == w.b.total + |flags|
            && forall q :: Inside(q, WindowOf(w, |flags|)) ==> q in s.live
  {
    ReservedOwns(w, |flags|);
    FlagsSplit(First(w), flags);
    var r, kept, lost := Next(w, Reserve(|flags|)), Flagged(First(w), flags, true), Flagged(First(w), flags, false);
    ProducedOwns(r, WindowOf(w, |flags|), kept, lost);
  }

  /** A number of the window is live exactly when its record was produced. */
  ghost predicate Kept(live: set<int>, first: int, flags: seq<bool>) {
    forall i :: 0 <= i < |flags| ==> (first + i in live <==> flags[i])
  }

  lemma ReturnedKeeps(live: set<int>, window: Window, flags: seq<bool>)
    requires window.n == |flags| && forall q :: Inside(q, window) ==> q in live
    ensures var after := live - Flagged(window.first, flags, false);
            Kept(after, window.first, flags) && forall q :: !Inside(q, window) ==> (q in after <==> q in live)
  {
    forall q ensures q in Flagged(window.first, flags, false) <==> Inside(q, window) && !flags[q - window.first] {
      FlaggedMember(window.first, flags, false, q);
    }
  }

  /** From met the push returns what it lost. On a batch cancelled meanwhile the rollback is refused and
      nothing changes. Otherwise it is granted: of the window exactly the produced numbers are live,
      outside it the live numbers are as they were, and total_jobs loses exactly the unproduced. */
  ghost predicate Lands(met: World, window: Window, flags: seq<bool>) {
    var lost := Flagged(window.first, flags, false);
    var e := Returned(met, lost);
    if met.b.status.Cancelled? then AddJobs(met.b, -|lost|).1.CancelledBatch? && e == met
    else
      && Inv(e) && Kept(e.live, window.first, flags)
      && (forall q :: !Inside(q, window) ==> (q in e.live <==> q in met.live))
      && e.b.total == met.b.total - |flags| + Count(flags)
      && (lost != {} ==> AddJobs(met.b, -|lost|).1.Shrunk?)
  }

  lemma ReturnConserves(met: World, window: Window, flags: seq<bool>)
    requires window.n == |flags| && Owns(met, window, Flagged(window.first, flags, false))
    requires forall q :: Inside(q, window) ==> q in met.live
    ensures Lands(met, window, flags)
  {
    RollbackGranted(met, window, Flagged(window.first, flags, false));
    ReturnedKeeps(met.live, window, flags);
    FlaggedSize(window.first, flags, false);
  }

  /** Conservation: whatever others do meanwhile, as long as no seal wipes a bit, the push lands, and
      unless the batch was cancelled total_jobs grew by exactly the produced records and by what the
      others' own actions added or took. */
  lemma PushConserves(w: World, flags: seq<bool>, acts: seq<Action>)
    requires Inv(w) && Granted(w, |flags|) && Foreigns(Sent(w, flags), acts, WindowOf(w, |flags|))
    requires Legal(Sent(w, flags), acts)
    ensures Lands(CompletionGate.Run(Sent(w, flags), acts), WindowOf(w, |flags|), flags)
    ensures Inv(CompletionGate.Run(Sent(w, flags), acts))
    ensures var met := CompletionGate.Run(Sent(w, flags), acts);
            !met.b.status.Cancelled? ==>
              PushEnd(w, flags, acts).b.total - w.b.total == Count(flags) + (met.b.total - Sent(w, flags).b.total)
  {
    var s, window := Sent(w, flags), WindowOf(w, |flags|);
    SentOwns(w, flags);
    MetOwns(s, acts, window, Flagged(window.first, flags, false));
    ReturnConserves(CompletionGate.Run(s, acts), window, flags);
    if !CompletionGate.Run(s, acts).b.status.Cancelled? { LandsTotal(CompletionGate.Run(s, acts), window, flags); }
  }

  lemma MetOwns(s: World, acts: seq<Action>, window: Window, lost: set<int>)
    requires Owns(s, window, lost) && Foreigns(s, acts, window) && Legal(s, acts)
    requires forall q :: Inside(q, window) ==> q in s.live
    ensures var met := CompletionGate.Run(s, acts);
            Owns(met, window, lost) && forall q :: Inside(q, window) ==> q in met.live
  {
    ForeignRun(s, acts, window, lost);
  }

  lemma LandsTotal(met: World, window: Window, flags: seq<bool>)
    requires Lands(met, window, flags) && !met.b.status.Cancelled?
    ensures Returned(met, Flagged(window.first, flags, false)).b.total == met.b.total - |flags| + Count(flags)
  {
  }

  lemma PaddedEmpty(plans: seq<string>, first: int)
    ensures var flags := Padded([], |plans|);
            && Count(flags) == 0 && Flagged(first, flags, true) == {}
            && Unproduced(plans, flags) == Unproduced(plans, [])
            && Delivery.FlagsExact([], flags)
  {
    var flags := Padded([], |plans|);
    forall q ensures q !in Flagged(first, flags, true) { FlaggedMember(first, flags, true, q); }
    FlaggedSize(first, flags, true);
  }

  /** Full flags need no padding, and when all are set nothing is unproduced. */
  lemma AllOrSome(plans: seq<string>, flags: seq<bool>, first: int)
    requires |flags| == |plans|
    ensures Padded(flags, |plans|) == flags
    ensures (forall i :: 0 <= i < |flags| ==> flags[i]) ==>
              Flagged(first, flags, false) == {} && Unproduced(plans, flags) == {}
  {
    if forall i :: 0 <= i < |flags| ==> flags[i] {
      forall q ensures q !in Flagged(first, flags, false) { FlaggedMember(first, flags, false, q); }
    }
  }

  /** Give every plan a number and build its record. It succeeds exactly when no plan is broken: numbers
      never run out. */
  method BuildRecords(n: nat, first: int, last: int, broken: set<int>) returns (built: bool, numbers: seq<int>)
    requires 1 <= first && last == first + n - 1
    ensures built <==> forall i :: 0 <= i < n ==> i !in broken
    ensures built ==> |numbers| == n && forall i :: 0 <= i < n ==> numbers[i] == first + i
  {
    var window := new SeqWindow(first, last);
    numbers := [];
    for i := 0 to n
      invariant window.next == first + i && window.end == last && |numbers| == i
      invariant forall j :: 0 <= j < i ==> numbers[j] == first + j && j !in broken
    {
      var taken := window.Take();
      assert taken.Some?;
      if i in broken { return false, numbers; }
      numbers := numbers + [taken.value];
    }
    built := true;
  }

  // ---------- the client ----------

  /** One run of a push: what the broker confirmed, in which calls, and what others did meanwhile. */
  datatype Push = Push(flags: seq<bool>, calls: seq<Delivery.Call>, sent: nat, acts: seq<Action>)

  /** From a batch with the window reserved, the push ended where it and the others together lead, and
      its flags are what the broker confirmed. */
  ghost predicate Delivers(w: World, w': World, first: int, plans: seq<string>, configured: int, p: Push) {
    && |p.flags| == |plans| && Delivery.Flagged(p.calls, p.flags, p.sent, Delivery.ChunkSize(configured))
    && Foreigns(Confirmed(w, first, p.flags), p.acts, Window(first, |plans|))
    && w' == Returned(CompletionGate.Run(Confirmed(w, first, p.flags), p.acts), Flagged(first, p.flags, false))
  }

  lemma ReturnKeepsStatus(met: World, lost: set<int>)
    ensures Returned(met, lost).b.status == met.b.status
  {
  }

  /** What a push from w to w' promises: refused, it changed nothing; granted, it delivered. */
  ghost predicate Pushed(w: World, w': World, plans: seq<string>, configured: int, p: Push) {
    if Granted(w, |plans|) then Delivers(Next(w, Reserve(|plans|)), w', First(w), plans, configured, p)
    else w' == w && p == Push(Padded([], |plans|), [], 0, [])
  }

  /** What the others' own actions did to total_jobs meanwhile. */
  function OthersShare(w: World, p: Push): int {
    if !Granted(w, |p.flags|) then 0
    else CompletionGate.Run(Sent(w, p.flags), p.acts).b.total - Sent(w, p.flags).b.total
  }

  /** Every push conserves, as long as no seal wipes a bit meanwhile: on a batch that is not cancelled a
      number of the window is live exactly when its record was produced, and total_jobs grew by the
      produced records and by the others' share, nothing else. On a batch that others cancelled
      meanwhile the rollback is refused, and total_jobs keeps the whole window. */
  lemma PushedConserves(w: World, w': World, plans: seq<string>, configured: int, p: Push)
    requires Inv(w) && Pushed(w, w', plans, configured, p)
    requires Granted(w, |plans|) ==> Legal(Sent(w, p.flags), p.acts)
    ensures |p.flags| == |plans| && Inv(w')
    ensures !w'.b.status.Cancelled? || !Granted(w, |plans|) ==>
              Kept(w'.live, First(w), p.flags) && w'.b.total == w.b.total + Count(p.flags) + OthersShare(w, p)
    ensures w'.b.status.Cancelled? && Granted(w, |plans|) ==> w'.b.total == w.b.total + |plans| + OthersShare(w, p)
  {
    if Granted(w, |plans|) {
      PushConserves(w, p.flags, p.acts);
      SentOwns(w, p.flags);
      ReturnKeepsStatus(CompletionGate.Run(Sent(w, p.flags), p.acts), Flagged(First(w), p.flags, false));
    } else {
      PaddedEmpty(plans, First(w));
    }
  }

  /** The client's view of one batch in the store, and the uniqueness locks held, by job id. */
  class Client {
    var w: World
    var locks: set<string>

    constructor (w: World, locks: set<string>)
      ensures this.w == w && this.locks == locks
    {
      this.w, this.locks := w, locks;
    }

    method OthersRun(window: Window) returns (ghost acts: seq<Action>)
      modifies this`w
      ensures w == CompletionGate.Run(old(w), acts) && Foreigns(old(w), acts, window)
    {
      var steps: int := *;
      acts := [];
      for n := 0 to if steps < 0 then 0 else steps
        invariant w == CompletionGate.Run(old(w), acts) && Foreigns(old(w), acts, window)
      {
        var a: Action := *;
        if Foreign(w, a, window) {
          ForeignsExtend(old(w), acts, a, window);
          Append(old(w), acts, a);
          acts := acts + [a];
          w := Next(w, a);
        }
      }
    }

    /** Release the locks of the plans not produced and return their share of total_jobs. */
    method RollbackPlans(plans: seq<string>, flags: seq<bool>, first: int)
      modifies this
      ensures w == Returned(old(w), Flagged(first, Padded(flags, |plans|), false))
      ensures locks == old(locks) - Unproduced(plans, flags)
    {
      var n, padded := |plans|, Padded(flags, |plans|);
      var unproduced := 0;
      for i := 0 to n
        invariant w == old(w) && unproduced == i - Count(padded[..i])
        invariant locks == old(locks) - Unproduced(plans[..i], flags)
      {
        CountNext(padded, i);
        if i < |flags| && flags[i] { continue; }
        locks := locks - {plans[i]};
        unproduced := unproduced + 1;
      }
      assert padded[..n] == padded && plans[..n] == plans;
      FlaggedSize(first, padded, false);
      if unproduced > 0 {
        var (b, r) := AddJobs(w.b, -unproduced);
        w := World(b, if r.Shrunk? then w.live - Flagged(first, padded, false) else w.live, w.produced);
      }
    }

    /** The store refused the reservation: every lock goes back. */
    method ReleaseLocks(plans: seq<string>)
      modifies this`locks
      ensures locks == old(locks) - Unproduced(plans, [])
    {
      for i := 0 to |plans|
        invariant locks == old(locks) - Unproduced(plans[..i], [])
      {
        locks := locks - {plans[i]};
      }
      assert plans[..|plans|] == plans;
    }

    /** Produce the records of a reserved window, then return what was not produced. Others see the
        confirmed records. */
    method Deliver(plans: seq<string>, first: int, configured: int) returns (ok: bool, ghost p: Push)
      modifies this
      ensures Delivers(old(w), w, first, plans, configured, p) && locks == old(locks) - Unproduced(plans, p.flags)
      ensures ok <==> forall c <- p.calls :: !Delivery.CallFailed(c)
      ensures ok ==> forall i :: 0 <= i < |plans| ==> p.flags[i]
    {
      ghost var calls, sent;
      var flags, failed;
      flags, failed, calls, sent := Delivery.ProduceInChunks(|plans|, configured);
      w := Confirmed(w, first, flags);
      ghost var acts := OthersRun(Window(first, |plans|));
      AllOrSome(plans, flags, first);
      if failed { RollbackPlans(plans, flags, first); }
      return !failed, Push(flags, calls, sent, acts);
    }

    /** A record could not be built: nothing is produced, and the whole window goes back. */
    method Abandon(plans: seq<string>, first: int, ghost configured: int) returns (ghost p: Push)
      modifies this
      ensures Delivers(old(w), w, first, plans, configured, p) && locks == old(locks) - Unproduced(plans, p.flags)
    {
      PaddedEmpty(plans, first);
      ghost var acts := OthersRun(Window(first, |plans|));
      RollbackPlans(plans, [], first);
      assert Confirmed(old(w), first, Padded([], |plans|)) == old(w);
      p := Push(Padded([], |plans|), [], 0, acts);
    }

    /** Push the planned jobs: reserve, build, produce, and return what was not produced. It succeeds
        exactly when there is nothing to push, or the window is granted, every record can be built and
        no produce call fails; then everything was produced. */
    method PushManyJobs(plans: seq<string>, broken: set<int>, configured: int) returns (ok: bool, ghost p: Push)
      requires 0 <= w.b.seqEnd
      modifies this
      ensures Pushed(old(w), w, plans, configured, p)
      ensures locks == old(locks) - Unproduced(plans, p.flags)
      ensures ok <==> || plans == []
                      || (&& Granted(old(w), |plans|) && (forall i :: 0 <= i < |plans| ==> i !in broken)
                          && forall c <- p.calls :: !Delivery.CallFailed(c))
      ensures ok ==> |p.flags| == |plans| && forall i :: 0 <= i < |plans| ==> p.flags[i]
    {
      var n, first := |plans|, w.b.seqEnd + 1;
      var reply := AddJobs(w.b, n).1;
      if n == 0 || !reply.Added? {
        PaddedEmpty(plans, first);
        ReleaseLocks(plans);
        return n == 0, Push(Padded([], n), [], 0, []);
      }
      w := Next(w, Reserve(n));
      ok, p := PushReserved(plans, broken, reply.first, reply.last, configured);
    }

    /** The part of a push after its reservation. */
    method PushReserved(plans: seq<string>, broken: set<int>, first: int, last: int, configured: int)
      returns (ok: bool, ghost p: Push)
      requires 1 <= first && last == first + |plans| - 1
      modifies this
      ensures Delivers(old(w), w, first, plans, configured, p) && locks == old(locks) - Unproduced(plans, p.flags)
      ensures ok <==> && (forall i :: 0 <= i < |plans| ==> i !in broken)
                      && forall c <- p.calls :: !Delivery.CallFailed(c)
      ensures ok ==> forall i :: 0 <= i < |plans| ==> p.flags[i]
    {
      var built, numbers := BuildRecords(|plans|, first, last, broken);
      if built {
        ok, p := Deliver(plans, first, configured);
      } else {
        ok := false;
        p := Abandon(plans, first, configured);
      }
    }
  }
}
