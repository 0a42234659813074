/**
 The Redis side of the ledger: many batches, the per-status counts and the indexes, updated
 step by step by the scripts.
 */
module LedgerStore {
  import opened Collections
  import opened BatchLedger

  type Id = string

  /** The keys the scripts share: the batch hashes with their bitmaps, kafka_batch:counts, and the
      running, done and cancelled indexes. */
  datatype Keys = Keys(
    batches: map<Id, Batch>,
    counts: map<Status, int>,
    running: set<Id>, done: set<Id>, cancelled: set<Id>)

  function Count(k: Keys, s: Status): int { if s in k.counts then k.counts[s] else 0 }

  function Bump(counts: map<Status, int>, s: Status, n: int): map<Status, int> {
    counts[s := (if s in counts then counts[s] else 0) + n]
  }

  // ---------- what the scripts compute ----------

  /** Store the new ledger of a batch; if that finished it, move it in the counts and indexes. */
  function Settle(k: Keys, id: Id, b: Batch): Keys
    requires id in k.batches
  {
    var was := k.batches[id].status;
    if was == b.status then k.(batches := k.batches[id := b])
    else k.(batches := k.batches[id := b], counts := Bump(Bump(k.counts, was, -1), b.status, 1),
            running := k.running - {id}, done := k.done + {id})
  }

  function CreateOn(k: Keys, id: Id, total: int, sealed: bool): Keys {
    if id in k.batches then k
    else k.(batches := k.batches[id := Created(total, sealed)],
            counts := Bump(k.counts, Running, 1), running := k.running + {id})
  }

  function DoneJobOn(k: Keys, id: Id, q: int, op: Op): Keys {
    if id in k.batches then Settle(k, id, DoneJob(k.batches[id], q, op).0) else k
  }

  function SealOn(k: Keys, id: Id): Keys {
    if id in k.batches then Settle(k, id, Seal(k.batches[id]).0) else k
  }

  function AddJobsOn(k: Keys, id: Id, n: int): Keys {
    if id in k.batches then k.(batches := k.batches[id := AddJobs(k.batches[id], n).0]) else k
  }

  function FinishOn(k: Keys, id: Id, to: Status): Keys {
    if id in k.batches && k.batches[id].status.Running? then Settle(k, id, k.batches[id].(status := to)) else k
  }

  function UpdateStatusOn(k: Keys, id: Id, to: Status): Keys {
    if id !in k.batches || UpdateStatus(k.batches[id], to) == k.batches[id] then k
    else k.(batches := k.batches[id := UpdateStatus(k.batches[id], to)],
            counts := Bump(Bump(k.counts, k.batches[id].status, -1), to, 1),
            running := k.running - {id},
            cancelled := if to.Cancelled? then k.cancelled + {id} else k.cancelled)
  }

  // ---------- the scripts, step by step ----------

  /** The bitmap and counter part of the completion script; changed is false on a duplicate. */
  method RecordEvent(b0: Batch, q: int, op: Op) returns (b: Batch, changed: bool)
    requires !op.Unknown?
    ensures b == Record(b0, q, op)
    ensures changed == (b != b0)
  {
    b := b0;
    var touchedNew := false;
    if q !in b.touched {
      b := b.(touched := b.touched + {q}, touchedCount := b.touchedCount + 1);
      touchedNew := true;
    } else {
      assert b.touched + {q} == b.touched;
      if op.Executed? { return b, false; }
    }
    if op.Succeeded? {
      if q !in b.ok {
        b := b.(ok := b.ok + {q}, okCount := b.okCount + 1);
        if q in b.failed {
          b := b.(failed := b.failed - {q}, failedCount := b.failedCount - 1);
        } else {
          assert b.failed - {q} == b.failed;
        }
      } else if !touchedNew {
        return b, false;
      }
    } else if op.Failed? {
      if q !in b.failed && q !in b.ok {
        b := b.(failed := b.failed + {q}, failedCount := b.failedCount + 1);
      } else if !touchedNew {
        return b, false;
      }
    }
    changed := true;
  }

  /** Set the verdict of a running batch, then HSETNX the claim stamps: only the call that sets a
      stamp fires its callback. */
  method FireCallbacks(b0: Batch, verdict: Option<Status>, allTouched: bool, idle: Outcome)
    returns (b: Batch, o: Outcome)
    ensures (b, o) == Claim(b0, verdict, allTouched, idle)
  {
    b := b0;
    var fireComplete, fireSuccess := false, false;
    if verdict.Some? || allTouched {
      if verdict.Some? && b.status.Running? { b := b.(status := verdict.value); }
      if !b.completeStamp {
        b := b.(completeStamp := true);
        b := b.(anyStamp := true);
        fireComplete := true;
      }
      if verdict == Some(Success) && !b.successStamp {
        b := b.(successStamp := true);
        fireSuccess := true;
      }
    }
    if fireSuccess && fireComplete { return b, FireBoth; }
    if fireSuccess { return b, FireSuccessOnly; }
    if fireComplete && verdict.Some? { return b, FireComplete; }
    if fireComplete { return b, FireEarlyComplete; }
    return b, idle;
  }

  /** The script on one batch, past the checks of its arguments. A duplicate leaves it as it is. */
  method CompleteJob(b0: Batch, q: int, op: Op) returns (b: Batch, o: Outcome)
    requires q >= 1 && !op.Unknown?
    ensures (b, o) == DoneJob(b0, q, op)
  {
    b := b0;
    if b.status.Cancelled? { return b, Duplicate; }
    if (b.status.Success? || b.status.Complete?) && !TouchKeyExists(b) { return b, Duplicate; }
    var changed;
    b, changed := RecordEvent(b, q, op);
    if !changed { return b, Duplicate; }
    if !b.sealed || b.total < 1 { return b, Continue; }
    var verdict := None;
    if b.okCount >= b.total {
      verdict := Some(Success);
    } else if b.okCount + b.failedCount >= b.total {
      verdict := Some(Complete);
    }
    b, o := FireCallbacks(b, verdict, b.touchedCount >= b.total, Continue);
  }

  /** Stamp locked_at if it is not set, then SETBIT total 0 on the three bitmaps. */
  method LockAndAllocate(b0: Batch) returns (b: Batch)
    ensures b == Preallocated(b0.(sealed := true))
  {
    b := b0;
    if !b.sealed { b := b.(sealed := true); }
    if b.total > 0 {
      b := b.(touched := b.touched - {b.total + 1}, touchAllocated := true);
      b := b.(ok := b.ok - {b.total + 1});
      b := b.(failed := b.failed - {b.total + 1});
    }
  }

  /** The replies of a status update: no such batch, already there, already final, or moved. */
  datatype Update = Unknown | Unchanged | Final | Moved

  class Store {
    var batches: map<Id, Batch>
    var counts: map<Status, int>
    var running: set<Id>
    var done: set<Id>
    var cancelled: set<Id>

    function State(): Keys
      reads this
    {
      Keys(batches, counts, running, done, cancelled)
    }

    constructor ()
      ensures State() == Keys(map[], map[], {}, {}, {})
    {
      batches, counts, running, done, cancelled := map[], map[], {}, {}, {};
    }

    method CreateBatch(id: Id, total: int, sealed: bool) returns (created: bool)
      modifies this
      ensures created == (id !in old(batches))
      ensures State() == CreateOn(old(State()), id, total, sealed)
    {
      if id in batches {
        return false;
      }
      batches := batches[id := Created(total, sealed)];
      running := running + {id};
      counts := Bump(counts, Running, 1);
      return true;
    }

    /** Write the hash back; a batch that got its verdict leaves the running index and moves in the counts. */
    method Write(id: Id, b: Batch)
      requires id in batches
      modifies this
      ensures State() == Settle(old(State()), id, b)
    {
      var was := batches[id].status;
      batches := batches[id := b];
      if was != b.status {
        running := running - {id};
        done := done + {id};
        counts := Bump(counts, was, -1);
        counts := Bump(counts, b.status, 1);
      }
    }

    method BatchDoneJob(id: Id, q: int, op: Op) returns (o: Outcome)
      modifies this
      ensures State() == DoneJobOn(old(State()), id, q, op)
      ensures id in old(batches) ==> o == DoneJob(old(batches)[id], q, op).1
      ensures id !in old(batches) ==> o == if q < 1 || op.Unknown? then Invalid else NotFound
    {
      if q < 1 || op.Unknown? {
        if id in batches { assert batches == batches[id := batches[id]]; }
        return Invalid;
      }
      if id !in batches { return NotFound; }
      var b;
      b, o := CompleteJob(batches[id], q, op);
      Write(id, b);
    }

    method SealBatch(id: Id) returns (o: Outcome)
      modifies this
      ensures State() == SealOn(old(State()), id)
      ensures o == if id in old(batches) then Seal(old(batches)[id]).1 else NotFound
    {
      if id !in batches { return NotFound; }
      var b := batches[id];
      b := LockAndAllocate(b);
      o := Sealed;
      if b.status.Running? {
        var verdict := None;
        if b.total == 0 {
          verdict := Some(Success);
        } else if b.okCount >= b.total {
          verdict := Some(Success);
        } else if b.okCount + b.failedCount >= b.total {
          verdict := Some(Complete);
        }
        b, o := FireCallbacks(b, verdict, b.touchedCount >= b.total && b.total > 0, Sealed);
      }
      Write(id, b);
    }

    method AddBatchJobs(id: Id, n: int) returns (r: AddResult)
      modifies this
      ensures State() == AddJobsOn(old(State()), id, n)
      ensures r == if id in old(batches) then AddJobs(old(batches)[id], n).1 else Missing
    {
      if id !in batches { return Missing; }
      var b := batches[id];
      assert batches == batches[id := b];
      if b.status.Cancelled? { return CancelledBatch; }
      if b.status.Success? || b.status.Complete? { return Closed; }
      if b.anyStamp { return Closed; }
      b := b.(total := b.total + n);
      if n > 0 {
        b := b.(seqEnd := b.seqEnd + n);
        r := Added(b.seqEnd - n + 1, b.seqEnd);
      } else {
        r := Shrunk;
      }
      batches := batches[id := b];
    }

    method UpdateBatchStatus(id: Id, to: Status) returns (reply: Update)
      modifies this
      ensures State() == UpdateStatusOn(old(State()), id, to)
      ensures reply == if id !in old(batches) then Update.Unknown
                       else if old(batches)[id].status == to then Unchanged
                       else if !old(batches)[id].status.Running? then Final
                       else Moved
    {
      if id !in batches { return Update.Unknown; }
      var was := batches[id].status;
      if was == to { return Unchanged; }
      if was.Success? || was.Complete? || was.Cancelled? { return Final; }
      batches := batches[id := batches[id].(status := to)];
      running := running - {id};
      counts := Bump(counts, was, -1);
      counts := Bump(counts, to, 1);
      if to.Cancelled? { cancelled := cancelled + {id}; }
      return Moved;
    }

    method MarkFinishedIfRunning(id: Id, to: Status) returns (finished: bool)
      requires Terminal(to)
      modifies this
      ensures State() == FinishOn(old(State()), id, to)
      ensures finished == (id in old(batches) && old(batches)[id].status.Running?)
    {
      if id !in batches { return false; }
      if !batches[id].status.Running? { return false; }
      Write(id, batches[id].(status := to));
      return true;
    }
  }

  // ---------- status accounting ----------

  datatype Call =
    | Create(id: Id, total: int, sealed: bool)
    | Done(id: Id, q: int, op: Op)
    | AddTo(id: Id, n: int)
    | SealCall(id: Id)
    | SetStatus(id: Id, to: Status)
    | FinishIfRunning(id: Id, success: bool)

  function Apply(k: Keys, c: Call): Keys {
    match c
    case Create(id, total, sealed) => CreateOn(k, id, total, sealed)
    case Done(id, q, op) => DoneJobOn(k, id, q, op)
    case AddTo(id, n) => AddJobsOn(k, id, n)
    case SealCall(id) => SealOn(k, id)
    case SetStatus(id, to) => UpdateStatusOn(k, id, to)
    case FinishIfRunning(id, success) => FinishOn(k, id, if success then Success else Complete)
  }

  function Run(k: Keys, calls: seq<Call>): Keys
    decreases |calls|
  {
    if calls == [] then k else Run(Apply(k, calls[0]), calls[1..])
  }

  function WithStatus(k: Keys, s: Status): set<Id> {
    set id | id in k.batches && k.batches[id].status == s
  }

  /** Each count is the number of batches in that status; the running index is the running ones. */
  ghost predicate Counted(k: Keys) {
    && (forall s :: Count(k, s) == |WithStatus(k, s)|)
    && k.running == WithStatus(k, Running)
  }

  /** Changing the status of one batch moves it from one class to the other and nothing else. */
  lemma StatusMoved(k: Keys, id: Id, b: Batch, s: Status)
    requires id in k.batches && k.batches[id].status != b.status
    ensures var k' := k.(batches := k.batches[id := b]);
            |WithStatus(k', s)| == |WithStatus(k, s)|
                                   - (if s == k.batches[id].status then 1 else 0) + (if s == b.status then 1 else 0)
    ensures WithStatus(k.(batches := k.batches[id := b]), s) ==
            if s == b.status then WithStatus(k, s) + {id} else WithStatus(k, s) - {id}
  {
    var k' := k.(batches := k.batches[id := b]);
    if s == b.status {
      assert WithStatus(k', s) == WithStatus(k, s) + {id};
    } else {
      assert WithStatus(k', s) == WithStatus(k, s) - {id};
    }
  }

  lemma StatusKept(k: Keys, id: Id, b: Batch)
    requires Counted(k) && id in k.batches && k.batches[id].status == b.status
    ensures Counted(k.(batches := k.batches[id := b]))
  {
    var k' := k.(batches := k.batches[id := b]);
    forall s ensures WithStatus(k', s) == WithStatus(k, s) && Count(k', s) == Count(k, s) {}
  }

  lemma SettleCounted(k: Keys, id: Id, b: Batch)
    requires Counted(k) && id in k.batches
    requires k.batches[id].status == b.status || k.batches[id].status.Running?
    ensures Counted(Settle(k, id, b))
  {
    var k' := k.(batches := k.batches[id := b]);
    if k.batches[id].status == b.status {
      StatusKept(k, id, b);
    } else {
      forall s ensures Count(Settle(k, id, b), s) == |WithStatus(Settle(k, id, b), s)| {
        StatusMoved(k, id, b, s);
        assert WithStatus(Settle(k, id, b), s) == WithStatus(k', s);
      }
      StatusMoved(k, id, b, Running);
      assert WithStatus(Settle(k, id, b), Running) == WithStatus(k', Running);
    }
  }

  lemma CreateCounted(k: Keys, id: Id, total: int, sealed: bool)
    requires Counted(k)
    ensures Counted(CreateOn(k, id, total, sealed))
  {
    var k' := CreateOn(k, id, total, sealed);
    if id !in k.batches {
      forall s ensures Count(k', s) == |WithStatus(k', s)| {
        if s.Running? {
          assert WithStatus(k', s) == WithStatus(k, s) + {id};
        } else {
          assert WithStatus(k', s) == WithStatus(k, s);
        }
      }
      assert WithStatus(k', Running) == WithStatus(k, Running) + {id};
    }
  }

  predicate OnlyFinishes(from: Status, to: Status) { from == to || (from.Running? && Terminal(to)) }

  lemma ClaimStatus(b: Batch, verdict: Option<Status>, allTouched: bool, idle: Outcome)
    requires verdict.Some? ==> Terminal(verdict.value)
    ensures OnlyFinishes(b.status, Claim(b, verdict, allTouched, idle).0.status)
  {
  }

  /** The scripts change a status only from running, and only to a terminal one. */
  lemma DoneJobStatus(b: Batch, q: int, op: Op)
    ensures OnlyFinishes(b.status, DoneJob(b, q, op).0.status)
  {
    var r := Record(b, q, op);
    ClaimStatus(r, Verdict(r), r.touchedCount >= r.total, Continue);
  }

  lemma SealStatus(b: Batch)
    ensures OnlyFinishes(b.status, Seal(b).0.status)
  {
    var p := Preallocated(b.(sealed := true));
    var verdict := if p.total == 0 then Some(Success) else Verdict(p);
    ClaimStatus(p, verdict, p.touchedCount >= p.total && p.total > 0, Sealed);
  }

  lemma ApplyCounted(k: Keys, c: Call)
    requires Counted(k)
    ensures Counted(Apply(k, c))
  {
    match c
    case Create(id, total, sealed) => CreateCounted(k, id, total, sealed);
    case Done(id, q, op) =>
      if id in k.batches {
        DoneJobStatus(k.batches[id], q, op);
        SettleCounted(k, id, DoneJob(k.batches[id], q, op).0);
      }
    case AddTo(id, n) =>
      if id in k.batches { StatusKept(k, id, AddJobs(k.batches[id], n).0); }
    case SealCall(id) =>
      if id in k.batches {
        SealStatus(k.batches[id]);
        SettleCounted(k, id, Seal(k.batches[id]).0);
      }
    case SetStatus(id, to) =>
      if id in k.batches && UpdateStatus(k.batches[id], to) != k.batches[id] {
        var b := UpdateStatus(k.batches[id], to);
        SettleCounted(k, id, b);
        var m, u := Settle(k, id, b), Apply(k, c);
        forall s ensures Count(u, s) == |WithStatus(u, s)| && WithStatus(u, s) == WithStatus(m, s) {
          assert WithStatus(u, s) == WithStatus(m, s);
          assert Count(m, s) == |WithStatus(m, s)|;
        }
      }
    case FinishIfRunning(id, success) =>
      if id in k.batches && k.batches[id].status.Running? {
        SettleCounted(k, id, k.batches[id].(status := if success then Success else Complete));
      }
  }

  /** Over every interleaving of calls on any number of batches the counts and the running index
      stay exact. */
  lemma {:induction false} RunCounted(k: Keys, calls: seq<Call>)
    requires Counted(k)
    ensures Counted(Run(k, calls))
    decreases |calls|
  {
    if calls != [] {
      ApplyCounted(k, calls[0]);
      RunCounted(Apply(k, calls[0]), calls[1..]);
    }
  }

  lemma AccountingExact(calls: seq<Call>)
    ensures Counted(Run(Keys(map[], map[], {}, {}, {}), calls))
  {
    var empty := Keys(map[], map[], {}, {}, {});
    assert forall s :: WithStatus(empty, s) == {};
    RunCounted(empty, calls);
  }

  /** A batch never leaves a terminal or cancelled status. */
  lemma {:induction false} StatusAbsorbing(k: Keys, calls: seq<Call>, id: Id)
    requires id in k.batches && !k.batches[id].status.Running?
    ensures id in Run(k, calls).batches && Run(k, calls).batches[id].status == k.batches[id].status
    decreases |calls|
  {
    if calls != [] {
      var c := calls[0];
      match c {
        case Done(i, q, op) => DoneJobStatus(k.batches[id], q, op);
        case SealCall(i) => SealStatus(k.batches[id]);
        case _ =>
      }
      StatusAbsorbing(Apply(k, c), calls[1..], id);
    }
  }

  // ---------- what each call does ----------

  /** A call changes at most the batch it names. */
  lemma OthersUntouched(k: Keys, c: Call, id: Id)
    requires id != c.id
    ensures var k' := Apply(k, c);
            && (id in k'.batches <==> id in k.batches) && (id in k.batches ==> k'.batches[id] == k.batches[id])
            && (id in k'.running <==> id in k.running) && (id in k'.done <==> id in k.done)
            && (id in k'.cancelled <==> id in k.cancelled)
  {
  }

  /** No call removes a batch; a create makes one that runs, with the total and lock it was given and
      nothing recorded, reserved or claimed, and only if there is none. */
  lemma CreateMeans(k: Keys, c: Call, id: Id)
    requires id in Apply(k, c).batches || id in k.batches
    ensures id in Apply(k, c).batches
    ensures id !in k.batches ==>
              var b := Apply(k, c).batches[id];
              && c.Create? && c.id == id && b.status.Running? && b.total == c.total && b.sealed == c.sealed
              && b.touched == b.ok == b.failed == {} && b.touchedCount == b.okCount == b.failedCount == b.seqEnd == 0
              && !b.completeStamp && !b.successStamp && !b.anyStamp && !b.touchAllocated
    ensures c.Create? && c.id in k.batches ==> Apply(k, c) == k
  {
  }

  /** A status update or a finish moves a running batch to the status asked for and touches nothing else of
      it; any other batch stays as it is. */
  lemma StatusCallMeans(k: Keys, c: Call)
    requires (c.SetStatus? || c.FinishIfRunning?) && c.id in k.batches
    ensures var (b, b') := (k.batches[c.id], Apply(k, c).batches[c.id]);
            var to := if c.SetStatus? then c.to else if c.success then Success else Complete;
            b' == b.(status := if b.status.Running? then to else b.status)
    ensures !k.batches[c.id].status.Running? ==> Apply(k, c) == k
  {
  }

  /** What a call does to the one batch it names. */
  function Effect(b: Batch, c: Call): Batch {
    match c
    case Create(_, _, _) => b
    case Done(_, q, op) => DoneJob(b, q, op).0
    case AddTo(_, n) => AddJobs(b, n).0
    case SealCall(_) => Seal(b).0
    case SetStatus(_, to) => UpdateStatus(b, to)
    case FinishIfRunning(_, success) =>
      b.(status := if !b.status.Running? then b.status else if success then Success else Complete)
  }

  /** One batch and the calls that name it. */
  function Replay(b: Batch, calls: seq<Call>, id: Id): Batch
    decreases |calls|
  {
    if calls == [] then b else Replay(if calls[0].id == id then Effect(b, calls[0]) else b, calls[1..], id)
  }

  lemma CallTakesEffect(k: Keys, c: Call)
    requires c.id in k.batches
    ensures c.id in Apply(k, c).batches && Apply(k, c).batches[c.id] == Effect(k.batches[c.id], c)
  {
  }

  /** Isolation: over every interleaving of calls on any number of batches, each batch is what its own calls
      alone make of it. */
  lemma {:induction false} RunIsolated(k: Keys, calls: seq<Call>, id: Id)
    requires id in k.batches
    ensures id in Run(k, calls).batches && Run(k, calls).batches[id] == Replay(k.batches[id], calls, id)
    decreases |calls|
  {
    if calls != [] {
      if calls[0].id == id { CallTakesEffect(k, calls[0]); } else { OthersUntouched(k, calls[0], id); }
      RunIsolated(Apply(k, calls[0]), calls[1..], id);
    }
  }

  /** The done index is the finished batches, and the cancelled index the cancelled ones. */
  ghost predicate Indexed(k: Keys) {
    && (forall id :: id in k.done <==> id in k.batches && Terminal(k.batches[id].status))
    && (forall id :: id in k.cancelled <==> id in k.batches && k.batches[id].status.Cancelled?)
  }

  lemma SettleIndexed(k: Keys, id: Id, b: Batch)
    requires Indexed(k) && id in k.batches && OnlyFinishes(k.batches[id].status, b.status)
    ensures Indexed(Settle(k, id, b))
  {
  }

  lemma ApplyIndexed(k: Keys, c: Call)
    requires Indexed(k) && (c.SetStatus? ==> !Terminal(c.to))
    ensures Indexed(Apply(k, c))
  {
    match c
    case Done(id, q, op) =>
      if id in k.batches {
        DoneJobStatus(k.batches[id], q, op);
        SettleIndexed(k, id, DoneJob(k.batches[id], q, op).0);
      }
    case SealCall(id) =>
      if id in k.batches {
        SealStatus(k.batches[id]);
        SettleIndexed(k, id, Seal(k.batches[id]).0);
      }
    case FinishIfRunning(id, success) =>
      if id in k.batches && k.batches[id].status.Running? {
        SettleIndexed(k, id, k.batches[id].(status := if success then Success else Complete));
      }
    case _ =>
  }

  /** Over every interleaving of calls whose status updates do not finish a batch, both indexes are exact. */
  lemma {:induction false} RunIndexed(k: Keys, calls: seq<Call>)
    requires Indexed(k) && forall c <- calls :: c.SetStatus? ==> !Terminal(c.to)
    ensures Indexed(Run(k, calls))
    decreases |calls|
  {
    if calls != [] {
      ApplyIndexed(k, calls[0]);
      RunIndexed(Apply(k, calls[0]), calls[1..]);
    }
  }
}
