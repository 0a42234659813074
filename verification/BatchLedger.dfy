/**
 The ledger of one batch: three bitmaps with redundant counters, a status, a seal, a
 sequence allocator and the stamps that gate the callbacks.

 A bitmap is the set of sequence numbers whose bit is set (bit i stands for seq i + 1).
 Every function below is one atomic script; TTLs and timestamps are not modelled, so a
 stamp is a flag.
 */
module BatchLedger {
  import opened Collections

  datatype Status = Running | Success | Complete | Cancelled

  datatype Op = Succeeded | Failed | Executed | Unknown

  datatype Outcome =
    | NotFound
    | Invalid
    | Duplicate
    | Continue
    | Sealed
    | FireBoth          // on_complete and on_success, batch terminal
    | FireSuccessOnly   // on_success, on_complete was claimed before
    | FireComplete      // on_complete, batch terminal
    | FireEarlyComplete // on_complete while retries still run

  datatype Batch = Batch(
    status: Status,
    total: int,
    touchedCount: int, okCount: int, failedCount: int,
    touched: set<int>, ok: set<int>, failed: set<int>,
    touchAllocated: bool, // a seal has written the touch bitmap
    sealed: bool,
    seqEnd: int,          // last value handed out by the sequence allocator
    completeStamp: bool, successStamp: bool, anyStamp: bool)

  function Created(total: int, sealed: bool): Batch {
    Batch(Running, total, 0, 0, 0, {}, {}, {}, false, sealed, 0, false, false, false)
  }

  predicate GrantsComplete(o: Outcome) { o.FireBoth? || o.FireComplete? || o.FireEarlyComplete? }

  predicate GrantsSuccess(o: Outcome) { o.FireBoth? || o.FireSuccessOnly? }

  predicate Terminal(s: Status) { s.Success? || s.Complete? }

  /** The touch bitmap key exists once a bit was set or a seal wrote it. */
  predicate TouchKeyExists(b: Batch) { b.touchAllocated || b.touched != {} }

  /** Cancelled, or finished with its touch bitmap missing: every event is a duplicate. */
  predicate DropsEvents(b: Batch) {
    b.status.Cancelled? || (Terminal(b.status) && !TouchKeyExists(b))
  }

  // ---------- the scripts ----------

  /** Bitmap and counter part of a completion event. */
  function Record(b: Batch, q: int, op: Op): Batch {
    var t := b.(touched := b.touched + {q},
                touchedCount := b.touchedCount + if q in b.touched then 0 else 1);
    match op
    case Succeeded =>
      if q in b.ok then t
      else t.(ok := b.ok + {q}, okCount := b.okCount + 1,
              failed := b.failed - {q},
              failedCount := b.failedCount - if q in b.failed then 1 else 0)
    case Failed =>
      if q in b.ok || q in b.failed then t
      else t.(failed := b.failed + {q}, failedCount := b.failedCount + 1)
    case _ => t
  }

  function Verdict(b: Batch): Option<Status> {
    if b.okCount >= b.total then Some(Success)
    else if b.okCount + b.failedCount >= b.total then Some(Complete)
    else None
  }

  /** Move a running batch to its verdict and claim the callbacks nobody has claimed yet. */
  function Claim(b: Batch, verdict: Option<Status>, allTouched: bool, idle: Outcome): (Batch, Outcome) {
    match verdict
    case Some(s) =>
      var fireComplete := !b.completeStamp;
      var fireSuccess := s.Success? && !b.successStamp;
      (b.(status := if b.status.Running? then s else b.status,
          completeStamp := true, anyStamp := b.anyStamp || fireComplete,
          successStamp := b.successStamp || fireSuccess),
       if fireSuccess && fireComplete then FireBoth
       else if fireSuccess then FireSuccessOnly
       else if fireComplete then FireComplete
       else idle)
    case None =>
      if allTouched && !b.completeStamp then
        (b.(completeStamp := true, anyStamp := true), FireEarlyComplete)
      else (b, idle)
  }

  function DoneJob(b: Batch, q: int, op: Op): (Batch, Outcome) {
    if q < 1 || op.Unknown? then (b, Invalid)
    else if DropsEvents(b) then (b, Duplicate)
    else
      var r := Record(b, q, op);
      if r == b then (b, Duplicate)
      else if !r.sealed || r.total < 1 then (r, Continue)
      else Claim(r, Verdict(r), r.touchedCount >= r.total, Continue)
  }

  /** The seal writes a zero at bit total of each bitmap, which is the bit of seq total + 1. */
  function Preallocated(b: Batch): Batch {
    if b.total > 0 then
      b.(touched := b.touched - {b.total + 1}, ok := b.ok - {b.total + 1},
         failed := b.failed - {b.total + 1}, touchAllocated := true)
    else b
  }

  function Seal(b: Batch): (Batch, Outcome) {
    var p := Preallocated(b.(sealed := true));
    if p.status.Running? then
      Claim(p, if p.total == 0 then Some(Success) else Verdict(p),
            p.touchedCount >= p.total && p.total > 0, Sealed)
    else (p, Sealed)
  }

  datatype AddResult = Missing | Added(first: int, last: int) | Shrunk | CancelledBatch | Closed

  function AddJobs(b: Batch, n: int): (Batch, AddResult) {
    if b.status.Cancelled? then (b, CancelledBatch)
    else if Terminal(b.status) || b.anyStamp then (b, Closed)
    else if n > 0 then
      (b.(total := b.total + n, seqEnd := b.seqEnd + n), Added(b.seqEnd + 1, b.seqEnd + n))
    else (b.(total := b.total + n), Shrunk)
  }

  function UpdateStatus(b: Batch, to: Status): Batch {
    if b.status == to || !b.status.Running? then b else b.(status := to)
  }

  // ---------- what every step keeps ----------

  ghost predicate CountsMatch(b: Batch) {
    && b.touchedCount == |b.touched| && b.okCount == |b.ok| && b.failedCount == |b.failed|
    && b.ok !! b.failed && b.ok <= b.touched && b.failed <= b.touched
  }

  ghost predicate SameLedger(a: Batch, b: Batch) {
    && a.touched == b.touched && a.ok == b.ok && a.failed == b.failed
    && a.touchedCount == b.touchedCount && a.okCount == b.okCount && a.failedCount == b.failedCount
  }

  /** What no event and no seal changes: the total, the allocator, a stamp once set, and whether
      the batch is cancelled. */
  predicate Follows(b: Batch, r: Batch) {
    && r.total == b.total && r.seqEnd == b.seqEnd && (b.anyStamp ==> r.anyStamp)
    && (r.status.Cancelled? <==> b.status.Cancelled?)
  }

  lemma ClaimFollows(b: Batch, verdict: Option<Status>, allTouched: bool, idle: Outcome)
    requires verdict != Some(Cancelled)
    ensures Follows(b, Claim(b, verdict, allTouched, idle).0)
  {
  }

  lemma RecordFollows(b: Batch, q: int, op: Op)
    ensures Follows(b, Record(b, q, op))
  {
  }

  lemma DoneJobFollows(b: Batch, q: int, op: Op)
    ensures Follows(b, DoneJob(b, q, op).0)
  {
    var r := Record(b, q, op);
    RecordFollows(b, q, op);
    ClaimFollows(r, Verdict(r), r.touchedCount >= r.total, Continue);
  }

  lemma SealFollows(b: Batch)
    ensures Follows(b, Seal(b).0)
  {
    var p := Preallocated(b.(sealed := true));
    var verdict := if p.total == 0 then Some(Success) else Verdict(p);
    ClaimFollows(p, verdict, p.touchedCount >= p.total && p.total > 0, Sealed);
  }

  /** What a caller can check before a seal: the bit it is about to zero is not set. */
  predicate WipesNothing(b: Batch) { b.total > 0 ==> b.total + 1 !in b.touched }

  /** It also does not finish a batch that has no touch bitmap to record late events in. */
  predicate CleanSeal(b: Batch) { WipesNothing(b) && (b.total > 0 || TouchKeyExists(b)) }

  /** The three bitmaps after an event, one at a time. */
  lemma RecordTouched(b: Batch, q: int, op: Op)
    ensures var r := Record(b, q, op);
            r.touched == b.touched + {q} && r.touchedCount == b.touchedCount + if q in b.touched then 0 else 1
  {
  }

  lemma RecordOk(b: Batch, q: int, op: Op)
    ensures var r := Record(b, q, op);
            if op.Succeeded? && q !in b.ok then r.ok == b.ok + {q} && r.okCount == b.okCount + 1
            else r.ok == b.ok && r.okCount == b.okCount
  {
  }

  lemma RecordFailed(b: Batch, q: int, op: Op)
    ensures var r := Record(b, q, op);
            if op.Succeeded? && q !in b.ok then
              r.failed == b.failed - {q} && r.failedCount == b.failedCount - if q in b.failed then 1 else 0
            else if op.Failed? && q !in b.ok && q !in b.failed then
              r.failed == b.failed + {q} && r.failedCount == b.failedCount + 1
            else r.failed == b.failed && r.failedCount == b.failedCount
  {
  }

  lemma RecordTouchedCount(b: Batch, q: int, op: Op)
    requires b.touchedCount == |b.touched|
    ensures var r := Record(b, q, op); r.touched == b.touched + {q} && r.touchedCount == |r.touched|
  {
    RecordTouched(b, q, op);
    AddedSize(b.touched, q);
  }

  lemma RecordOkCount(b: Batch, q: int, op: Op)
    requires b.okCount == |b.ok|
    ensures var r := Record(b, q, op); b.ok <= r.ok <= b.ok + {q} && r.okCount == |r.ok|
  {
    RecordOk(b, q, op);
    AddedSize(b.ok, q);
  }

  lemma RecordFailedCount(b: Batch, q: int, op: Op)
    requires b.failedCount == |b.failed| && b.ok !! b.failed
    ensures var r := Record(b, q, op); r.failed <= b.failed + {q} && r.failedCount == |r.failed| && r.ok !! r.failed
  {
    RecordOk(b, q, op);
    RecordFailed(b, q, op);
    AddedSize(b.failed, q);
    RemovedSize(b.failed, q);
  }

  lemma RecordKeepsCounts(b: Batch, q: int, op: Op)
    requires CountsMatch(b)
    ensures CountsMatch(Record(b, q, op))
  {
    RecordTouchedCount(b, q, op);
    RecordOkCount(b, q, op);
    RecordFailedCount(b, q, op);
  }

  lemma DoneJobKeepsCounts(b: Batch, q: int, op: Op)
    requires CountsMatch(b)
    ensures CountsMatch(DoneJob(b, q, op).0)
  {
    var r := Record(b, q, op);
    RecordKeepsCounts(b, q, op);
    ClaimKeepsLedger(r, Verdict(r), r.touchedCount >= r.total, Continue);
  }

  /** A seal keeps the counters truthful exactly when the bit of seq total + 1 is not set, and
      sealing a running batch leaves it recording events exactly when it has jobs or a touch bitmap. */
  lemma SealKeepsLedgerIffClean(b: Batch)
    requires CountsMatch(b)
    ensures CountsMatch(Seal(b).0) <==> WipesNothing(b)
    ensures b.status.Running? ==> (!DropsEvents(Seal(b).0) <==> b.total > 0 || TouchKeyExists(b))
  {
    var n := b.total + 1;
    if b.total > 0 && n in b.touched {
      assert |b.touched - {n}| == |b.touched| - 1;
    } else {
      PreallocatedUnchanged(b.(sealed := true));
    }
  }

  lemma PreallocatedUnchanged(b: Batch)
    requires b.ok <= b.touched && b.failed <= b.touched && WipesNothing(b)
    ensures Preallocated(b) == b.(touchAllocated := b.touchAllocated || b.total > 0)
  {
    var n := b.total + 1;
    if b.total > 0 {
      assert b.touched - {n} == b.touched && b.ok - {n} == b.ok && b.failed - {n} == b.failed;
    }
  }

  lemma SealKeepsBitmaps(b: Batch)
    requires b.ok <= b.touched && b.failed <= b.touched && WipesNothing(b)
    ensures SameLedger(Seal(b).0, b) && Seal(b).0.total == b.total && Seal(b).0.seqEnd == b.seqEnd
    ensures CleanSeal(b) && !DropsEvents(b) ==> !DropsEvents(Seal(b).0)
  {
    PreallocatedUnchanged(b.(sealed := true));
  }

  // ---------- convergence ----------

  datatype Step = Event(q: int, op: Op) | SealStep | Add(n: int)

  function Apply(b: Batch, s: Step): Batch {
    match s
    case Event(q, op) => DoneJob(b, q, op).0
    case SealStep => Seal(b).0
    case Add(n) => AddJobs(b, n).0
  }

  function Run(b: Batch, steps: seq<Step>): Batch
    decreases |steps|
  {
    if steps == [] then b else Run(Apply(b, steps[0]), steps[1..])
  }

  /** Every seal of the run is clean in the state it meets. */
  predicate SealsClean(b: Batch, steps: seq<Step>)
    decreases |steps|
  {
    steps == [] ||
    ((steps[0].SealStep? ==> CleanSeal(b)) && SealsClean(Apply(b, steps[0]), steps[1..]))
  }

  /** The sequence numbers that carry a valid event of kind op, order and duplication forgotten. */
  function SeqsWith(steps: seq<Step>, op: Op): set<int> {
    set i | 0 <= i < |steps| && steps[i].Event? && steps[i].op == op && steps[i].q >= 1 :: steps[i].q
  }

  /** The bitmaps read exactly as the set of events says, whatever their order: touched are all
      seqs, ok those with some success, failed those with a failure and no success. */
  ghost predicate Summarises(b: Batch, succeeded: set<int>, failed: set<int>, executed: set<int>) {
    && b.touched == succeeded + failed + executed
    && b.ok == succeeded
    && b.failed == failed - succeeded
  }

  /** The callback gate never touches the ledger, and an event leaves the batch recording. */
  lemma DoneJobRecords(b: Batch, q: int, op: Op)
    requires q >= 1 && !op.Unknown? && !DropsEvents(b)
    ensures SameLedger(DoneJob(b, q, op).0, Record(b, q, op))
    ensures !DropsEvents(DoneJob(b, q, op).0)
  {
    var r := Record(b, q, op);
    assert q in r.touched;
    DoneJobFollows(b, q, op);
    ClaimKeepsLedger(r, Verdict(r), r.touchedCount >= r.total, Continue);
  }

  lemma ClaimKeepsLedger(b: Batch, verdict: Option<Status>, allTouched: bool, idle: Outcome)
    ensures SameLedger(Claim(b, verdict, allTouched, idle).0, b)
  {
  }

  lemma RecordSummarised(b: Batch, q: int, op: Op, succeeded: set<int>, failed: set<int>, executed: set<int>)
    requires Summarises(b, succeeded, failed, executed)
    ensures var r := Record(b, q, op);
            match op
            case Succeeded => Summarises(r, succeeded + {q}, failed, executed)
            case Failed => Summarises(r, succeeded, failed + {q}, executed)
            case _ => Summarises(r, succeeded, failed, executed + {q})
  {
  }

  lemma ApplySummarised(b: Batch, s: Step, succeeded: set<int>, failed: set<int>, executed: set<int>)
    requires Summarises(b, succeeded, failed, executed) && !DropsEvents(b) && (s.SealStep? ==> CleanSeal(b))
    ensures !DropsEvents(Apply(b, s))
    ensures Summarises(Apply(b, s), succeeded + SeqsWith([s], Succeeded),
                       failed + SeqsWith([s], Failed), executed + SeqsWith([s], Executed))
  {
    var one := [s];
    assert one[0] == s;
    forall op ensures SeqsWith(one, op) == if s.Event? && s.op == op && s.q >= 1 then {s.q} else {} {}
    assert succeeded + {} == succeeded && failed + {} == failed && executed + {} == executed;
    match s {
      case Event(q, op) =>
        if q >= 1 && !op.Unknown? {
          RecordSummarised(b, q, op, succeeded, failed, executed);
          DoneJobRecords(b, q, op);
        }
      case SealStep => SealKeepsBitmaps(b);
      case Add(n) =>
    }
  }

  lemma SeqsWithSplit(steps: seq<Step>, op: Op)
    requires steps != []
    ensures SeqsWith(steps, op) == SeqsWith([steps[0]], op) + SeqsWith(steps[1..], op)
  {
    var head, tail := [steps[0]], steps[1..];
    assert head[0] == steps[0];
    forall q | q in SeqsWith(steps, op) ensures q in SeqsWith(head, op) + SeqsWith(tail, op) {
      var i :| 0 <= i < |steps| && steps[i].Event? && steps[i].op == op && steps[i].q >= 1 && steps[i].q == q;
      if i > 0 { assert tail[i - 1] == steps[i]; }
    }
    forall q | q in SeqsWith(tail, op) ensures q in SeqsWith(steps, op) {
      var i :| 0 <= i < |tail| && tail[i].Event? && tail[i].op == op && tail[i].q >= 1 && tail[i].q == q;
      assert steps[i + 1] == tail[i];
    }
  }

  lemma {:induction false} RunSummarises(b: Batch, steps: seq<Step>, succeeded: set<int>, failed: set<int>,
                                         executed: set<int>)
    requires Summarises(b, succeeded, failed, executed) && !DropsEvents(b) && SealsClean(b, steps)
    ensures Summarises(Run(b, steps), succeeded + SeqsWith(steps, Succeeded),
                       failed + SeqsWith(steps, Failed), executed + SeqsWith(steps, Executed))
    decreases |steps|
  {
    if steps == [] {
      assert forall op :: SeqsWith(steps, op) == {};
    } else {
      var s := [steps[0]];
      ApplySummarised(b, steps[0], succeeded, failed, executed);
      RunSummarises(Apply(b, steps[0]), steps[1..], succeeded + SeqsWith(s, Succeeded),
                    failed + SeqsWith(s, Failed), executed + SeqsWith(s, Executed));
      SeqsWithSplit(steps, Succeeded);
      SeqsWithSplit(steps, Failed);
      SeqsWithSplit(steps, Executed);
      Associate(succeeded, SeqsWith(s, Succeeded), SeqsWith(steps[1..], Succeeded));
      Associate(failed, SeqsWith(s, Failed), SeqsWith(steps[1..], Failed));
      Associate(executed, SeqsWith(s, Executed), SeqsWith(steps[1..], Executed));
    }
  }

  lemma Associate(a: set<int>, b: set<int>, c: set<int>)
    ensures a + b + c == a + (b + c)
  {
  }

  lemma {:induction false} RunKeepsCounts(b: Batch, steps: seq<Step>)
    requires CountsMatch(b) && SealsClean(b, steps)
    ensures CountsMatch(Run(b, steps))
    decreases |steps|
  {
    if steps != [] {
      if steps[0].Event? {
        DoneJobKeepsCounts(b, steps[0].q, steps[0].op);
      } else if steps[0].SealStep? {
        SealKeepsBitmaps(b);
      }
      RunKeepsCounts(Apply(b, steps[0]), steps[1..]);
    }
  }

  /** Convergence: two runs with the same set of events, in any order, with any duplication and
      any clean seals and adds in between, end with the same bitmaps and counters. */
  lemma Converges(total: int, sealed: bool, steps: seq<Step>, steps': seq<Step>)
    requires forall op: Op :: !op.Unknown? ==> SeqsWith(steps, op) == SeqsWith(steps', op)
    requires SealsClean(Created(total, sealed), steps) && SealsClean(Created(total, sealed), steps')
    ensures SameLedger(Run(Created(total, sealed), steps), Run(Created(total, sealed), steps'))
    ensures Summarises(Run(Created(total, sealed), steps),
                       SeqsWith(steps, Succeeded), SeqsWith(steps, Failed), SeqsWith(steps, Executed))
    ensures CountsMatch(Run(Created(total, sealed), steps))
  {
    RunSummarises(Created(total, sealed), steps, {}, {}, {});
    RunSummarises(Created(total, sealed), steps', {}, {}, {});
    RunKeepsCounts(Created(total, sealed), steps);
    RunKeepsCounts(Created(total, sealed), steps');
    assert forall op :: {} + SeqsWith(steps, op) == SeqsWith(steps, op);
  }

  /** Without a clean seal, order matters: on every running batch without jobs and without a touch
      bitmap, an event before the seal is recorded and the same event after it is dropped. */
  lemma EmptySealLosesEvents(b: Batch, q: int, op: Op)
    requires b.status.Running? && b.total <= 0 && !TouchKeyExists(b) && CountsMatch(b) && q >= 1 && !op.Unknown?
    ensures Run(b, [Event(q, op), SealStep]).touched == {q}
    ensures DoneJob(Seal(b).0, q, op) == (Seal(b).0, Duplicate) && Run(b, [SealStep, Event(q, op)]).touched == {}
  {
    TwoApplied(b, Event(q, op), SealStep);
    TwoApplied(b, SealStep, Event(q, op));
    EventThenSeal(b, q, op);
    EmptySealFinishes(b);
  }

  lemma EventThenSeal(b: Batch, q: int, op: Op)
    requires !DropsEvents(b) && b.total <= 0 && b.touched == {} && b.touchedCount == 0 && q >= 1 && !op.Unknown?
    ensures Seal(DoneJob(b, q, op).0).0.touched == {q}
  {
    DoneJobRecords(b, q, op);
    RecordTouchedCount(b, q, op);
    DoneJobFollows(b, q, op);
    SealOfEmpty(DoneJob(b, q, op).0);
  }

  lemma EmptySealFinishes(b: Batch)
    requires b.status.Running? && b.total <= 0 && !TouchKeyExists(b) && CountsMatch(b)
    ensures Terminal(Seal(b).0.status) && !TouchKeyExists(Seal(b).0)
  {
  }

  lemma TwoApplied(b: Batch, first: Step, second: Step)
    ensures Run(b, [first, second]) == Apply(Apply(b, first), second)
  {
    assert [first, second][1..] == [second] && [second][1..] == [];
    assert Run(Apply(b, first), [second]) == Run(Apply(Apply(b, first), second), []);
  }

  lemma SealOfEmpty(b: Batch)
    requires b.total <= 0
    ensures Seal(b).0.touched == b.touched
  {
    var p := Preallocated(b.(sealed := true));
    var verdict := if p.total == 0 then Some(Success) else Verdict(p);
    ClaimKeepsLedger(p, verdict, p.touchedCount >= p.total && p.total > 0, Sealed);
  }

  /** Without a clean seal, a counter can outrun its bitmap: seqs 1 and 2 are reserved, seq 1 is
      rolled back, seq 2 completes, and the seal of the one remaining job wipes seq 2. */
  lemma SealWipesALiveSeq()
    ensures var b := Run(Created(0, false), [Add(2), Add(-1), Event(2, Succeeded), SealStep]);
            b.okCount == 1 && b.ok == {} && b.status.Success?
  {
    var b0 := Created(0, false);
    var b1 := Apply(b0, Add(2));
    var b2 := Apply(b1, Add(-1));
    var b3 := Apply(b2, Event(2, Succeeded));
    var b4 := Apply(b3, SealStep);
    assert b3.ok == {2} && b3.total == 1 && b4.ok == {2} - {2} == {};
    var s := [Add(2), Add(-1), Event(2, Succeeded), SealStep];
    assert s[1..] == [Add(-1), Event(2, Succeeded), SealStep];
    assert s[1..][1..] == [Event(2, Succeeded), SealStep];
    assert s[1..][1..][1..] == [SealStep];
    assert s[1..][1..][1..][1..] == [];
    assert Run(b0, s) == Run(b1, s[1..]) == Run(b2, s[1..][1..]);
    assert Run(b2, s[1..][1..]) == Run(b3, s[1..][1..][1..]) == Run(b4, []);
  }
}
