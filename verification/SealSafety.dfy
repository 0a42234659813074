/**
 Exactly when a seal is safe. What a grant promises is about the jobs themselves, so it is stated on
 what they have reported, not on the bitmaps a seal may just have wiped.
 */
module SealSafety {
  import opened Collections
  import opened BatchLedger
  import opened CompletionGate

  /** What a batch works towards: on_complete, on_success, and a terminal status. */
  datatype Goal = OnComplete | OnSuccess | Finished

  predicate Reached(g: Goal, w: World, a: Action) {
    match g
    case OnComplete => GrantsComplete(Reply(w, a))
    case OnSuccess => GrantsSuccess(Reply(w, a))
    case Finished => w.b.status.Running? && Terminal(Next(w, a).b.status)
  }

  /** The events that count towards the goal: any, a success, or a success or a failure. */
  predicate Counts(g: Goal, op: Op) {
    match g
    case OnComplete => !op.Unknown?
    case OnSuccess => op.Succeeded?
    case Finished => op.Succeeded? || op.Failed?
  }

  /** The jobs heard of: an event of a job adds it, and nothing forgets it. */
  function Hear(g: Goal, heard: set<int>, a: Action): set<int> {
    if a.Report? && Counts(g, a.op) then heard + {a.q} else heard
  }

  /** Whenever the run reaches the goal, every live job has been heard of. */
  ghost predicate Soundly(g: Goal, w: World, heard: set<int>, actions: seq<Action>)
    decreases |actions|
  {
    actions != [] ==>
      var (w', heard') := (Next(w, actions[0]), Hear(g, heard, actions[0]));
      (Reached(g, w, actions[0]) ==> w'.live <= heard') && Soundly(g, w', heard', actions[1..])
  }

  /** The bitmap that stands for the jobs heard of, and the counter that stands for its size. */
  function Bits(g: Goal, b: Batch): set<int> {
    match g case OnComplete => b.touched case OnSuccess => b.ok case Finished => b.ok + b.failed
  }

  function Counter(g: Goal, b: Batch): int {
    match g
    case OnComplete => b.touchedCount
    case OnSuccess => b.okCount
    case Finished => b.okCount + b.failedCount
  }

  /** The bit the seal zeroes is clear in that bitmap. */
  predicate Spared(g: Goal, b: Batch) { b.total > 0 ==> b.total + 1 !in Bits(g, b) }

  /** The goal has not been reached and can still be. */
  predicate Open(g: Goal, b: Batch) {
    match g
    case OnComplete => b.status.Running? && !b.completeStamp
    case OnSuccess => !b.status.Cancelled? && !b.successStamp
    case Finished => b.status.Running?
  }

  predicate NoSeal(actions: seq<Action>) {
    forall i :: 0 <= i < |actions| ==> !actions[i].SealBatch?
  }

  lemma OneStep(g: Goal, w: World, heard: set<int>, a: Action, more: seq<Action>)
    ensures CompletionGate.Run(w, [a] + more) == CompletionGate.Run(Next(w, a), more)
    ensures Possible(w, [a] + more) <==> Enabled(w, a) && Possible(Next(w, a), more)
    ensures Soundly(g, w, heard, [a] + more) <==>
              && (Reached(g, w, a) ==> Next(w, a).live <= Hear(g, heard, a))
              && Soundly(g, Next(w, a), Hear(g, heard, a), more)
  {
    assert ([a] + more)[1..] == more;
  }

  // ---------- what the counters must match ----------

  ghost predicate Base(w: World) {
    w.b.total == |w.live| && w.produced <= w.live && 0 <= w.b.seqEnd && forall q <- w.live :: 1 <= q <= w.b.seqEnd
  }

  ghost predicate OkFine(b: Batch, produced: set<int>) { b.okCount == |b.ok| && b.ok <= produced }

  ghost predicate FailedFine(b: Batch, produced: set<int>) {
    b.failedCount == |b.failed| && b.failed <= produced && b.ok !! b.failed
  }

  ghost predicate TouchedFine(b: Batch, produced: set<int>) {
    b.touchedCount == |b.touched| && b.touched <= produced && b.ok <= b.touched && b.failed <= b.touched
  }

  /** The part of the account that the goal depends on. */
  ghost predicate Fine(g: Goal, w: World) {
    && Base(w) && OkFine(w.b, w.produced)
    && (g.OnSuccess? || FailedFine(w.b, w.produced))
    && (g.OnComplete? ==> TouchedFine(w.b, w.produced))
  }

  lemma InvIsFine(g: Goal, w: World)
    requires Inv(w)
    ensures Fine(g, w)
  {
  }

  lemma RecordOkFine(b: Batch, q: int, op: Op, produced: set<int>)
    requires OkFine(b, produced) && q in produced
    ensures OkFine(Record(b, q, op), produced)
  {
    RecordOkCount(b, q, op);
  }

  lemma RecordFailedFine(b: Batch, q: int, op: Op, produced: set<int>)
    requires FailedFine(b, produced) && q in produced
    ensures FailedFine(Record(b, q, op), produced)
  {
    RecordFailedCount(b, q, op);
  }

  lemma RecordFine(g: Goal, w: World, q: int, op: Op)
    requires Fine(g, w) && q in w.produced
    ensures Fine(g, w.(b := Record(w.b, q, op)))
  {
    RecordOkFine(w.b, q, op, w.produced);
    if !g.OnSuccess? { RecordFailedFine(w.b, q, op, w.produced); }
    if g.OnComplete? { RecordTouchedFine(w.b, q, op, w.produced); }
    RecordFollows(w.b, q, op);
  }

  lemma RecordTouchedFine(b: Batch, q: int, op: Op, produced: set<int>)
    requires TouchedFine(b, produced) && q in produced
    ensures TouchedFine(Record(b, q, op), produced)
  {
    RecordTouchedCount(b, q, op);
  }

  lemma LedgerFine(g: Goal, w: World, r: Batch)
    requires Fine(g, w) && SameLedger(r, w.b) && Follows(w.b, r)
    ensures Fine(g, w.(b := r))
  {
  }

  lemma ReportFine(g: Goal, w: World, q: int, op: Op)
    requires Fine(g, w) && q in w.produced
    ensures Fine(g, w.(b := DoneJob(w.b, q, op).0))
  {
    var r := Record(w.b, q, op);
    RecordFine(g, w, q, op);
    DoneJobOneOf(w.b, q, op);
    if DoneJob(w.b, q, op).0 != w.b {
      LedgerFine(g, w.(b := r), DoneJob(w.b, q, op).0);
    }
  }

  /** An event leaves the batch alone, or records itself and then at most claims. */
  lemma DoneJobOneOf(b: Batch, q: int, op: Op)
    ensures var (d, r) := (DoneJob(b, q, op).0, Record(b, q, op));
            d == b || (!op.Unknown? && SameLedger(d, r) && Follows(r, d))
  {
    var r := Record(b, q, op);
    ClaimKeepsLedger(r, Verdict(r), r.touchedCount >= r.total, Continue);
    ClaimFollows(r, Verdict(r), r.touchedCount >= r.total, Continue);
  }

  lemma AddFine(g: Goal, w: World, a: Action)
    requires Fine(g, w) && Enabled(w, a) && (a.Reserve? || a.Rollback?)
    ensures Fine(g, Next(w, a))
  {
    if a.Reserve? {
      var r := AddJobs(w.b, a.n).1;
      if r.Added? {
        var window := Interval(r.first, r.last + 1);
        assert w.live !! window;
        assert |w.live + window| == |w.live| + |window|;
      }
    } else {
      MissingSize(a.seqs, w.live);
    }
  }

  lemma StepFine(g: Goal, w: World, a: Action)
    requires Fine(g, w) && Enabled(w, a) && !a.SealBatch?
    ensures Fine(g, Next(w, a))
  {
    match a
    case Reserve(_) => AddFine(g, w, a);
    case Rollback(_) => AddFine(g, w, a);
    case Report(q, op) => ReportFine(g, w, q, op);
    case _ =>
  }

  lemma PreallocatedFine(g: Goal, w: World)
    requires Fine(g, w) && Spared(g, w.b)
    ensures var p := Preallocated(w.b.(sealed := true)); Fine(g, w.(b := p)) && Bits(g, p) == Bits(g, w.b)
  {
    if w.b.total > 0 {
      Unset(w.b.ok, w.b.total + 1);
      if !g.OnSuccess? { Unset(w.b.failed, w.b.total + 1); }
      if g.OnComplete? { Unset(w.b.touched, w.b.total + 1); }
      SparedFine(g, w, Preallocated(w.b.(sealed := true)));
    }
  }

  /** Equal bitmaps and counters, as far as the goal depends on them, make an equal account. */
  lemma SparedFine(g: Goal, w: World, p: Batch)
    requires Fine(g, w) && p.total == w.b.total && p.seqEnd == w.b.seqEnd
    requires p.ok == w.b.ok && p.okCount == w.b.okCount
    requires !g.OnSuccess? ==> p.failed == w.b.failed && p.failedCount == w.b.failedCount
    requires g.OnComplete? ==> p.touched == w.b.touched && p.touchedCount == w.b.touchedCount
    ensures Fine(g, w.(b := p)) && Bits(g, p) == Bits(g, w.b)
  {
  }

  /** A seal that spares the bitmap keeps the account. */
  lemma SealFine(g: Goal, w: World)
    requires Fine(g, w) && Spared(g, w.b)
    ensures Fine(g, Next(w, SealBatch)) && Bits(g, Next(w, SealBatch).b) == Bits(g, w.b)
  {
    var p := Preallocated(w.b.(sealed := true));
    PreallocatedFine(g, w);
    if p.status.Running? {
      var verdict := if p.total == 0 then Some(Success) else Verdict(p);
      var all := p.touchedCount >= p.total && p.total > 0;
      ClaimKeepsLedger(p, verdict, all, Sealed);
      ClaimFollows(p, verdict, all, Sealed);
      LedgerFine(g, w.(b := p), Claim(p, verdict, all, Sealed).0);
    }
  }

  // ---------- the safe side ----------

  /** A counter stands at the total. */
  predicate Full(g: Goal, b: Batch) {
    || b.total == 0 || b.okCount >= b.total
    || (!g.OnSuccess? && b.okCount + b.failedCount >= b.total)
    || (g.OnComplete? && b.touchedCount >= b.total)
  }

  /** A claim does something only with a verdict, or with every job touched. */
  lemma ClaimWhenFull(g: Goal, b: Batch, verdict: Option<Status>, allTouched: bool, idle: Outcome)
    requires !GrantsSuccess(idle) && !GrantsComplete(idle)
    requires verdict == Verdict(b) || (b.total == 0 && verdict == Some(Success))
    requires allTouched ==> b.touchedCount >= b.total
    ensures var (r, o) := Claim(b, verdict, allTouched, idle);
            match g
            case OnComplete => GrantsComplete(o) ==> Full(g, r)
            case OnSuccess => GrantsSuccess(o) ==> Full(g, r)
            case Finished => b.status.Running? && Terminal(r.status) ==> Full(g, r)
  {
  }

  /** The goal is reached only when its counter stands at the total. */
  lemma ReachedWhenFull(g: Goal, w: World, a: Action)
    requires Reached(g, w, a)
    ensures Full(g, Next(w, a).b)
  {
    match a
    case Report(q, op) =>
      var r := Record(w.b, q, op);
      RecordSets(w.b, q, op);
      RecordFollows(w.b, q, op);
      ReportClaims(g, w.b, q, op);
      ClaimWhenFull(g, r, Verdict(r), r.touchedCount >= r.total, Continue);
    case SealBatch =>
      var p := Preallocated(w.b.(sealed := true));
      var verdict := if p.total == 0 then Some(Success) else Verdict(p);
      ClaimWhenFull(g, p, verdict, p.touchedCount >= p.total && p.total > 0, Sealed);
    case _ =>
  }

  /** An event that is not recorded, or not of a sealed batch, grants nothing and finishes nothing. */
  lemma ReportClaims(g: Goal, b: Batch, q: int, op: Op)
    ensures var r := Record(b, q, op);
            var (d, o) := DoneJob(b, q, op);
            || ((d, o) == Claim(r, Verdict(r), r.touchedCount >= r.total, Continue) && r.status == b.status)
            || (!GrantsSuccess(o) && !GrantsComplete(o) && d.status == b.status)
  {
  }

  lemma FullMeansAll(g: Goal, w: World)
    requires Fine(g, w) && Full(g, w.b)
    ensures w.live <= Bits(g, w.b)
  {
    SubsetSize(w.b.ok, w.live);
    if !g.OnSuccess? { DisjointCover(w.b.ok, w.b.failed, w.live); }
    if g.OnComplete? { SubsetSize(w.b.touched, w.live); }
    assert w.b.total == 0 ==> w.live == {};
  }

  lemma RecordBits(g: Goal, b: Batch, q: int, op: Op)
    requires !op.Unknown?
    ensures Bits(g, Record(b, q, op)) <= if Counts(g, op) then Bits(g, b) + {q} else Bits(g, b)
  {
    RecordTouched(b, q, op);
    RecordOk(b, q, op);
    RecordFailed(b, q, op);
  }

  lemma SameBits(g: Goal, b: Batch, r: Batch)
    requires SameLedger(r, b)
    ensures Bits(g, r) == Bits(g, b)
  {
  }

  lemma DoneJobBits(g: Goal, b: Batch, q: int, op: Op)
    ensures Bits(g, DoneJob(b, q, op).0) <= if Counts(g, op) then Bits(g, b) + {q} else Bits(g, b)
  {
    DoneJobOneOf(b, q, op);
    if DoneJob(b, q, op).0 != b {
      RecordBits(g, b, q, op);
      SameBits(g, Record(b, q, op), DoneJob(b, q, op).0);
    }
  }

  lemma SealBits(g: Goal, b: Batch)
    ensures Bits(g, Seal(b).0) == if b.total > 0 then Bits(g, b) - {b.total + 1} else Bits(g, b)
  {
    var p := Preallocated(b.(sealed := true));
    var verdict := if p.total == 0 then Some(Success) else Verdict(p);
    ClaimKeepsLedger(p, verdict, p.touchedCount >= p.total && p.total > 0, Sealed);
    SameBits(g, p, Seal(b).0);
  }

  /** The bitmap never runs ahead of what was heard. */
  lemma BitsHeard(g: Goal, w: World, a: Action)
    ensures Bits(g, Next(w, a).b) <= Hear(g, Bits(g, w.b), a)
  {
    match a
    case Report(q, op) => DoneJobBits(g, w.b, q, op);
    case SealBatch => SealBits(g, w.b);
    case _ =>
  }

  lemma {:induction false} FineSoundly(g: Goal, w: World, heard: set<int>, actions: seq<Action>)
    requires Fine(g, w) && Bits(g, w.b) <= heard && Possible(w, actions) && NoSeal(actions)
    ensures Soundly(g, w, heard, actions)
    decreases |actions|
  {
    if actions != [] {
      var a := actions[0];
      StepFine(g, w, a);
      BitsHeard(g, w, a);
      if Reached(g, w, a) {
        ReachedWhenFull(g, w, a);
        FullMeansAll(g, Next(w, a));
      }
      FineSoundly(g, Next(w, a), Hear(g, heard, a), actions[1..]);
    }
  }

  /** Adds are refused for good. */
  predicate Frozen(b: Batch) { b.status.Cancelled? || Terminal(b.status) || b.anyStamp }

  lemma StaysFrozen(w: World, a: Action)
    requires Frozen(w.b)
    ensures Frozen(Next(w, a).b) && Next(w, a).live == w.live
  {
    StepMonotone(w, a);
    match a
    case Report(q, op) => if !w.b.status.Running? { DoneJobStays(w.b, q, op); }
    case _ =>
  }

  lemma DoneJobStays(b: Batch, q: int, op: Op)
    requires !b.status.Running?
    ensures DoneJob(b, q, op).0.status == b.status
  {
  }

  lemma {:induction false} FrozenSoundly(g: Goal, w: World, heard: set<int>, actions: seq<Action>)
    requires Frozen(w.b) && w.live <= heard
    ensures Soundly(g, w, heard, actions)
    decreases |actions|
  {
    if actions != [] {
      StaysFrozen(w, actions[0]);
      FrozenSoundly(g, Next(w, actions[0]), Hear(g, heard, actions[0]), actions[1..]);
    }
  }

  /** The seal of a batch whose live jobs have all been heard of reaches the goal or finds it out of
      reach of new jobs. */
  lemma SealFreezes(g: Goal, w: World)
    requires Inv(w) && Open(g, w.b) && Bits(g, w.b) == w.live
    ensures Frozen(Next(w, SealBatch).b) && Next(w, SealBatch).live == w.live
  {
    var p := Preallocated(w.b.(sealed := true));
    if p.status.Running? {
      assert p.okCount == |w.b.ok| && p.failedCount == |w.b.failed| && p.touchedCount == |w.b.touched|;
      if g.Finished? { assert |w.b.ok + w.b.failed| == |w.b.ok| + |w.b.failed|; }
      assert Full(g, p);
    }
  }

  lemma SafeSeal(g: Goal, w: World, future: seq<Action>)
    requires Inv(w) && Open(g, w.b) && (Spared(g, w.b) || Bits(g, w.b) == w.live)
    requires NoSeal(future) && Possible(w, [SealBatch] + future)
    ensures Soundly(g, w, Bits(g, w.b), [SealBatch] + future)
  {
    var heard, w' := Bits(g, w.b), Next(w, SealBatch);
    OneStep(g, w, heard, SealBatch, future);
    InvIsFine(g, w);
    if Bits(g, w.b) == w.live {
      SealFreezes(g, w);
      FrozenSoundly(g, w', heard, future);
    } else {
      SealFine(g, w);
      if Reached(g, w, SealBatch) {
        ReachedWhenFull(g, w, SealBatch);
        FullMeansAll(g, w');
      }
      FineSoundly(g, w', heard, future);
    }
  }

  // ---------- the unsafe side ----------

  /** A sealed batch that counts a job it has forgotten: idle is live and not in the bitmap, and
      events of the jobs in rest are all that the counter still misses. */
  ghost predicate Miscounts(g: Goal, w: World, rest: set<int>, idle: int) {
    && w.b.sealed && w.b.touchAllocated && w.b.total > 0 && !w.b.status.Cancelled? && Open(g, w.b)
    && rest <= w.live && rest !! Bits(g, w.b) && (forall q <- w.live :: q >= 1)
    && idle in w.live && idle !in rest && Counter(g, w.b) + |rest| == w.b.total
    && (!g.OnSuccess? ==> w.b.okCount < w.b.total && w.b.okCount + w.b.failedCount < w.b.total)
  }

  /** The event by which a missing job is heard of. */
  function Missing(g: Goal): Op {
    match g case OnComplete => Executed case OnSuccess => Succeeded case Finished => Failed
  }

  lemma RecordMissing(g: Goal, b: Batch, q: int)
    requires q !in Bits(g, b)
    ensures var r := Record(b, q, Missing(g));
            && Bits(g, r) == Bits(g, b) + {q} && Counter(g, r) == Counter(g, b) + 1 && r != b
            && (g.OnComplete? ==> r.okCount == b.okCount && r.failedCount == b.failedCount)
            && (g.Finished? ==> r.okCount == b.okCount)
            && r.sealed == b.sealed && r.touchAllocated == b.touchAllocated && r.status == b.status
            && r.completeStamp == b.completeStamp && r.successStamp == b.successStamp && r.total == b.total
  {
  }

  /** The claim after such an event: at the total it reaches the goal, short of it the goal stays open. */
  lemma ClaimMissing(g: Goal, b: Batch)
    requires b.total > 0 && !b.status.Cancelled? && Open(g, b)
    requires !g.OnSuccess? ==> b.okCount < b.total && (g.OnComplete? ==> b.okCount + b.failedCount < b.total)
    ensures var (r, o) := Claim(b, Verdict(b), b.touchedCount >= b.total, Continue);
            if Counter(g, b) >= b.total then
              && Frozen(r) && !r.status.Cancelled?
              && (match g
                  case OnComplete => GrantsComplete(o)
                  case OnSuccess => GrantsSuccess(o)
                  case Finished => Terminal(r.status))
            else Open(g, r) && !r.status.Cancelled?
  {
  }

  /** One more event: the last one reaches the goal, the others leave the miscount. */
  lemma RunOne(g: Goal, w: World, rest: set<int>, idle: int, q: int)
    requires Miscounts(g, w, rest, idle) && q in rest
    ensures var p := Next(w, Produce(q));
            var r := Next(p, Report(q, Missing(g)));
            && Enabled(w, Produce(q)) && Enabled(p, Report(q, Missing(g)))
            && r.live == w.live && r.produced == w.produced + {q}
            && (if |rest| == 1 then Reached(g, p, Report(q, Missing(g))) && Frozen(r.b) && !r.b.status.Cancelled?
                else Miscounts(g, r, rest - {q}, idle))
  {
    var b := w.b;
    var rec := Record(b, q, Missing(g));
    RecordMissing(g, b, q);
    RemovedSize(rest, q);
    ClaimMissing(g, rec);
    var claimed := Claim(rec, Verdict(rec), rec.touchedCount >= rec.total, Continue);
    assert DoneJob(b, q, Missing(g)) == claimed;
    ClaimKeepsLedger(rec, Verdict(rec), rec.touchedCount >= rec.total, Continue);
    SameBits(g, rec, claimed.0);
  }

  /** Let the missing events arrive one by one: the last of them reaches the goal, and nothing was heard
      of the idle job. */
  lemma {:induction false} RunTheRest(g: Goal, w: World, heard: set<int>, rest: set<int>, idle: int)
    returns (actions: seq<Action>)
    requires Miscounts(g, w, rest, idle) && rest != {} && idle !in heard
    ensures Possible(w, actions) && NoSeal(actions) && !Soundly(g, w, heard, actions)
    ensures var e := CompletionGate.Run(w, actions);
            && Frozen(e.b) && !e.b.status.Cancelled? && idle in e.live
            && (idle !in w.produced ==> idle !in e.produced)
    decreases |rest|
  {
    var q := Member(rest);
    RunOne(g, w, rest, idle, q);
    RemovedSize(rest, q);
    var p, event := Next(w, Produce(q)), Report(q, Missing(g));
    var r := Next(p, event);
    var more: seq<Action> := [];
    if |rest| > 1 { more := RunTheRest(g, r, heard + {q}, rest - {q}, idle); }
    OneStep(g, p, heard, event, more);
    actions := [Produce(q)] + ([event] + more);
    OneStep(g, w, heard, Produce(q), [event] + more);
  }

  /** A seal that zeroes a set bit of the bitmap leaves a miscount of any live job not in it. */
  lemma WipingSeal(g: Goal, w: World, idle: int) returns (rest: set<int>)
    requires Inv(w) && Open(g, w.b) && !w.b.status.Cancelled? && !Spared(g, w.b)
    requires idle in w.live && idle !in Bits(g, w.b)
    ensures rest != {} && Miscounts(g, Next(w, SealBatch), rest, idle) && Next(w, SealBatch).produced == w.produced
  {
    var lost, missing := w.b.total + 1, w.live - Bits(g, w.b);
    rest := missing - {idle} + {lost};
    InvIsFine(g, w);
    BitsSize(g, w);
    MissingSize(Bits(g, w.b), w.live);
    RemovedSize(missing, idle);
    AddedSize(missing - {idle}, lost);
    SealBits(g, w.b);
    ShortSeal(g, w, idle);
  }

  lemma BitsSize(g: Goal, w: World)
    requires Fine(g, w)
    ensures Counter(g, w.b) == |Bits(g, w.b)| && Bits(g, w.b) <= w.live
  {
    if g.Finished? { assert |w.b.ok + w.b.failed| == |w.b.ok| + |w.b.failed|; }
  }

  /** As long as some live job is not in the bitmap, a seal leaves the goal open. */
  lemma ShortSeal(g: Goal, w: World, idle: int)
    requires Inv(w) && Open(g, w.b) && !w.b.status.Cancelled? && w.b.total > 0
    requires idle in w.live && idle !in Bits(g, w.b)
    ensures var r := Seal(w.b).0;
            && r.sealed && r.touchAllocated && r.total == w.b.total && !r.status.Cancelled? && Open(g, r)
            && r.okCount == w.b.okCount && r.failedCount == w.b.failedCount && r.touchedCount == w.b.touchedCount
            && (!g.OnSuccess? ==> r.okCount < r.total && r.okCount + r.failedCount < r.total)
  {
    Thresholds(w);
    SealFollows(w.b);
  }

  // ---------- the exact conditions ----------

  lemma UnsafeSeal(g: Goal, w: World) returns (future: seq<Action>)
    requires Inv(w) && Open(g, w.b) && !w.b.status.Cancelled? && !Spared(g, w.b) && Bits(g, w.b) != w.live
    ensures NoSeal(future) && Possible(w, [SealBatch] + future) && !Soundly(g, w, Bits(g, w.b), [SealBatch] + future)
  {
    InvIsFine(g, w);
    BitsSize(g, w);
    var idle := MissingOne(Bits(g, w.b), w.live);
    var rest := WipingSeal(g, w, idle);
    future := RunTheRest(g, Next(w, SealBatch), Bits(g, w.b), rest, idle);
    OneStep(g, w, Bits(g, w.b), SealBatch, future);
  }

  /** For each goal still open, a seal is safe exactly when the bit it zeroes is clear in the goal's
      bitmap, or every live job is in it already: then, and only then, no continuation without a
      further seal grants on_complete before every live job has run, grants on_success before every
      live job has succeeded, or finishes the batch before every live job has succeeded or failed. */
  lemma SealSafeIff(g: Goal, w: World)
    requires Inv(w) && Open(g, w.b)
    ensures Spared(g, w.b) || Bits(g, w.b) == w.live <==>
            forall future :: NoSeal(future) && Possible(w, [SealBatch] + future) ==>
              Soundly(g, w, Bits(g, w.b), [SealBatch] + future)
  {
    if Spared(g, w.b) || Bits(g, w.b) == w.live {
      forall future | NoSeal(future) && Possible(w, [SealBatch] + future)
        ensures Soundly(g, w, Bits(g, w.b), [SealBatch] + future)
      {
        SafeSeal(g, w, future);
      }
    } else {
      var future := UnsafeSeal(g, w);
    }
  }

  /** Where the seal and the actions after it lead, a rollback of q would still be granted, unless q
      was produced or rolled back or the batch cancelled meanwhile. */
  ghost predicate RollbackStaysOpen(w: World, q: int, future: seq<Action>) {
    var e := CompletionGate.Run(w, [SealBatch] + future);
    Enabled(e, Rollback({q})) && !e.b.status.Cancelled? ==> AddJobs(e.b, -1).1.Shrunk?
  }

  lemma {:induction false} NoSealIsLegal(w: World, actions: seq<Action>)
    requires Possible(w, actions) && NoSeal(actions)
    ensures Legal(w, actions)
    decreases |actions|
  {
    if actions != [] { NoSealIsLegal(Next(w, actions[0]), actions[1..]); }
  }

  lemma SealThenSound(w: World, future: seq<Action>)
    requires Inv(w) && WipesNothing(w.b) && NoSeal(future) && Possible(w, [SealBatch] + future)
    ensures Inv(CompletionGate.Run(w, [SealBatch] + future))
  {
    assert ([SealBatch] + future)[1..] == future;
    NoSealIsLegal(Next(w, SealBatch), future);
    RunSound(w, [SealBatch] + future);
  }

  /** The rollback of a reserved number that was not produced stays open past a seal exactly when the
      seal's bit is clear. */
  lemma RollbackOpenIffWipesNothing(w: World, q: int)
    requires Inv(w) && !w.b.status.Cancelled? && q in w.live && q !in w.produced
    ensures WipesNothing(w.b) <==>
            forall future :: NoSeal(future) && Possible(w, [SealBatch] + future) ==> RollbackStaysOpen(w, q, future)
  {
    if WipesNothing(w.b) {
      forall future | NoSeal(future) && Possible(w, [SealBatch] + future) ensures RollbackStaysOpen(w, q, future) {
        SealThenSound(w, future);
        var e := CompletionGate.Run(w, [SealBatch] + future);
        if Enabled(e, Rollback({q})) && !e.b.status.Cancelled? { RollbackOpen(e, {q}); }
      }
    } else {
      var future := WipingSealCloses(w, q);
      assert !RollbackStaysOpen(w, q, future);
    }
  }

  lemma WipingSealCloses(w: World, q: int) returns (future: seq<Action>)
    requires Inv(w) && !w.b.status.Cancelled? && q in w.live && q !in w.produced && !WipesNothing(w.b)
    ensures NoSeal(future) && Possible(w, [SealBatch] + future) && !RollbackStaysOpen(w, q, future)
  {
    Unfinished(w, q);
    var rest := WipingSeal(OnComplete, w, q);
    future := RunOut(Next(w, SealBatch), rest, q);
    OneStep(OnComplete, w, {}, SealBatch, future);
  }

  lemma RunOut(w: World, rest: set<int>, q: int) returns (future: seq<Action>)
    requires Miscounts(OnComplete, w, rest, q) && rest != {} && q !in w.produced
    ensures NoSeal(future) && Possible(w, future)
    ensures var e := CompletionGate.Run(w, future);
            Enabled(e, Rollback({q})) && !e.b.status.Cancelled? && AddJobs(e.b, -1).1.Closed?
  {
    future := RunTheRest(OnComplete, w, {}, rest, q);
  }

  /** A batch with an unproduced number is running and has granted nothing. */
  lemma Unfinished(w: World, q: int)
    requires Inv(w) && !w.b.status.Cancelled? && q in w.live && q !in w.produced
    ensures w.b.status.Running? && !w.b.completeStamp && q !in w.b.touched
  {
    assert q !in w.b.touched;
  }
}
