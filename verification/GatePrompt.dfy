/**
 The other half of the completion gate: what is due is granted, at once and once. A reply tells
 exactly what its call did to the batch, and a sealed batch that has heard of every live job has
 granted its callbacks, unless a rollback made it complete behind the scripts' back.
 */
module GatePrompt {
  import opened Collections
  import opened BatchLedger
  import opened CompletionGate

  // ---------- replies ----------

  /** The reply that a change from b to r amounts to: the callbacks whose stamps it set. */
  function Announces(b: Batch, r: Batch, idle: Outcome): Outcome {
    match (r.successStamp && !b.successStamp, r.completeStamp && !b.completeStamp)
    case (true, true) => FireBoth
    case (true, false) => FireSuccessOnly
    case (false, true) => if r.status.Running? then FireEarlyComplete else FireComplete
    case (false, false) => idle
  }

  /** A finished batch has claimed its on_complete. */
  predicate DoneIsStamped(b: Batch) { Terminal(b.status) ==> b.completeStamp }

  lemma ClaimAnnounces(b: Batch, verdict: Option<Status>, allTouched: bool, idle: Outcome)
    requires DoneIsStamped(b) && !b.status.Cancelled? && (verdict.Some? ==> Terminal(verdict.value))
    ensures var (r, o) := Claim(b, verdict, allTouched, idle); o == Announces(b, r, idle) && DoneIsStamped(r)
  {
  }

  /** An event is invalid, or a duplicate exactly when it changes nothing; otherwise its reply names
      exactly the callbacks it claimed, and early when the batch still runs. */
  lemma EventReply(b: Batch, q: int, op: Op)
    requires DoneIsStamped(b)
    ensures var (r, o) := DoneJob(b, q, op);
            && DoneIsStamped(r)
            && o == if q < 1 || op.Unknown? then Invalid else if r == b then Duplicate else Announces(b, r, Continue)
  {
    var r := Record(b, q, op);
    RecordSets(b, q, op);
    RecordFollows(b, q, op);
    ClaimKeepsLedger(r, Verdict(r), r.touchedCount >= r.total, Continue);
    if !(q < 1 || op.Unknown? || DropsEvents(b) || r == b) {
      RecordChangesLedger(b, q, op);
      if r.sealed && r.total >= 1 {
        assert r.status == b.status;
        ClaimAnnounces(r, Verdict(r), r.touchedCount >= r.total, Continue);
      }
    }
  }

  /** All that recording changes is the ledger. */
  lemma RecordChangesLedger(b: Batch, q: int, op: Op)
    ensures Record(b, q, op) == b || !SameLedger(Record(b, q, op), b)
    ensures Record(b, q, op).status == b.status
  {
    if q in b.touched { assert b.touched + {q} == b.touched; }
  }

  lemma SealReply(b: Batch)
    requires DoneIsStamped(b)
    ensures var (r, o) := Seal(b); DoneIsStamped(r) && r.sealed && o == Announces(b, r, Sealed)
  {
    var p := Preallocated(b.(sealed := true));
    if p.status.Running? {
      var verdict := if p.total == 0 then Some(Success) else Verdict(p);
      ClaimAnnounces(p, verdict, p.touchedCount >= p.total && p.total > 0, Sealed);
    }
  }

  lemma {:induction false} RunDoneIsStamped(w: World, actions: seq<Action>)
    requires DoneIsStamped(w.b)
    ensures DoneIsStamped(CompletionGate.Run(w, actions).b)
    decreases |actions|
  {
    if actions != [] {
      match actions[0] {
        case Report(q, op) => EventReply(w.b, q, op);
        case SealBatch => SealReply(w.b);
        case _ =>
      }
      RunDoneIsStamped(Next(w, actions[0]), actions[1..]);
    }
  }

  /** After any actions at all, the reply of the next event or seal tells exactly what it did. */
  lemma RepliesTell(sealed: bool, past: seq<Action>, q: int, op: Op)
    ensures var b := CompletionGate.Run(Start(sealed), past).b;
            && Seal(b).1 == Announces(b, Seal(b).0, Sealed)
            && var (r, o) := DoneJob(b, q, op);
               && (o.Invalid? <==> q < 1 || op.Unknown?) && (o.Duplicate? <==> q >= 1 && !op.Unknown? && r == b)
               && (o.Invalid? || o.Duplicate? || o == Announces(b, r, Continue))
  {
    RunDoneIsStamped(Start(sealed), past);
    EventReply(CompletionGate.Run(Start(sealed), past).b, q, op);
    SealReply(CompletionGate.Run(Start(sealed), past).b);
  }

  // ---------- promptness ----------

  /** The batch can be finished: sealed, not cancelled, and with jobs. */
  predicate Closing(w: World) { w.b.sealed && !w.b.status.Cancelled? && w.live != {} }

  /** Nothing is overdue: on_success once every live job succeeded, on_complete once every one ran, and a
      verdict once every one is settled. */
  ghost predicate Prompt(w: World) {
    Closing(w) ==>
      && (w.b.ok == w.live ==> w.b.successStamp)
      && (w.b.touched == w.live ==> w.b.completeStamp)
      && (w.b.ok + w.b.failed == w.live ==> !w.b.status.Running?)
  }

  /** Only a sealed batch has a verdict or a grant. */
  predicate SealedFirst(b: Batch) { Terminal(b.status) ==> b.sealed }

  /** A bitmap that covers the live set has its counter at total_jobs. */
  lemma CoversReach(w: World)
    requires Accounted(w)
    ensures w.b.ok == w.live ==> w.b.okCount >= w.b.total
    ensures w.b.touched == w.live ==> w.b.touchedCount >= w.b.total
    ensures w.b.ok + w.b.failed == w.live ==> w.b.okCount + w.b.failedCount >= w.b.total
    ensures w.live != {} ==> w.b.total >= 1
  {
    DisjointCover(w.b.ok, w.b.failed, w.live);
    if w.b.ok + w.b.failed == w.live { assert |w.b.ok + w.b.failed| == |w.b.ok| + |w.b.failed|; }
    if w.live != {} { assert Member(w.live) in w.live && |w.live| > 0; }
  }

  lemma ClaimPrompt(w: World, idle: Outcome)
    requires Accounted(w) && DoneIsStamped(w.b)
    ensures Prompt(w.(b := Claim(w.b, Verdict(w.b), w.b.touchedCount >= w.b.total, idle).0))
  {
    CoversReach(w);
    ClaimKeepsLedger(w.b, Verdict(w.b), w.b.touchedCount >= w.b.total, idle);
  }

  /** A recorded event on a closing batch leaves nothing overdue, whatever was overdue before. */
  lemma EventPrompt(w: World, q: int, op: Op)
    requires Inv(w) && q in w.produced
    ensures var (r, o) := DoneJob(w.b, q, op);
            !o.Invalid? && !o.Duplicate? ==> Prompt(w.(b := r))
  {
    var r := w.(b := Record(w.b, q, op));
    RecordKeepsAccounted(w, q, op);
    RecordStaysStamped(w.b, q, op);
    ClaimPrompt(r, Continue);
    NotClosing(r);
    EventCases(w.b, q, op);
  }

  lemma RecordStaysStamped(b: Batch, q: int, op: Op)
    requires DoneIsStamped(b)
    ensures DoneIsStamped(Record(b, q, op))
  {
  }

  lemma NotClosing(w: World)
    requires Accounted(w)
    ensures !w.b.sealed || w.b.total < 1 ==> Prompt(w)
  {
    CoversReach(w);
  }

  /** So does a seal of a running batch that wipes nothing; one without jobs succeeds on the spot. */
  lemma SealPrompt(w: World)
    requires Inv(w) && WipesNothing(w.b) && w.b.status.Running?
    ensures Prompt(Next(w, SealBatch))
    ensures w.live == {} ==> var r := Seal(w.b).0; r.status.Success? && r.successStamp && r.completeStamp
  {
    PreallocatedUnchanged(w.b.(sealed := true));
    var p := w.(b := Preallocated(w.b.(sealed := true)));
    assert Accounted(p);
    CoversReach(p);
    if w.b.total > 0 {
      ClaimPrompt(p, Sealed);
      assert Seal(w.b) == Claim(p.b, Verdict(p.b), p.b.touchedCount >= p.b.total, Sealed);
    }
  }

  /** The rollback leaves a closing batch whose remaining jobs have all been heard of. */
  predicate Strands(w: World, seqs: set<int>) { Closing(w) && w.live != seqs && w.b.touched == w.live - seqs }

  /** A rollback leaves nothing overdue exactly when it does not strand the batch: only an event or a seal
      looks at the counters. */
  lemma RollbackPromptIff(w: World, seqs: set<int>)
    requires Inv(w) && Enabled(w, Rollback(seqs)) && Prompt(w)
    ensures Prompt(Next(w, Rollback(seqs))) <==> !Strands(w, seqs)
  {
    if Closing(w) {
      RollbackOpen(w, seqs);
      assert w.b.touched <= w.live - seqs && w.b.touched != w.live;
      assert Next(w, Rollback(seqs)).live == w.live - seqs;
      if w.live == seqs { assert w.live - seqs == {}; }
    }
  }

  lemma ReservePrompt(w: World, n: int)
    requires Inv(w) && n > 0 && Prompt(w)
    ensures Prompt(Next(w, Reserve(n)))
  {
    var r := AddJobs(w.b, n).1;
    if r.Added? { assert w.b.seqEnd + 1 in Next(w, Reserve(n)).live && w.b.seqEnd + 1 !in w.live; }
  }

  ghost predicate PromptInv(w: World) { Inv(w) && Prompt(w) && SealedFirst(w.b) }

  /** The steps under which promptness lasts: seals that wipe nothing and rollbacks that do not strand. */
  predicate Careful(w: World, a: Action) {
    Enabled(w, a) && (a.SealBatch? ==> WipesNothing(w.b)) && (a.Rollback? ==> !Strands(w, a.seqs))
  }

  lemma EventKeepsPrompt(w: World, q: int, op: Op)
    requires PromptInv(w) && q in w.produced
    ensures PromptInv(Next(w, Report(q, op)))
  {
    StepSound(w, Report(q, op));
    EventPrompt(w, q, op);
    EventReply(w.b, q, op);
    EventSealed(w.b, q, op);
  }

  lemma EventSealed(b: Batch, q: int, op: Op)
    requires SealedFirst(b)
    ensures DoneJob(b, q, op).0.sealed == b.sealed && SealedFirst(DoneJob(b, q, op).0)
  {
    RecordSets(b, q, op);
    RecordChangesLedger(b, q, op);
  }

  lemma SealKeepsPrompt(w: World)
    requires PromptInv(w) && WipesNothing(w.b)
    ensures PromptInv(Next(w, SealBatch))
  {
    StepSound(w, SealBatch);
    SealReply(w.b);
    if w.b.status.Running? {
      SealPrompt(w);
    } else {
      PreallocatedUnchanged(w.b.(sealed := true));
    }
  }

  lemma StepPrompt(w: World, a: Action)
    requires PromptInv(w) && Careful(w, a)
    ensures PromptInv(Next(w, a))
  {
    match a
    case Report(q, op) => EventKeepsPrompt(w, q, op);
    case SealBatch => SealKeepsPrompt(w);
    case _ => ClientStepPrompt(w, a);
  }

  lemma ClientStepPrompt(w: World, a: Action)
    requires PromptInv(w) && Careful(w, a) && !a.Report? && !a.SealBatch?
    ensures PromptInv(Next(w, a))
  {
    StepSound(w, a);
    ClientKeepsSealed(w, a);
    match a
    case Reserve(n) => ReservePrompt(w, n);
    case Rollback(seqs) => RollbackPromptIff(w, seqs);
    case Produce(q) => assert Prompt(w.(produced := w.produced + {q}));
    case Cancel => assert !Closing(Next(w, a)) || Next(w, a) == w;
  }

  lemma ClientKeepsSealed(w: World, a: Action)
    requires SealedFirst(w.b) && !a.Report? && !a.SealBatch?
    ensures SealedFirst(Next(w, a).b)
  {
  }

  predicate CarefulRun(w: World, actions: seq<Action>)
    decreases |actions|
  {
    actions == [] || (Careful(w, actions[0]) && CarefulRun(Next(w, actions[0]), actions[1..]))
  }

  lemma {:induction false} RunPrompt(w: World, actions: seq<Action>)
    requires PromptInv(w) && CarefulRun(w, actions)
    ensures PromptInv(CompletionGate.Run(w, actions))
    decreases |actions|
  {
    if actions != [] {
      StepPrompt(w, actions[0]);
      RunPrompt(Next(w, actions[0]), actions[1..]);
    }
  }

  /** The gate, both ways: over every careful run that leaves a sealed, uncancelled batch with jobs,
      on_success has been granted, once, exactly if every live job succeeded; on_complete, once,
      exactly if every live job ran; and the batch is finished exactly if every one is settled. */
  lemma GateExact(sealed: bool, actions: seq<Action>)
    requires CarefulRun(Start(sealed), actions) && Closing(CompletionGate.Run(Start(sealed), actions))
    ensures var w := CompletionGate.Run(Start(sealed), actions);
            && SuccessGrants(Start(sealed), actions) == (if w.b.ok == w.live then 1 else 0)
            && CompleteGrants(Start(sealed), actions) == (if w.b.touched == w.live then 1 else 0)
            && (Terminal(w.b.status) <==> w.b.ok + w.b.failed == w.live)
  {
    RunPrompt(Start(sealed), actions);
    StampedIffDue(CompletionGate.Run(Start(sealed), actions));
    GrantedOnceIffStamped(Start(sealed), actions);
  }

  lemma StampedIffDue(w: World)
    requires PromptInv(w) && Closing(w)
    ensures w.b.successStamp <==> w.b.ok == w.live
    ensures w.b.completeStamp <==> w.b.touched == w.live
    ensures Terminal(w.b.status) <==> w.b.ok + w.b.failed == w.live
  {
  }

  /** Stranding happens: of two reserved jobs one is produced, the batch is sealed, that job succeeds and
      the other one is rolled back. Every live job has succeeded and nothing was granted. */
  lemma RollbackStrands() returns (past: seq<Action>, seqs: set<int>)
    ensures Possible(Start(false), past) && Strands(CompletionGate.Run(Start(false), past), seqs)
    ensures Enabled(CompletionGate.Run(Start(false), past), Rollback(seqs))
    ensures var w := Next(CompletionGate.Run(Start(false), past), Rollback(seqs));
            && Closing(w) && w.b.ok == w.live && w.b.status.Running? && !w.b.successStamp && !w.b.completeStamp
  {
    past := [];
    var w := Start(false);
    assert Interval(1, 3) == {1, 2} && {1, 2} - {2} == {1};
    Append(w, past, Reserve(2));
    past := past + [Reserve(2)];
    assert CompletionGate.Run(w, past).live == {1, 2};
    Append(w, past, Produce(1));
    past := past + [Produce(1)];
    Append(w, past, SealBatch);
    past := past + [SealBatch];
    assert CompletionGate.Run(w, past) ==
           World(Created(0, true).(total := 2, seqEnd := 2, touchAllocated := true), {1, 2}, {1});
    Append(w, past, Report(1, Succeeded));
    past, seqs := past + [Report(1, Succeeded)], {2};
  }

  /** And nothing the jobs report ends it: every event of theirs is a duplicate from then on. */
  lemma StrandedSilent(w: World, q: int, op: Op)
    requires Inv(w) && w.b.ok == w.live && q in w.produced && q >= 1
    ensures DoneJob(w.b, q, op).0 == w.b && (op.Unknown? || DoneJob(w.b, q, op).1.Duplicate?)
  {
    assert q in w.b.ok && w.b.touched + {q} == w.b.touched;
  }

  // ---------- reservations ----------

  lemma ClaimAny(b: Batch, verdict: Option<Status>, allTouched: bool, idle: Outcome)
    requires b.anyStamp <==> b.completeStamp
    ensures var r := Claim(b, verdict, allTouched, idle).0; r.anyStamp <==> r.completeStamp
  {
  }

  lemma StepAnyIsComplete(w: World, a: Action)
    requires w.b.anyStamp <==> w.b.completeStamp
    ensures var w' := Next(w, a); w'.b.anyStamp <==> w'.b.completeStamp
  {
    match a
    case Report(q, op) =>
      var r := Record(w.b, q, op);
      RecordSets(w.b, q, op);
      RecordAny(w.b, q, op);
      ClaimAny(r, Verdict(r), r.touchedCount >= r.total, Continue);
    case SealBatch =>
      var p := Preallocated(w.b.(sealed := true));
      ClaimAny(p, if p.total == 0 then Some(Success) else Verdict(p), p.touchedCount >= p.total && p.total > 0, Sealed);
    case _ =>
  }

  lemma RecordAny(b: Batch, q: int, op: Op)
    ensures Record(b, q, op).anyStamp == b.anyStamp
  {
  }

  lemma {:induction false} AnyIsComplete(w: World, actions: seq<Action>)
    requires w.b.anyStamp <==> w.b.completeStamp
    ensures var w' := CompletionGate.Run(w, actions); w'.b.anyStamp <==> w'.b.completeStamp
    decreases |actions|
  {
    if actions != [] {
      StepAnyIsComplete(w, actions[0]);
      AnyIsComplete(Next(w, actions[0]), actions[1..]);
    }
  }

  /** After any actions at all, jobs can be added or taken off exactly while the batch runs and on_complete
      has not been granted. A reservation gets the next n numbers and total_jobs counts them; a return
      gets no numbers. */
  lemma AddGrantedIff(sealed: bool, past: seq<Action>, n: int)
    ensures var w := CompletionGate.Run(Start(sealed), past);
            var (b, r) := AddJobs(w.b, n);
            var open := w.b.status.Running? && CompleteGrants(Start(sealed), past) == 0;
            && (r.CancelledBatch? <==> w.b.status.Cancelled?)
            && (r.Closed? <==> !open && !w.b.status.Cancelled?) && (!open ==> b == w.b)
            && (open && n > 0 ==> r == Added(w.b.seqEnd + 1, w.b.seqEnd + n))
            && (open && n <= 0 ==> r == Shrunk)
            && (open ==> b == w.b.(total := w.b.total + n, seqEnd := w.b.seqEnd + if n > 0 then n else 0))
  {
    AnyIsComplete(Start(sealed), past);
    GrantedOnceIffStamped(Start(sealed), past);
  }
}
