/**
 The seal writes a zero at bit total of each bitmap. When that bit is set, the seal forgets a
 recorded job while its counters stay, and the job can be counted again in place of another one.
 */
module SealHazard {
  import opened Collections
  import opened BatchLedger
  import opened CompletionGate

  predicate NoRollback(actions: seq<Action>) {
    forall i :: 0 <= i < |actions| ==> !actions[i].Rollback?
  }

  /** Without a rollback total_jobs is the last sequence number, so no seal can wipe a bit. */
  lemma {:induction false} NoRollbackIsLegal(w: World, actions: seq<Action>)
    requires Inv(w) && w.b.total == w.b.seqEnd
    requires Possible(w, actions) && NoRollback(actions)
    ensures Legal(w, actions)
    decreases |actions|
  {
    if actions != [] {
      NothingToWipe(w);
      StepSound(w, actions[0]);
      StepKeepsTotal(w, actions[0]);
      NoRollbackIsLegal(Next(w, actions[0]), actions[1..]);
    }
  }

  lemma NothingToWipe(w: World)
    requires Inv(w) && w.b.total == w.b.seqEnd
    ensures WipesNothing(w.b)
  {
  }

  lemma StepKeepsTotal(w: World, a: Action)
    requires Enabled(w, a) && !a.Rollback?
    ensures Next(w, a).b.seqEnd - Next(w, a).b.total == w.b.seqEnd - w.b.total
  {
    match a
    case Report(q, op) => DoneJobFollows(w.b, q, op);
    case SealBatch => SealFollows(w.b);
    case _ =>
  }

  /** With one rollback and one duplicate event a seal can make on_success fire while a live job
      has not run: jobs 1, 2, 3 are reserved, job 1 is rolled back, job 3 succeeds, the seal of
      two jobs zeroes the bit of job 3, and the redelivered success of job 3 counts again. Job 2 is
      reserved and unproduced, and its rollback is then refused as closed. */
  lemma SealCanFireEarly() returns (past: seq<Action>, again: Action, idle: int)
    ensures Possible(Start(false), past) && Enabled(CompletionGate.Run(Start(false), past), again)
    ensures Reply(CompletionGate.Run(Start(false), past), again).FireBoth?
    ensures var w := Next(CompletionGate.Run(Start(false), past), again);
            && idle in w.live && idle !in w.b.touched
            && Enabled(w, Rollback({idle})) && !w.b.status.Cancelled? && AddJobs(w.b, -1).1.Closed?
  {
    past := ThreeOfThreeSucceeds();
    SealWipesThree();
    Append(Start(false), past, SealBatch);
    ThreeCountsTwice();
    past, again, idle := past + [SealBatch], Report(3, Succeeded), 2;
  }

  function WithJobThree(sealed: bool, bits: set<int>): World {
    World(Created(0, sealed).(total := 2, seqEnd := 3, touchAllocated := sealed,
                              touched := bits, touchedCount := 1, ok := bits, okCount := 1), {2, 3}, {3})
  }

  lemma ThreeOfThreeSucceeds() returns (past: seq<Action>)
    ensures Possible(Start(false), past) && CompletionGate.Run(Start(false), past) == WithJobThree(false, {3})
  {
    var w := Start(false);
    past := [];
    assert Interval(1, 4) == {1, 2, 3} && {1, 2, 3} - {1} == {2, 3};
    Append(w, past, Reserve(3));
    past := past + [Reserve(3)];
    assert CompletionGate.Run(w, past).live == {1, 2, 3};
    Append(w, past, Produce(3));
    past := past + [Produce(3)];
    Append(w, past, Rollback({1}));
    past := past + [Rollback({1})];
    assert CompletionGate.Run(w, past) == World(Created(0, false).(total := 2, seqEnd := 3), {2, 3}, {3});
    Append(w, past, Report(3, Succeeded));
    past := past + [Report(3, Succeeded)];
  }

  lemma SealWipesThree()
    ensures Next(WithJobThree(false, {3}), SealBatch) == WithJobThree(true, {})
  {
    assert {3} - {3} == {};
  }

  lemma ThreeCountsTwice()
    ensures var w := WithJobThree(true, {});
            && Enabled(w, Report(3, Succeeded)) && Reply(w, Report(3, Succeeded)).FireBoth?
            && Next(w, Report(3, Succeeded)).live == {2, 3} && Next(w, Report(3, Succeeded)).b.touched == {3}
            && Next(w, Report(3, Succeeded)).produced == {3} && Next(w, Report(3, Succeeded)).b.status.Success?
  {
    var b := WithJobThree(true, {}).b;
    var r := Record(b, 3, Succeeded);
    assert r.touched == {3} && r.touchedCount == 2 && r.okCount == 2;
    assert DoneJob(b, 3, Succeeded) == Claim(r, Some(Success), true, Continue);
  }
}
