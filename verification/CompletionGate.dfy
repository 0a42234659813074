/**
 The completion gate: which jobs a batch stands for when it grants a callback.

 A world is the ledger of one batch with two histories the scripts do not store: the
 sequence numbers reserved and not rolled back, and those whose record is durably in Kafka.
 */
module CompletionGate {
  import opened Collections
  import opened BatchLedger

  datatype World = World(b: Batch, live: set<int>, produced: set<int>)

  datatype Action =
    | Reserve(n: int)
    | Produce(q: int)
    | Rollback(seqs: set<int>)
    | Report(q: int, op: Op)
    | SealBatch
    | Cancel

  function Start(sealed: bool): World { World(Created(0, sealed), {}, {}) }

  /** What the client and the workers do on their own: events come from produced jobs only, and
      a client rolls back only what it reserved and did not produce. */
  predicate Enabled(w: World, a: Action) {
    match a
    case Reserve(n) => n > 0
    case Produce(q) => q in w.live
    case Rollback(seqs) => seqs != {} && seqs <= w.live - w.produced
    case Report(q, op) => q in w.produced
    case _ => true
  }

  function Next(w: World, a: Action): World {
    match a
    case Reserve(n) =>
      var (b, r) := AddJobs(w.b, n);
      World(b, if r.Added? then w.live + Interval(r.first, r.last + 1) else w.live, w.produced)
    case Produce(q) => w.(produced := w.produced + {q})
    case Rollback(seqs) =>
      var (b, r) := AddJobs(w.b, -|seqs|);
      World(b, if r.Shrunk? then w.live - seqs else w.live, w.produced)
    case Report(q, op) => w.(b := DoneJob(w.b, q, op).0)
    case SealBatch => w.(b := Seal(w.b).0)
    case Cancel => w.(b := UpdateStatus(w.b, Cancelled))
  }

  function Reply(w: World, a: Action): Outcome {
    match a
    case Report(q, op) => DoneJob(w.b, q, op).1
    case SealBatch => Seal(w.b).1
    case _ => Continue
  }

  function Run(w: World, actions: seq<Action>): World
    decreases |actions|
  {
    if actions == [] then w else Run(Next(w, actions[0]), actions[1..])
  }

  /** Every action is enabled in its turn. */
  predicate Possible(w: World, actions: seq<Action>)
    decreases |actions|
  {
    actions == [] || (Enabled(w, actions[0]) && Possible(Next(w, actions[0]), actions[1..]))
  }

  /** Moreover no seal zeroes the bit of a recorded job. */
  predicate Legal(w: World, actions: seq<Action>)
    decreases |actions|
  {
    actions == [] ||
    (Enabled(w, actions[0]) && (actions[0].SealBatch? ==> WipesNothing(w.b))
     && Legal(Next(w, actions[0]), actions[1..]))
  }

  // ---------- the invariant ----------

  ghost predicate Accounted(w: World) {
    && CountsMatch(w.b)
    && w.b.touched <= w.produced <= w.live
    && (forall q :: q in w.live ==> 1 <= q <= w.b.seqEnd)
    && w.b.total == |w.live|
    && 0 <= w.b.seqEnd
  }

  ghost predicate Stamped(w: World) {
    && (w.b.successStamp ==> w.b.completeStamp && w.b.ok == w.live)
    && (w.b.completeStamp ==> w.b.anyStamp)
    && (w.b.anyStamp ==> w.b.touched == w.live)
    && (Terminal(w.b.status) ==> w.b.completeStamp && w.b.ok + w.b.failed == w.live)
    && (w.b.status.Success? ==> w.b.ok == w.live)
  }

  ghost predicate Inv(w: World) { Accounted(w) && Stamped(w) }

  /** A counter can reach total_jobs only when its bitmap covers the live set. */
  lemma Thresholds(w: World)
    requires Accounted(w)
    ensures w.b.okCount >= w.b.total ==> w.b.ok == w.live
    ensures w.b.okCount + w.b.failedCount >= w.b.total ==> w.b.ok + w.b.failed == w.live
    ensures w.b.touchedCount >= w.b.total ==> w.b.touched == w.live
    ensures w.b.ok == w.live || w.b.ok + w.b.failed == w.live ==> w.b.touched == w.live
    ensures w.b.total == 0 ==> w.live == {}
  {
    SubsetSize(w.b.ok, w.live);
    SubsetSize(w.b.touched, w.live);
    DisjointCover(w.b.ok, w.b.failed, w.live);
  }

  /** The grant conditions of one claim. */
  ghost predicate GrantsSound(before: Batch, w: World, o: Outcome) {
    && (GrantsSuccess(o) ==> w.b.ok == w.live && !before.successStamp && w.b.successStamp)
    && (GrantsComplete(o) ==> w.b.touched == w.live && !before.completeStamp && w.b.completeStamp)
    && (o.FireBoth? || o.FireComplete? || o.FireSuccessOnly? ==> w.b.ok + w.b.failed == w.live)
    && (before.successStamp ==> w.b.successStamp) && (before.completeStamp ==> w.b.completeStamp)
  }

  lemma ClaimSound(w: World, verdict: Option<Status>, allTouched: bool, idle: Outcome)
    requires Inv(w) && !GrantsSuccess(idle) && !GrantsComplete(idle)
    requires verdict == Some(Success) ==> w.b.ok == w.live
    requires verdict == Some(Complete) ==> w.b.ok + w.b.failed == w.live
    requires verdict.Some? ==> Terminal(verdict.value)
    requires verdict.None? && allTouched ==> w.b.touched == w.live
    ensures var (b, o) := Claim(w.b, verdict, allTouched, idle);
            Inv(w.(b := b)) && GrantsSound(w.b, w.(b := b), o)
  {
    Thresholds(w);
  }

  lemma RecordGrows(b: Batch, q: int, op: Op, live: set<int>)
    requires b.touched <= live && b.ok <= b.touched && b.failed <= b.touched && q in live
    ensures var r := Record(b, q, op);
            && b.touched <= r.touched <= b.touched + {q} && r.touched <= live && b.ok <= r.ok <= live
            && b.ok + b.failed <= r.ok + r.failed <= live
  {
  }

  lemma RecordKeepsAccounted(w: World, q: int, op: Op)
    requires Accounted(w) && q in w.produced
    ensures Accounted(w.(b := Record(w.b, q, op)))
  {
    RecordKeepsCounts(w.b, q, op);
    RecordTouched(w.b, q, op);
    RecordFollows(w.b, q, op);
    AccountedAgain(w, Record(w.b, q, op));
  }

  lemma AccountedAgain(w: World, r: Batch)
    requires Accounted(w) && CountsMatch(r) && Follows(w.b, r) && r.touched <= w.produced
    ensures Accounted(w.(b := r))
  {
  }

  lemma RecordKeepsStamped(w: World, q: int, op: Op)
    requires Stamped(w) && q in w.live
    requires w.b.touched <= w.live && w.b.ok <= w.b.touched && w.b.failed <= w.b.touched
    ensures Stamped(w.(b := Record(w.b, q, op)))
  {
    RecordGrows(w.b, q, op, w.live);
  }

  lemma RecordKeepsInv(w: World, q: int, op: Op)
    requires Inv(w) && q in w.produced
    ensures Inv(w.(b := Record(w.b, q, op)))
  {
    RecordKeepsAccounted(w, q, op);
    RecordKeepsStamped(w, q, op);
  }

  lemma ReportSound(w: World, q: int, op: Op)
    requires Inv(w) && q in w.produced
    ensures var (b, o) := DoneJob(w.b, q, op);
            Inv(w.(b := b)) && GrantsSound(w.b, w.(b := b), o)
  {
    var r := w.(b := Record(w.b, q, op));
    RecordKeepsInv(w, q, op);
    RecordSets(w.b, q, op);
    EventCases(w.b, q, op);
    VerdictSound(w.b, r, Continue);
  }

  /** An event changes nothing, or is recorded; only on a batch that is not sealed or has no jobs does it
      then stop short of the counters. */
  lemma EventCases(b: Batch, q: int, op: Op)
    ensures var (d, r) := (DoneJob(b, q, op), Record(b, q, op));
            || d == (b, Invalid) || d == (b, Duplicate)
            || (d == (r, Continue) && (!r.sealed || r.total < 1))
            || d == Claim(r, Verdict(r), r.touchedCount >= r.total, Continue)
  {
  }

  lemma RecordSets(b: Batch, q: int, op: Op)
    ensures var r := Record(b, q, op);
            && r.successStamp == b.successStamp && r.completeStamp == b.completeStamp
            && r.sealed == b.sealed && r.total == b.total
  {
  }

  /** Claiming by the counters is sound. */
  lemma VerdictSound(before: Batch, w: World, idle: Outcome)
    requires Inv(w) && !GrantsSuccess(idle) && !GrantsComplete(idle)
    requires before.successStamp == w.b.successStamp && before.completeStamp == w.b.completeStamp
    ensures var (b, o) := Claim(w.b, Verdict(w.b), w.b.touchedCount >= w.b.total, idle);
            Inv(w.(b := b)) && GrantsSound(before, w.(b := b), o)
  {
    Thresholds(w);
    ClaimSound(w, Verdict(w.b), w.b.touchedCount >= w.b.total, idle);
  }

  lemma SealSound(w: World)
    requires Inv(w) && WipesNothing(w.b)
    ensures var (b, o) := Seal(w.b);
            Inv(w.(b := b)) && GrantsSound(w.b, w.(b := b), o)
  {
    PreallocatedUnchanged(w.b.(sealed := true));
    var p := w.(b := Preallocated(w.b.(sealed := true)));
    assert Inv(p);
    Thresholds(p);
    if p.b.status.Running? {
      ClaimSound(p, if p.b.total == 0 then Some(Success) else Verdict(p.b),
                 p.b.touchedCount >= p.b.total && p.b.total > 0, Sealed);
    }
  }

  lemma ReserveKeepsInv(w: World, n: int)
    requires Inv(w) && n > 0
    ensures Inv(Next(w, Reserve(n)))
  {
    var (b, r) := AddJobs(w.b, n);
    if r.Added? {
      var window := Interval(r.first, r.last + 1);
      assert w.live !! window;
      assert |w.live + window| == |w.live| + |window|;
    }
  }

  lemma RollbackKeepsInv(w: World, seqs: set<int>)
    requires Inv(w) && Enabled(w, Rollback(seqs))
    ensures Inv(Next(w, Rollback(seqs)))
  {
    assert |w.live - seqs| == |w.live| - |seqs|;
    assert w.produced <= w.live - seqs;
  }

  /** No step lowers the allocator or clears the stamp, and adds are refused once it is set. */
  lemma StepMonotone(w: World, a: Action)
    ensures w.b.anyStamp ==> Next(w, a).live == w.live && Next(w, a).b.anyStamp
    ensures w.b.seqEnd <= Next(w, a).b.seqEnd
  {
    match a
    case Report(q, op) => DoneJobFollows(w.b, q, op);
    case SealBatch => SealFollows(w.b);
    case _ =>
  }

  /** Every step keeps the invariant, and grants only what it may. */
  lemma StepSound(w: World, a: Action)
    requires Inv(w) && Enabled(w, a) && (a.SealBatch? ==> WipesNothing(w.b))
    ensures Inv(Next(w, a)) && GrantsSound(w.b, Next(w, a), Reply(w, a))
  {
    match a
    case Reserve(n) => ReserveKeepsInv(w, n);
    case Produce(q) =>
    case Rollback(seqs) => RollbackKeepsInv(w, seqs);
    case Report(q, op) => ReportSound(w, q, op);
    case SealBatch => SealSound(w);
    case Cancel =>
  }

  lemma {:induction false} RunSound(w: World, actions: seq<Action>)
    requires Inv(w) && Legal(w, actions)
    ensures Inv(Run(w, actions))
    decreases |actions|
  {
    if actions != [] {
      StepSound(w, actions[0]);
      RunSound(Next(w, actions[0]), actions[1..]);
    }
  }

  // ---------- the theorems ----------

  /** On runs whose seals wipe nothing, the next step grants on_success only if every live job
      succeeded, grants on_complete only if every live job ran, and leaves a terminal status only on
      a batch all of whose live jobs are settled. */
  lemma GateSound(sealed: bool, past: seq<Action>, a: Action)
    requires Legal(Start(sealed), past + [a])
    ensures var w := Run(Start(sealed), past);
            var w' := Next(w, a);
            && (GrantsSuccess(Reply(w, a)) ==> w'.b.ok == w'.live)
            && (GrantsComplete(Reply(w, a)) ==> w'.b.touched == w'.live)
            && (Terminal(w'.b.status) ==> w'.b.ok + w'.b.failed == w'.live)
            && (w'.b.status.Success? ==> w'.b.ok == w'.live)
            && w'.b.total == |w'.live|
  {
    Append(Start(sealed), past, a);
    RunSound(Start(sealed), past);
    StepSound(Run(Start(sealed), past), a);
  }

  /** One more action at the end of a run. */
  lemma {:induction false} Append(w: World, past: seq<Action>, a: Action)
    ensures Run(w, past + [a]) == Next(Run(w, past), a)
    ensures Possible(w, past + [a]) <==> Possible(w, past) && Enabled(Run(w, past), a)
    ensures Legal(w, past + [a]) <==>
              && Legal(w, past) && Enabled(Run(w, past), a) && (a.SealBatch? ==> WipesNothing(Run(w, past).b))
    decreases |past|
  {
    if past == [] {
      assert past + [a] == [a] && [a][1..] == [];
      assert Legal(Next(w, a), []) && Possible(Next(w, a), []);
      assert Run(w, [a]) == Run(Next(w, a), []);
    } else {
      assert (past + [a])[1..] == past[1..] + [a];
      Append(Next(w, past[0]), past[1..], a);
    }
  }

  // ---------- what holds on every run, whatever its seals wipe ----------

  /** A grant is a stamp newly set, and no stamp is set without its grant; stamps stay. */
  ghost predicate StampsKept(b: Batch, r: Batch, o: Outcome) {
    && (GrantsSuccess(o) <==> !b.successStamp && r.successStamp) && (b.successStamp ==> r.successStamp)
    && (GrantsComplete(o) <==> !b.completeStamp && r.completeStamp) && (b.completeStamp ==> r.completeStamp)
    && ((b.completeStamp ==> b.anyStamp) ==>
          (r.completeStamp ==> r.anyStamp) && (GrantsSuccess(o) || GrantsComplete(o) ==> r.anyStamp))
  }

  lemma ClaimStamps(b: Batch, verdict: Option<Status>, allTouched: bool, idle: Outcome)
    requires !GrantsSuccess(idle) && !GrantsComplete(idle)
    ensures var (r, o) := Claim(b, verdict, allTouched, idle); StampsKept(b, r, o)
  {
  }

  lemma DoneJobStamps(b: Batch, q: int, op: Op)
    ensures var (r, o) := DoneJob(b, q, op); StampsKept(b, r, o)
  {
    var r := Record(b, q, op);
    RecordSets(b, q, op);
    ClaimStamps(r, Verdict(r), r.touchedCount >= r.total, Continue);
  }

  lemma SealStamps(b: Batch)
    ensures var (r, o) := Seal(b); StampsKept(b, r, o)
  {
    var p := Preallocated(b.(sealed := true));
    var verdict := if p.total == 0 then Some(Success) else Verdict(p);
    ClaimStamps(p, verdict, p.touchedCount >= p.total && p.total > 0, Sealed);
  }

  lemma StepStamps(w: World, a: Action)
    ensures StampsKept(w.b, Next(w, a).b, Reply(w, a))
  {
    match a
    case Report(q, op) => DoneJobStamps(w.b, q, op);
    case SealBatch => SealStamps(w.b);
    case _ =>
  }

  function SuccessGrants(w: World, actions: seq<Action>): nat
    decreases |actions|
  {
    if actions == [] then 0
    else
      (if GrantsSuccess(Reply(w, actions[0])) then 1 else 0) + SuccessGrants(Next(w, actions[0]), actions[1..])
  }

  function CompleteGrants(w: World, actions: seq<Action>): nat
    decreases |actions|
  {
    if actions == [] then 0
    else
      (if GrantsComplete(Reply(w, actions[0])) then 1 else 0) + CompleteGrants(Next(w, actions[0]), actions[1..])
  }

  /** From any state and over any actions at all, completion and seal together grant each callback
      exactly once if its stamp is set on the way, and otherwise never: so at most once, and none is
      claimed without being granted. */
  lemma {:induction false} GrantedOnceIffStamped(w: World, actions: seq<Action>)
    ensures var w' := Run(w, actions);
            && SuccessGrants(w, actions) == (if !w.b.successStamp && w'.b.successStamp then 1 else 0)
            && CompleteGrants(w, actions) == (if !w.b.completeStamp && w'.b.completeStamp then 1 else 0)
            && (w.b.successStamp ==> w'.b.successStamp) && (w.b.completeStamp ==> w'.b.completeStamp)
    decreases |actions|
  {
    if actions != [] {
      StepStamps(w, actions[0]);
      GrantedOnceIffStamped(Next(w, actions[0]), actions[1..]);
    }
  }

  lemma {:induction false} RunMonotone(w: World, actions: seq<Action>)
    ensures w.b.anyStamp ==> Run(w, actions).live == w.live
    ensures w.b.seqEnd <= Run(w, actions).b.seqEnd
    ensures (w.b.completeStamp ==> w.b.anyStamp) ==>
              Run(w, actions).b.completeStamp ==> Run(w, actions).b.anyStamp
    decreases |actions|
  {
    if actions != [] {
      StepStamps(w, actions[0]);
      StepMonotone(w, actions[0]);
      RunMonotone(Next(w, actions[0]), actions[1..]);
    }
  }

  /** After the first grant of either callback the live set never changes again. */
  lemma LiveFrozenAfterGrant(sealed: bool, past: seq<Action>, a: Action, future: seq<Action>)
    ensures var w := Run(Start(sealed), past);
            GrantsSuccess(Reply(w, a)) || GrantsComplete(Reply(w, a)) ==>
              Run(Next(w, a), future).live == Next(w, a).live
  {
    var w := Run(Start(sealed), past);
    RunMonotone(Start(sealed), past);
    StepStamps(w, a);
    RunMonotone(Next(w, a), future);
  }

  /** On runs whose seals wipe nothing, while a reserved job is unproduced the batch cannot have
      finished or granted anything, so the client's negative AddJobs on an uncancelled batch always
      applies. */
  lemma RollbackNeverClosed(sealed: bool, past: seq<Action>, seqs: set<int>)
    requires Legal(Start(sealed), past)
    requires Enabled(Run(Start(sealed), past), Rollback(seqs))
    requires !Run(Start(sealed), past).b.status.Cancelled?
    ensures var w := Run(Start(sealed), past);
            AddJobs(w.b, -|seqs|).1.Shrunk? && AddJobs(w.b, -|seqs|).0.total == |w.live - seqs|
  {
    RunSound(Start(sealed), past);
    RollbackOpen(Run(Start(sealed), past), seqs);
  }

  lemma RollbackOpen(w: World, seqs: set<int>)
    requires Inv(w) && Enabled(w, Rollback(seqs)) && !w.b.status.Cancelled?
    ensures AddJobs(w.b, -|seqs|).1.Shrunk? && AddJobs(w.b, -|seqs|).0.total == |w.live - seqs|
  {
    RollbackKeepsInv(w, seqs);
    assert w.b.touched != w.live;
  }

  /** Both windows have the size asked for and share no number. */
  ghost predicate Apart(b: Batch, n: int, b': Batch, m: int) {
    var (r, r') := (AddJobs(b, n).1, AddJobs(b', m).1);
    r.Added? && r'.Added? ==>
      && |Interval(r.first, r.last + 1)| == n && |Interval(r'.first, r'.last + 1)| == m
      && Interval(r.first, r.last + 1) !! Interval(r'.first, r'.last + 1)
  }

  /** A later reservation never reuses a sequence number of an earlier one, whatever happens before
      and between. */
  lemma WindowsDisjoint(w: World, n: int, between: seq<Action>, m: int)
    requires n > 0 && m > 0
    ensures Apart(w.b, n, Run(Next(w, Reserve(n)), between).b, m)
  {
    RunMonotone(Next(w, Reserve(n)), between);
    WindowsApart(w.b, n, Run(Next(w, Reserve(n)), between).b, m);
  }

  lemma WindowsApart(b: Batch, n: int, b': Batch, m: int)
    requires n > 0 && m > 0 && AddJobs(b, n).0.seqEnd <= b'.seqEnd
    ensures Apart(b, n, b', m)
  {
  }
}
