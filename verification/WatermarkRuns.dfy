/**
 The watermark executor as a state machine, and what holds in every interleaving: commits are
 safe, window slots are conserved, and without gaps, failures and resets the window cannot wedge.
 */
module WatermarkRuns {
  import opened Collections
  import opened Kafka
  import opened Watermark

  /** Where the poll goroutine is: between operations; holding a fresh slot; about to give back the
      slot of a duplicate; about to mark a batch; or releasing the slots of a marked batch. */
  datatype Phase = Idle | Acquired | Duplicate | Marking(batch: set<Cell>) | Releasing(slots: nat)

  /** running: offsets whose perform has not ended; leaving: performs that ended without a tracked
      completion and still hold a slot. The last five fields record history: per partition the lowest
      offset dispatched, one past the highest, and one past the last delivered; all completed offsets;
      all marked ones. */
  datatype State = State(
    t: Tracker, running: set<Cell>, leaving: nat, occupancy: nat, phase: Phase,
    low: map<Partition, int>, top: map<Partition, int>, cursor: map<Partition, int>,
    completed: set<Cell>, marked: set<Cell>)

  function Start(): State {
    State(Tracker(map[], {}, {}), {}, 0, 0, Idle, map[], map[], map[], {}, {})
  }

  datatype Step =
    | Acquire
    | Register(c: Cell)
    | DropDuplicate
    | Complete(c: Cell)
    | Fail(c: Cell)
    | Leave
    | Collect(batch: set<Cell>, after: Tracker)
    | Mark
    | Release

  function Lowest(low: map<Partition, int>, c: Cell): map<Partition, int> {
    if c.part in low && low[c.part] <= c.offset then low else low[c.part := c.offset]
  }

  function Topmost(top: map<Partition, int>, c: Cell): map<Partition, int> {
    if c.part in top && top[c.part] > c.offset then top else top[c.part := c.offset + 1]
  }

  /** A receive from the window channel, and a send to it, wait until they can proceed. */
  ghost predicate Enabled(capacity: nat, s: State, step: Step) {
    match step
    case Acquire => s.phase.Idle? && s.occupancy < capacity
    case Register(c) => s.phase.Acquired?
    case DropDuplicate => s.phase.Duplicate? && s.occupancy > 0
    case Complete(c) => c in s.running
    case Fail(c) => c in s.running
    case Leave => s.leaving > 0 && s.occupancy > 0
    case Collect(batch, after) => s.phase.Idle? && Collected(s.t, after, batch)
    case Mark => s.phase.Marking?
    case Release => s.phase.Releasing? && s.occupancy > 0
  }

  function AfterRelease(slots: nat): Phase {
    if slots <= 1 then Idle else Releasing(slots - 1)
  }

  function Next(s: State, step: Step): State
    requires step.DropDuplicate? || step.Leave? || step.Release? ==> s.occupancy > 0
    requires step.Leave? ==> s.leaving > 0
    requires step.Mark? ==> s.phase.Marking?
    requires step.Release? ==> s.phase.Releasing?
  {
    match step
    case Acquire => s.(occupancy := s.occupancy + 1, phase := Acquired)
    case Register(c) =>
      var cursor := s.cursor[c.part := c.offset + 1];
      if c in s.t.pending then s.(phase := Duplicate, cursor := cursor)
      else s.(t := Registered(s.t, c), running := s.running + {c}, phase := Idle,
              low := Lowest(s.low, c), top := Topmost(s.top, c), cursor := cursor)
    case DropDuplicate => s.(occupancy := s.occupancy - 1, phase := Idle)
    case Complete(c) =>
      s.(t := Noted(s.t, c), running := s.running - {c}, completed := s.completed + {c},
         leaving := if Resets(s.t, c) then s.leaving + 1 else s.leaving)
    case Fail(c) => s.(t := Failed(s.t, c), running := s.running - {c}, leaving := s.leaving + 1)
    case Leave => s.(leaving := s.leaving - 1, occupancy := s.occupancy - 1)
    case Collect(batch, after) => s.(t := after, phase := if batch == {} then Idle else Marking(batch))
    case Mark => s.(marked := s.marked + s.phase.batch, phase := Releasing(|s.phase.batch|))
    case Release => s.(occupancy := s.occupancy - 1, phase := AfterRelease(s.phase.slots))
  }

  // ---------- invariants ----------

  function InTransfer(phase: Phase): nat {
    match phase
    case Idle => 0
    case Acquired => 1
    case Duplicate => 1
    case Marking(batch) => |batch|
    case Releasing(slots) => slots
  }

  /** Pending is the disjoint union of running and done, and none of it lies below the watermark. */
  ghost predicate Tracked(s: State) {
    && s.t.pending == s.running + s.t.done && s.running !! s.t.done
    && s.low.Keys == s.t.expected.Keys
    && forall c <- s.t.pending :: !Resets(s.t, c)
  }

  /** Everything from the lowest dispatched offset up to the watermark has completed. */
  ghost predicate Prefixed(s: State) {
    && s.t.done <= s.completed
    && forall p, o :: p in s.low && p in s.t.expected && s.low[p] <= o < s.t.expected[p] ==> Cell(p, o) in s.completed
  }

  /** Whatever is about to be marked lies below the watermark. */
  ghost predicate MarksPassed(s: State) {
    s.phase.Marking? ==> forall c <- s.phase.batch :: c.part in s.t.expected && c.offset < s.t.expected[c.part]
  }

  /** Each occupied slot belongs to one pending offset or is on its way out. */
  ghost predicate SlotsConserved(s: State) {
    && s.occupancy == |s.t.pending| + s.leaving + InTransfer(s.phase)
    && (s.phase.Marking? ==> s.phase.batch != {}) && (s.phase.Releasing? ==> s.phase.slots > 0)
  }

  ghost predicate Inv(capacity: nat, s: State) {
    Tracked(s) && Prefixed(s) && MarksPassed(s) && SlotsConserved(s) && s.occupancy <= capacity
  }

  // ---------- every step keeps them ----------

  /** A reset finds no stale completion to drop. */
  lemma NothingBelow(s: State, c: Cell)
    requires Tracked(s) && Resets(s.t, c)
    ensures Below(s.t.done, c) == {}
  {
  }

  /** The stale branch of a completion is never taken. */
  lemma CompletionsTracked(s: State, c: Cell)
    requires Tracked(s) && c in s.running
    ensures !Resets(s.t, c) && c in s.t.pending
  {
  }

  lemma StepTracked(capacity: nat, s: State, step: Step)
    requires Enabled(capacity, s, step) && Tracked(s)
    ensures Tracked(Next(s, step))
  {
    match step {
      case Register(c) => if Resets(s.t, c) { NothingBelow(s, c); }
      case Complete(c) => CompletionsTracked(s, c);
      case Collect(batch, after) => CollectTracked(s, batch, after);
      case _ =>
    }
  }

  lemma CollectTracked(s: State, batch: set<Cell>, after: Tracker)
    requires Collected(s.t, after, batch) && Tracked(s)
    ensures Tracked(Next(s, Collect(batch, after)))
  {
  }

  lemma StepPrefixed(capacity: nat, s: State, step: Step)
    requires Enabled(capacity, s, step) && Tracked(s) && Prefixed(s)
    ensures Prefixed(Next(s, step))
  {
    match step {
      case Register(c) => if Resets(s.t, c) { NothingBelow(s, c); }
      case Complete(c) => CompletionsTracked(s, c);
      case Collect(batch, after) => CollectPrefixed(s, batch, after);
      case _ =>
    }
  }

  lemma CollectPrefixed(s: State, batch: set<Cell>, after: Tracker)
    requires Collected(s.t, after, batch) && Tracked(s) && Prefixed(s)
    ensures Prefixed(Next(s, Collect(batch, after)))
  {
    forall p, o | p in s.low && p in after.expected && s.low[p] <= o < after.expected[p]
      ensures Cell(p, o) in s.completed
    {
      if o >= s.t.expected[p] { assert Cell(p, o) in batch; }
    }
  }

  lemma StepMarksPassed(capacity: nat, s: State, step: Step)
    requires Enabled(capacity, s, step) && MarksPassed(s)
    ensures MarksPassed(Next(s, step))
  {
    match step {
      case Collect(batch, after) =>
        assert forall c <- batch :: c.part in after.expected && c.offset < after.expected[c.part];
      case _ =>
    }
  }

  lemma RegisterSlots(s: State, c: Cell)
    requires s.phase.Acquired? && SlotsConserved(s)
    ensures SlotsConserved(Next(s, Register(c)))
  {
  }

  lemma FailSlots(s: State, c: Cell)
    requires c in s.t.pending && SlotsConserved(s)
    ensures SlotsConserved(Next(s, Fail(c)))
  {
    MissingSize({c}, s.t.pending);
  }

  lemma CollectSlots(s: State, batch: set<Cell>, after: Tracker)
    requires s.phase.Idle? && batch <= s.t.pending && after.pending == s.t.pending - batch && SlotsConserved(s)
    ensures SlotsConserved(Next(s, Collect(batch, after)))
  {
    MissingSize(batch, s.t.pending);
  }

  lemma StepSlots(capacity: nat, s: State, step: Step)
    requires Enabled(capacity, s, step) && Tracked(s) && SlotsConserved(s)
    ensures SlotsConserved(Next(s, step))
  {
    match step {
      case Register(c) => RegisterSlots(s, c);
      case Complete(c) => CompletionsTracked(s, c);
      case Fail(c) => FailSlots(s, c);
      case Collect(batch, after) => CollectSlots(s, batch, after);
      case _ =>
    }
  }

  lemma StepInv(capacity: nat, s: State, step: Step)
    requires Enabled(capacity, s, step) && Inv(capacity, s)
    ensures Inv(capacity, Next(s, step))
  {
    StepTracked(capacity, s, step);
    StepPrefixed(capacity, s, step);
    StepMarksPassed(capacity, s, step);
    StepSlots(capacity, s, step);
  }

  /** Whoever has a slot to give back can do so at once. */
  lemma ReleasesNeverBlock(capacity: nat, s: State)
    requires Inv(capacity, s)
    ensures s.phase.Duplicate? ==> Enabled(capacity, s, DropDuplicate)
    ensures s.phase.Releasing? ==> Enabled(capacity, s, Release)
    ensures s.leaving > 0 ==> Enabled(capacity, s, Leave)
  {
  }

  // ---------- runs ----------

  /** The states after each prefix of a run that begins in s. */
  ghost predicate Run(capacity: nat, states: seq<State>, steps: seq<Step>) {
    && |states| == |steps| + 1 && states[0] == Start()
    && forall i :: 0 <= i < |steps| ==>
         Enabled(capacity, states[i], steps[i]) && states[i + 1] == Next(states[i], steps[i])
  }

  lemma {:induction false} RunInv(capacity: nat, states: seq<State>, steps: seq<Step>, i: nat)
    requires Run(capacity, states, steps) && i < |states|
    ensures Inv(capacity, states[i])
  {
    if i > 0 {
      RunInv(capacity, states, steps, i - 1);
      StepInv(capacity, states[i - 1], steps[i - 1]);
    }
  }

  /** Only a mark of a batch adds to what is marked. */
  lemma OnlyMarkMarks(capacity: nat, s: State, step: Step)
    requires Enabled(capacity, s, step)
    ensures Next(s, step).marked == s.marked + if step.Mark? then s.phase.batch else {}
  {
  }

  /** Commit safety: at whatever step an offset becomes marked, every offset of its partition from the
      lowest one dispatched so far up to it has completed. */
  lemma RunCommitsSafely(capacity: nat, states: seq<State>, steps: seq<Step>, i: nat, c: Cell)
    requires Run(capacity, states, steps) && i < |steps|
    requires c in states[i + 1].marked && c !in states[i].marked
    ensures c.part in states[i].low
    ensures forall o :: states[i].low[c.part] <= o <= c.offset ==> Cell(c.part, o) in states[i].completed
  {
    RunInv(capacity, states, steps, i);
    OnlyMarkMarks(capacity, states[i], steps[i]);
  }

  // ---------- no wedge ----------

  /** Delivery without gaps: a record dispatched for the first time continues its partition. */
  ghost predicate Steady(s: State, step: Step) {
    match step
    case Register(c) => c in s.t.pending || c.part !in s.t.expected || (c.part in s.top && c.offset == s.top[c.part])
    case Fail(c) => false
    case _ => true
  }

  /** Pending is exactly what lies between the watermark and the last dispatched offset. */
  ghost predicate Tight(s: State) {
    && s.leaving == 0 && s.top.Keys == s.t.expected.Keys
    && (forall p <- s.t.expected :: s.t.expected[p] <= s.top[p])
    && (forall c :: c in s.t.pending <==> c.part in s.t.expected && s.t.expected[c.part] <= c.offset < s.top[c.part])
  }

  lemma StepTight(capacity: nat, s: State, step: Step)
    requires Enabled(capacity, s, step) && Steady(s, step) && Tracked(s) && Tight(s)
    ensures Tight(Next(s, step))
  {
    match step {
      case Register(c) => RegisterTight(s, c);
      case Complete(c) => CompletionsTracked(s, c);
      case Collect(batch, after) => CollectTight(s, batch, after);
      case _ =>
    }
  }

  lemma RegisterTight(s: State, c: Cell)
    requires Steady(s, Register(c)) && Tracked(s) && Tight(s)
    ensures Tight(Next(s, Register(c)))
  {
    if Resets(s.t, c) { NothingBelow(s, c); }
  }

  /** A flush cannot pass the last dispatched offset. */
  lemma CollectTight(s: State, batch: set<Cell>, after: Tracker)
    requires Collected(s.t, after, batch) && Tracked(s) && Tight(s)
    ensures Tight(Next(s, Collect(batch, after)))
  {
    forall p <- s.t.expected ensures after.expected[p] <= s.top[p] {
      var beyond := Cell(p, s.top[p]);
      assert beyond !in s.t.pending && beyond !in batch;
    }
  }

  lemma {:induction false} RunTight(capacity: nat, states: seq<State>, steps: seq<Step>, i: nat)
    requires Run(capacity, states, steps) && i < |states|
    requires forall j :: 0 <= j < i ==> Steady(states[j], steps[j])
    ensures Tight(states[i])
  {
    if i > 0 {
      RunTight(capacity, states, steps, i - 1);
      RunInv(capacity, states, steps, i - 1);
      StepTight(capacity, states[i - 1], steps[i - 1]);
    }
  }

  /** A completed head is part of every flush. */
  lemma HeadCollected(t: Tracker, after: Tracker, batch: set<Cell>, p: Partition)
    requires Collected(t, after, batch) && p in t.expected && Cell(p, t.expected[p]) in t.done
    ensures Cell(p, t.expected[p]) in batch
  {
    assert Exhausted(t, after, p);
  }

  /** The head of the partition is running, or every flush commits it. */
  ghost predicate CanMove(s: State, p: Partition) {
    && p in s.t.expected
    && var head := Cell(p, s.t.expected[p]);
       head in s.running || forall batch, after :: Collected(s.t, after, batch) ==> head in batch
  }

  lemma PendingMoves(s: State, p: Partition)
    requires Tracked(s) && p in s.t.expected && Cell(p, s.t.expected[p]) in s.t.pending
    ensures CanMove(s, p)
  {
    var head := Cell(p, s.t.expected[p]);
    if head !in s.running {
      forall batch, after | Collected(s.t, after, batch) ensures head in batch {
        HeadCollected(s.t, after, batch, p);
      }
    }
  }

  // ---------- with redelivery ----------

  /** Delivery without gaps: a record is its partition's first, the one after the last delivered, or a
      redelivery of an earlier one. Nothing fails. */
  ghost predicate GapFree(s: State, step: Step) {
    match step
    case Register(c) => c.part !in s.cursor || c.offset <= s.cursor[c.part]
    case Fail(c) => false
    case _ => true
  }

  /** Everything from the watermark up to the delivery position is pending. */
  ghost predicate Covered(s: State) {
    && s.leaving == 0 && s.cursor.Keys == s.t.expected.Keys
    && forall p, o :: p in s.cursor && p in s.t.expected && s.t.expected[p] <= o < s.cursor[p] ==>
         Cell(p, o) in s.t.pending
  }

  /** Pending offsets that a redelivery has yet to reach again. */
  ghost function Ahead(s: State): set<Cell> {
    set c <- s.t.pending | c.part in s.cursor && c.offset >= s.cursor[c.part]
  }

  lemma RegisterCovered(s: State, c: Cell)
    requires Tracked(s) && Covered(s) && GapFree(s, Register(c))
    ensures Covered(Next(s, Register(c)))
  {
    if c !in s.t.pending && Resets(s.t, c) { NothingBelow(s, c); }
  }

  lemma CollectCovered(s: State, batch: set<Cell>, after: Tracker)
    requires Collected(s.t, after, batch) && Tracked(s) && Covered(s)
    ensures Covered(Next(s, Collect(batch, after)))
  {
  }

  lemma StepCovered(capacity: nat, s: State, step: Step)
    requires Enabled(capacity, s, step) && GapFree(s, step) && Tracked(s) && Covered(s)
    ensures Covered(Next(s, step))
  {
    match step {
      case Register(c) => RegisterCovered(s, c);
      case Complete(c) => CompletionsTracked(s, c);
      case Collect(batch, after) => CollectCovered(s, batch, after);
      case _ =>
    }
  }

  /** What is ahead was pending when the poll goroutine held one more slot, so it cannot fill the
      window. */
  lemma RegisterAhead(capacity: nat, s: State, c: Cell)
    requires Inv(capacity, s) && s.phase.Acquired?
    ensures |Ahead(Next(s, Register(c)))| < capacity
  {
    SubsetSize(Ahead(Next(s, Register(c))), s.t.pending);
  }

  lemma StepAhead(capacity: nat, s: State, step: Step)
    requires Enabled(capacity, s, step) && GapFree(s, step) && Inv(capacity, s) && |Ahead(s)| < capacity
    ensures |Ahead(Next(s, step))| < capacity
  {
    if step.Register? {
      RegisterAhead(capacity, s, step.c);
    } else {
      if step.Complete? { CompletionsTracked(s, step.c); }
      SubsetSize(Ahead(Next(s, step)), Ahead(s));
    }
  }

  lemma {:induction false} RunCovered(capacity: nat, states: seq<State>, steps: seq<Step>, i: nat)
    requires Run(capacity, states, steps) && i < |states| && capacity > 0
    requires forall j :: 0 <= j < i ==> GapFree(states[j], steps[j])
    ensures Covered(states[i]) && |Ahead(states[i])| < capacity
  {
    if i > 0 {
      RunCovered(capacity, states, steps, i - 1);
      RunInv(capacity, states, steps, i - 1);
      StepCovered(capacity, states[i - 1], steps[i - 1]);
      StepAhead(capacity, states[i - 1], steps[i - 1]);
    } else {
      assert Ahead(states[0]) == {};
    }
  }

  /** No wedge: on runs without gaps and failures, with any redelivery, a poll goroutine that finds the
      window full has a partition whose head is running or whose head the next flush commits. */
  lemma FullWindowMoves(capacity: nat, states: seq<State>, steps: seq<Step>, i: nat)
    requires Run(capacity, states, steps) && i < |states| && capacity > 0
    requires forall j :: 0 <= j < i ==> GapFree(states[j], steps[j])
    requires states[i].phase.Idle? && states[i].occupancy == capacity
    ensures exists p :: CanMove(states[i], p)
  {
    RunInv(capacity, states, steps, i);
    RunCovered(capacity, states, steps, i);
    SlotHolder(capacity, states[i]);
  }

  lemma SlotHolder(capacity: nat, s: State)
    requires Inv(capacity, s) && Covered(s) && |Ahead(s)| < capacity && s.phase.Idle? && s.occupancy == capacity
    ensures exists p :: CanMove(s, p)
  {
    MissingSize(Ahead(s), s.t.pending);
    assert s.t.pending - Ahead(s) != {};
    var c :| c in s.t.pending - Ahead(s);
    assert !Resets(s.t, c) && c.part in s.cursor && c.offset < s.cursor[c.part];
    PendingMoves(s, c.part);
  }

  lemma Extend(capacity: nat, states: seq<State>, steps: seq<Step>, step: Step)
    returns (states': seq<State>, steps': seq<Step>)
    requires Run(capacity, states, steps) && Enabled(capacity, states[|steps|], step)
    ensures Run(capacity, states', steps') && states'[|steps'|] == Next(states[|steps|], step)
    ensures steps' == steps + [step]
  {
    states', steps' := states + [Next(states[|steps|], step)], steps + [step];
  }

  /** One slot; the first offset of a partition fails and lets go of it. */
  lemma FirstFails(p: Partition) returns (states: seq<State>, steps: seq<Step>)
    ensures Run(1, states, steps)
    ensures states[|steps|]
         == State(Tracker(map[p := 0], {}, {}), {}, 0, 0, Idle, map[p := 0], map[p := 1], map[p := 1], {}, {})
  {
    var c := Cell(p, 0);
    states, steps := [Start()], [];
    states, steps := Extend(1, states, steps, Acquire);
    states, steps := Extend(1, states, steps, Register(c));
    assert states[|steps|]
         == State(Tracker(map[p := 0], {}, {c}), {c}, 0, 1, Idle, map[p := 0], map[p := 1], map[p := 1], {}, {});
    states, steps := Extend(1, states, steps, Fail(c));
    assert {c} - {c} == {};
    states, steps := Extend(1, states, steps, Leave);
  }

  /** A failure can wedge the window: the completed offset behind the failed one holds the only slot,
      nothing runs, and a flush commits nothing. */
  lemma FailureWedges(p: Partition) returns (states: seq<State>, steps: seq<Step>)
    ensures Run(1, states, steps)
    ensures var s := states[|steps|];
            && s.phase.Idle? && s.occupancy == 1 && s.running == {} && s.leaving == 0
            && forall batch, after :: Collected(s.t, after, batch) ==> batch == {}
  {
    var c := Cell(p, 1);
    states, steps := FirstFails(p);
    states, steps := Extend(1, states, steps, Acquire);
    states, steps := Extend(1, states, steps, Register(c));
    assert states[|steps|]
         == State(Tracker(map[p := 0], {}, {c}), {c}, 0, 1, Idle, map[p := 0], map[p := 2], map[p := 2], {}, {});
    states, steps := Extend(1, states, steps, Complete(c));
    assert {c} - {c} == {};
    BlockedHead(Tracker(map[p := 0], {c}, {c}), p, 0);
  }

  lemma BlockedHead(t: Tracker, p: Partition, head: int)
    requires t.expected == map[p := head] && Cell(p, head) !in t.done
    ensures forall batch, after :: Collected(t, after, batch) ==> batch == {}
  {
    forall batch, after | Collected(t, after, batch) ensures batch == {} {
      assert Cell(p, head) !in batch;
    }
  }

  /** One slot; the first offset of a partition is dispatched, completed and committed. */
  lemma FirstCommits(p: Partition) returns (states: seq<State>, steps: seq<Step>)
    ensures Run(1, states, steps) && forall i :: 0 <= i < |steps| ==> !steps[i].Fail?
    ensures var done := {Cell(p, 0)};
            states[|steps|]
            == State(Tracker(map[p := 1], {}, {}), {}, 0, 0, Idle, map[p := 0], map[p := 1], map[p := 1], done, done)
  {
    var c, start := Cell(p, 0), map[p := 0];
    var after := Tracker(map[p := 1], {}, {});
    states, steps := [Start()], [];
    states, steps := Extend(1, states, steps, Acquire);
    states, steps := Extend(1, states, steps, Register(c));
    assert states[|steps|]
        == State(Tracker(start, {}, {c}), {c}, 0, 1, Idle, start, map[p := 1], map[p := 1], {}, {});
    states, steps := Extend(1, states, steps, Complete(c));
    assert {c} - {c} == {};
    assert states[|steps|]
        == State(Tracker(start, {c}, {c}), {}, 0, 1, Idle, start, map[p := 1], map[p := 1], {c}, {});
    assert Collected(Tracker(start, {c}, {c}), after, {c});
    states, steps := Extend(1, states, steps, Collect({c}, after));
    states, steps := Extend(1, states, steps, Mark);
    states, steps := Extend(1, states, steps, Release);
  }

  /** A gap alone can wedge the window: after offset 0 is committed, offset 2 completes and holds the
      only slot, and offset 1, the head, never comes. Nothing fails and nothing is redelivered. */
  lemma GapWedges(p: Partition) returns (states: seq<State>, steps: seq<Step>)
    ensures Run(1, states, steps) && forall i :: 0 <= i < |steps| ==> !steps[i].Fail?
    ensures var s := states[|steps|];
            && s.phase.Idle? && s.occupancy == 1 && s.running == {} && s.leaving == 0
            && forall batch, after :: Collected(s.t, after, batch) ==> batch == {}
  {
    var c, done := Cell(p, 2), {Cell(p, 0)};
    states, steps := FirstCommits(p);
    states, steps := Extend(1, states, steps, Acquire);
    states, steps := Extend(1, states, steps, Register(c));
    assert states[|steps|]
        == State(Tracker(map[p := 1], {}, {c}), {c}, 0, 1, Idle, map[p := 0], map[p := 3], map[p := 3], done, done);
    states, steps := Extend(1, states, steps, Complete(c));
    assert {c} - {c} == {};
    BlockedHead(Tracker(map[p := 1], {c}, {c}), p, 1);
  }
}
