/**
 SuperFetch dispatch: a poll batch is claimed in pipelined chunks, marked in record order, and
 rewound from the first record whose outcome is unknown. Kafka marks are per-partition high-water
 marks, so a mark also commits everything below it.

 Everything outside the poll goroutine is left open: what Redis answers to a claim, whether a
 malformed record can be routed, when performs finish, when the executor stops accepting and when
 the poll context ends. What is proved holds for every choice.
 */
module SuperFetch {
  import opened Kafka

  /** A polled record; job is the id found in its payload, empty when there is none. */
  datatype Record = Record(source: Partition, offset: int, job: string)

  // ---------- rewind targets ----------

  /** The lowest offset of each partition among the records. */
  function LeastOffsets(recs: seq<Record>): map<Partition, int> {
    if recs == [] then map[]
    else
      var least, r := LeastOffsets(recs[..|recs| - 1]), recs[|recs| - 1];
      if r.source in least && least[r.source] <= r.offset then least else least[r.source := r.offset]
  }

  /** The targets cover exactly the partitions of the records; each is some record's offset, and
      no record lies below it. */
  lemma {:induction false} LeastOffsetsAreLeast(recs: seq<Record>)
    ensures var least := LeastOffsets(recs);
            && (forall r <- recs :: r.source in least && least[r.source] <= r.offset)
            && (forall p <- least :: exists r <- recs :: r.source == p && r.offset == least[p])
  {
    if recs != [] {
      var front, r := recs[..|recs| - 1], recs[|recs| - 1];
      LeastOffsetsAreLeast(front);
      assert recs == front + [r];
      var before, least := LeastOffsets(front), LeastOffsets(recs);
      forall p <- least ensures exists s <- recs :: s.source == p && s.offset == least[p] {
        if p == r.source && least[p] == r.offset {
          assert r in recs;
        } else {
          var s :| s in front && s.source == p && s.offset == before[p];
          assert s in recs;
        }
      }
    }
  }

  method UndispatchedRewindOffsets(recs: seq<Record>) returns (least: map<Partition, int>)
    ensures least == LeastOffsets(recs)
  {
    least := map[];
    for i := 0 to |recs|
      invariant least == LeastOffsets(recs[..i])
    {
      var r := recs[i];
      assert recs[..i + 1][..i] == recs[..i];
      if r.source !in least || r.offset < least[r.source] {
        least := least[r.source := r.offset];
      }
    }
    assert recs[..|recs|] == recs;
  }

  predicate Ordered(recs: seq<Record>) {
    forall i, j :: 0 <= i < j < |recs| && recs[i].source == recs[j].source ==> recs[i].offset < recs[j].offset
  }

  /** When a batch ordered within each partition is marked up to split and rewound from there, no
      mark reaches a rewind target: nothing undispatched is committed past, nothing marked is
      fetched again, and everything undispatched is. */
  lemma SplitIsSafe(recs: seq<Record>, split: nat)
    requires Ordered(recs) && split <= |recs|
    ensures var least := LeastOffsets(recs[split..]);
            && (forall r <- recs[..split] :: r.source in least ==> r.offset < least[r.source])
            && (forall r <- recs[split..] :: r.source in least && least[r.source] <= r.offset)
  {
    var tail := recs[split..];
    LeastOffsetsAreLeast(tail);
    var least := LeastOffsets(tail);
    forall r <- recs[..split] | r.source in least ensures r.offset < least[r.source] {
      var s :| s in tail && s.source == r.source && s.offset == least[r.source];
      AcrossSplit(recs, split, r, s);
    }
  }

  lemma AcrossSplit(recs: seq<Record>, split: nat, r: Record, s: Record)
    requires Ordered(recs) && split <= |recs| && r in recs[..split] && s in recs[split..] && r.source == s.source
    ensures r.offset < s.offset
  {
    var i :| 0 <= i < split && recs[i] == r;
    var j :| split <= j < |recs| && recs[j] == s;
  }

  /** A claim is won, lost to another owner, or of unknown outcome. */
  datatype Verdict = Won | Lost | Failed

  // ---------- the pending chunk ----------

  datatype Kind = Claim | Duplicate | Malformed

  /** A pending record. A pending claim holds its in-flight key and one window slot. */
  datatype Item = Item(rec: Record, kind: Kind)

  /** What becomes of a marked item. */
  function FateOf(kind: Kind, verdict: Verdict): Fate {
    match kind case Malformed => RoutedOut case Duplicate => InFlight case Claim => Answered(verdict)
  }

  function With(keys: set<string>, it: Item): set<string> {
    if it.kind.Claim? then keys + {it.rec.job} else keys
  }

  /** The keys of the pending claims from index i on, and the other ones. */
  ghost function Keys(chunk: seq<Item>, i: nat, others: set<string>): set<string>
    decreases |chunk| - i
  {
    if i >= |chunk| then others else With(Keys(chunk, i + 1, others), chunk[i])
  }

  /** How many claims are pending from index i on; each holds a slot. */
  ghost function Slots(chunk: seq<Item>, i: nat): nat
    decreases |chunk| - i
  {
    if i >= |chunk| then 0 else Slots(chunk, i + 1) + if chunk[i].kind.Claim? then 1 else 0
  }

  /** No two of them share a key. */
  ghost predicate Distinct(chunk: seq<Item>, i: nat, others: set<string>)
    decreases |chunk| - i
  {
    i < |chunk| ==>
      && Distinct(chunk, i + 1, others)
      && (chunk[i].kind.Claim? ==> chunk[i].rec.job !in Keys(chunk, i + 1, others))
  }

  /** The kind fits the record, and a duplicate's job is known. */
  predicate Fits(it: Item, known: set<string>) {
    && (it.kind.Malformed? <==> it.rec.job == "")
    && (it.kind.Duplicate? ==> it.rec.job in known)
  }

  /** A duplicate's job is known at first or claimed earlier in the chunk. */
  ghost predicate Backed(chunk: seq<Item>, i: nat, known: set<string>)
    decreases |chunk| - i
  {
    i < |chunk| ==> Fits(chunk[i], known) && Backed(chunk, i + 1, With(known, chunk[i]))
  }

  /** The chunk is the stretch of the batch that begins at start. */
  predicate Carries(chunk: seq<Item>, recs: seq<Record>, start: nat) {
    start + |chunk| <= |recs| && forall j :: 0 <= j < |chunk| ==> chunk[j].rec == recs[start + j]
  }

  /** The jobs of the claims among the first n items. */
  function Claims(chunk: seq<Item>, n: nat): seq<string>
    requires n <= |chunk|
  {
    if n == 0 then []
    else Claims(chunk, n - 1) + (if chunk[n - 1].kind.Claim? then [chunk[n - 1].rec.job] else [])
  }

  lemma {:induction false} ClaimAt(chunk: seq<Item>, i: nat, n: nat)
    requires i < n <= |chunk| && chunk[i].kind.Claim?
    ensures var k := |Claims(chunk, i)|; k < |Claims(chunk, n)| && Claims(chunk, n)[k] == chunk[i].rec.job
  {
    if i < n - 1 { ClaimAt(chunk, i, n - 1); }
  }

  lemma {:induction false} BackedMore(chunk: seq<Item>, i: nat, known: set<string>, more: set<string>)
    requires Backed(chunk, i, known) && known <= more
    ensures Backed(chunk, i, more)
    decreases |chunk| - i
  {
    if i < |chunk| { BackedMore(chunk, i + 1, With(known, chunk[i]), With(more, chunk[i])); }
  }

  lemma {:induction false} KeysAppended(chunk: seq<Item>, i: nat, it: Item, others: set<string>)
    requires i <= |chunk|
    ensures Keys(chunk + [it], i, others) == With(Keys(chunk, i, others), it)
    ensures Slots(chunk + [it], i) == Slots(chunk, i) + if it.kind.Claim? then 1 else 0
    decreases |chunk| - i
  {
    if i < |chunk| { KeysAppended(chunk, i + 1, it, others); }
    else { assert Keys(chunk + [it], i + 1, others) == others; }
  }

  lemma {:induction false} DistinctAppended(chunk: seq<Item>, i: nat, it: Item, others: set<string>)
    requires i <= |chunk| && Distinct(chunk, i, others) && (it.kind.Claim? ==> it.rec.job !in Keys(chunk, i, others))
    ensures Distinct(chunk + [it], i, others)
    decreases |chunk| - i
  {
    if i < |chunk| {
      DistinctAppended(chunk, i + 1, it, others);
      KeysAppended(chunk, i + 1, it, others);
    }
  }

  lemma {:induction false} BackedAppended(chunk: seq<Item>, i: nat, it: Item, known: set<string>)
    requires i <= |chunk| && Backed(chunk, i, known) && Fits(it, known + Keys(chunk, i, {}))
    ensures Backed(chunk + [it], i, known)
    decreases |chunk| - i
  {
    if i < |chunk| {
      assert known + Keys(chunk, i, {}) == With(known, chunk[i]) + Keys(chunk, i + 1, {});
      BackedAppended(chunk, i + 1, it, With(known, chunk[i]));
    } else {
      assert known + {} == known;
    }
  }

  ghost predicate WellFormed(chunk: seq<Item>, i: nat, others: set<string>, known: set<string>) {
    Distinct(chunk, i, others) && Backed(chunk, i, known)
  }

  /** Once its first item is settled, the rest of a chunk is a chunk. */
  lemma RestWellFormed(chunk: seq<Item>, i: nat, others: set<string>, known: set<string>)
    requires i < |chunk| && WellFormed(chunk, i, others, known) && (chunk[i].kind.Claim? ==> chunk[i].rec.job in known)
    ensures WellFormed(chunk, i + 1, others, known)
  {
    assert With(known, chunk[i]) == known;
  }

  lemma Popped(chunk: seq<Item>, i: nat, others: set<string>)
    requires i < |chunk| && Distinct(chunk, i, others)
    ensures var job := chunk[i].rec.job;
            if chunk[i].kind.Claim? then
              && Keys(chunk, i, others) - {job} == Keys(chunk, i + 1, others) && job in Keys(chunk, i, others)
              && Slots(chunk, i) == Slots(chunk, i + 1) + 1
            else Keys(chunk, i, others) == Keys(chunk, i + 1, others) && Slots(chunk, i) == Slots(chunk, i + 1)
  {
  }

  /** Why a record may be committed: it was routed to the dead-letter topic, its job was in flight already, or
      Redis answered its claim. */
  datatype Fate = RoutedOut | InFlight | Answered(verdict: Verdict)

  /** The records marked so far with their fates, the latest outermost. */
  datatype Trail = Nothing | Later(earlier: Trail, rec: Record, fate: Fate)

  function Marks(trail: Trail): seq<Record> {
    match trail case Nothing => [] case Later(earlier, r, _) => Marks(earlier) + [r]
  }

  /** The jobs whose claims were won, in the order they were marked. */
  function Winners(trail: Trail): seq<string> {
    match trail
    case Nothing => []
    case Later(earlier, r, fate) => Winners(earlier) + if fate == Answered(Won) then [r.job] else []
  }

  /** The trail is an earlier one and then the first n records of a batch, whatever their fates. */
  ghost predicate Extends(marks: Trail, trail: Trail, recs: seq<Record>, n: nat)
    requires n <= |recs|
  {
    if n == 0 then trail == marks
    else trail.Later? && trail.rec == recs[n - 1] && Extends(marks, trail.earlier, recs, n - 1)
  }

  /** The jobs of the first n records whose claims were won. */
  function WonJobs(recs: seq<Record>, fates: seq<Fate>, n: nat): seq<string>
    requires n <= |recs| && n <= |fates|
  {
    if n == 0 then []
    else WonJobs(recs, fates, n - 1) + if fates[n - 1] == Answered(Won) then [recs[n - 1].job] else []
  }

  lemma {:induction false} WonJobsPrefix(recs: seq<Record>, fates: seq<Fate>, fate: Fate, n: nat)
    requires n <= |recs| && n <= |fates|
    ensures WonJobs(recs, fates + [fate], n) == WonJobs(recs, fates, n)
  {
    if n > 0 { WonJobsPrefix(recs, fates, fate, n - 1); }
  }

  /** Redis has answered the claim of the record's job as its fate says, or had answered for a job in flight;
      or the record has no job and reached the dead-letter topic. */
  ghost predicate Handled(r: Record, fate: Fate, k: Known) {
    match fate
    case RoutedOut => r.job == "" && r in k.routed
    case InFlight => r.job != "" && r.job in k.settled
    case Answered(v) => r.job != "" && r.job in k.settled && v != Failed && Answer(r.job, v) in k.answers
  }

  ghost predicate AllHandled(trail: Trail, k: Known) {
    trail.Later? ==> Handled(trail.rec, trail.fate, k) && AllHandled(trail.earlier, k)
  }

  /** What the outside world has answered: jobs whose claim got an answer, the answers, and malformed
      records routed. */
  datatype Known = Known(settled: set<string>, answers: set<Answer>, routed: set<Record>)

  datatype Answer = Answer(job: string, verdict: Verdict)

  ghost predicate Grows(k: Known, k': Known) {
    k.settled <= k'.settled && k.answers <= k'.answers && k.routed <= k'.routed
  }

  lemma StillHandled(trail: Trail, k: Known, k': Known)
    requires AllHandled(trail, k) && Grows(k, k')
    ensures AllHandled(trail, k')
  {
  }

  /** What a trail that extends another by a batch says of the batch: each record has a fate that accounts
      for it, and the winners are the earlier ones and the won ones of the batch. */
  lemma {:induction false} FatesOf(marks: Trail, trail: Trail, recs: seq<Record>, n: nat, k: Known)
    returns (fates: seq<Fate>)
    requires n <= |recs| && Extends(marks, trail, recs, n) && AllHandled(trail, k)
    ensures |fates| == n && (forall i :: 0 <= i < n ==> Handled(recs[i], fates[i], k))
    ensures Marks(trail) == Marks(marks) + recs[..n] && Winners(trail) == Winners(marks) + WonJobs(recs, fates, n)
  {
    if n == 0 {
      fates := [];
    } else {
      var front := FatesOf(marks, trail.earlier, recs, n - 1, k);
      fates := front + [trail.fate];
      WonJobsPrefix(recs, front, trail.fate, n - 1);
      assert recs[..n] == recs[..n - 1] + [recs[n - 1]];
    }
  }

  ghost function Rewinding(tail: seq<Record>): seq<map<Partition, int>> {
    if tail == [] then [] else [LeastOffsets(tail)]
  }

  lemma {:induction false} DistinctFrom(chunk: seq<Item>, n: nat, others: set<string>)
    requires n <= |chunk| && Distinct(chunk, 0, others)
    ensures Distinct(chunk, n, others)
  {
    if n > 0 { DistinctFrom(chunk, n - 1, others); }
  }

  /** The verdicts other than unknown are what Redis answered to these claims. */
  ghost predicate Reflects(jobs: seq<string>, verdicts: seq<Verdict>, known: Known) {
    && |verdicts| == |jobs|
    && forall k :: 0 <= k < |jobs| && verdicts[k] != Failed ==>
         jobs[k] in known.settled && Answer(jobs[k], verdicts[k]) in known.answers
  }

  lemma VerdictKnown(chunk: seq<Item>, verdicts: seq<Verdict>, i: nat, known: Known)
    requires Reflects(Claims(chunk, |chunk|), verdicts, known) && i < |chunk| && chunk[i].kind.Claim?
    ensures var k := |Claims(chunk, i)|;
            && k < |verdicts| && |Claims(chunk, i + 1)| == k + 1
            && (verdicts[k] != Failed ==>
                  chunk[i].rec.job in known.settled && Answer(chunk[i].rec.job, verdicts[k]) in known.answers)
  {
    ClaimAt(chunk, i, |chunk|);
  }

  // ---------- the executor ----------

  const MaxClaimPipeline: nat := 256

  /** What the executor has handed out: in-flight keys and occupied window slots. A perform owns one
      of each; when it ends it first drops the key (it is then draining) and then the slot. */
  datatype Resources = Resources(inFlight: set<string>, performing: set<string>, draining: nat, occupancy: nat)

  /** Performs hold one key and one slot each, the poll goroutine holds the given keys and slots,
      and nobody else holds any. */
  ghost predicate Holding(u: Resources, keys: set<string>, slots: nat) {
    && u.inFlight == u.performing + keys && u.performing !! keys
    && u.occupancy == |u.performing| + u.draining + slots
  }

  /** The resources of the items from index i on, and the other keys, are held. */
  ghost predicate StillHeld(u: Resources, chunk: seq<Item>, i: nat, others: set<string>) {
    Holding(u, Keys(chunk, i, others), Slots(chunk, i))
  }

  lemma PastEnd(u: Resources, chunk: seq<Item>, others: set<string>)
    requires StillHeld(u, chunk, |chunk|, others)
    ensures StillHeld(u, chunk, |chunk| + 1, others)
  {
  }

  /** What the outside world has answered and seen: records marked for commit, jobs whose perform was
      started, in order, and rewinds of the consume position. */
  datatype Seen = Seen(known: Known, marked: Trail, started: seq<string>, rewinds: seq<map<Partition, int>>)

  /** Whatever is marked is handled, every perform's job is settled, and the jobs started are exactly those
      of the marked claims that were won, once for each and in their order. */
  ghost predicate Sound(u: Resources, w: Seen) {
    && u.performing <= w.known.settled && AllHandled(w.marked, w.known)
    && w.started == Winners(w.marked)
  }

  /** A batch is over: marked up to split and rewound from there. */
  ghost predicate Ended(w: Seen, recs: seq<Record>, split: nat, marks: Trail, rewinds: seq<map<Partition, int>>) {
    split <= |recs| && Extends(marks, w.marked, recs, split) && w.rewinds == rewinds + Rewinding(recs[split..])
  }

  /** What the end of an ordered batch means: its first part is marked, in order, and each record of it is
      accounted for by its fate; the performs started are exactly those of the won claims among them;
      every later record will be fetched again, none of them is committed past, and nothing marked is
      fetched again. */
  lemma BatchSafe(u: Resources, w: Seen, recs: seq<Record>, split: nat, marks: Trail, rewinds: seq<map<Partition, int>>)
    returns (fates: seq<Fate>)
    requires Ended(w, recs, split, marks, rewinds) && Sound(u, w) && Ordered(recs)
    ensures Marks(w.marked) == Marks(marks) + recs[..split]
    ensures |fates| == split && forall i :: 0 <= i < split ==> Handled(recs[i], fates[i], w.known)
    ensures w.started == Winners(marks) + WonJobs(recs, fates, split)
    ensures split < |recs| ==>
              && |w.rewinds| == |rewinds| + 1
              && var target := w.rewinds[|rewinds|];
                 && (forall r <- recs[..split] :: r.source in target ==> r.offset < target[r.source])
                 && (forall r <- recs[split..] :: r.source in target && target[r.source] <= r.offset)
                 && (forall p <- target :: exists r <- recs[split..] :: r.source == p && r.offset == target[p])
    ensures split == |recs| ==> w.rewinds == rewinds
  {
    fates := FatesOf(marks, w.marked, recs, split, w.known);
    SplitIsSafe(recs, split);
    LeastOffsetsAreLeast(recs[split..]);
  }

  /** The batch is marked up to start, and the chunk holds the records from there to i. */
  ghost predicate Ready(u: Resources, w: Seen, recs: seq<Record>, i: nat, start: nat, chunk: seq<Item>, marks: Trail) {
    && start + |chunk| == i <= |recs| && Carries(chunk, recs, start) && Extends(marks, w.marked, recs, start)
    && WellFormed(chunk, 0, {}, w.known.settled) && StillHeld(u, chunk, 0, {}) && Sound(u, w)
  }

  /** Record i joins the chunk, once its key and slot, if it needs them, are taken. */
  lemma ReadyNext(u: Resources, w: Seen, recs: seq<Record>, i: nat, start: nat, chunk: seq<Item>, marks: Trail,
                  kind: Kind, u': Resources)
    requires i < |recs| && Ready(u, w, recs, i, start, chunk, marks)
    requires Sound(u', w) && (kind.Malformed? <==> recs[i].job == "")
    requires kind.Duplicate? ==> recs[i].job in w.known.settled || recs[i].job in Keys(chunk, 0, {})
    requires var (job, keys, slots) := (recs[i].job, Keys(chunk, 0, {}), Slots(chunk, 0));
             if kind.Claim? then job !in keys && Holding(u', keys + {job}, slots + 1)
             else Holding(u', keys, slots)
    ensures Ready(u', w, recs, i + 1, start, chunk + [Item(recs[i], kind)], marks)
  {
    var it := Item(recs[i], kind);
    KeysAppended(chunk, 0, it, {});
    DistinctAppended(chunk, 0, it, {});
    BackedAppended(chunk, 0, it, w.known.settled);
  }

  /** The first record of a new chunk. */
  lemma FirstReady(u: Resources, w: Seen, recs: seq<Record>, i: nat, marks: Trail)
    requires i < |recs| && recs[i].job != "" && Extends(marks, w.marked, recs, i)
    requires Holding(u, {recs[i].job}, 1) && Sound(u, w)
    ensures Ready(u, w, recs, i + 1, i, [Item(recs[i], Claim)], marks)
  {
    var chunk := [Item(recs[i], Claim)];
    assert Keys(chunk, 1, {}) == {} && Keys(chunk, 0, {}) == {recs[i].job};
    assert Slots(chunk, 1) == 0 && Slots(chunk, 0) == 1;
    assert Distinct(chunk, 1, {}) && Backed(chunk, 1, With(w.known.settled, chunk[0]));
  }

  /** A key that no pending claim has can be held beside the chunk. */
  lemma {:induction false} WithOther(chunk: seq<Item>, i: nat, job: string)
    requires Distinct(chunk, i, {}) && job !in Keys(chunk, i, {})
    ensures Keys(chunk, i, {job}) == Keys(chunk, i, {}) + {job} && Distinct(chunk, i, {job})
    decreases |chunk| - i
  {
    if i < |chunk| { WithOther(chunk, i + 1, job); }
  }

  /** The batch is marked up to start and then through the first i items of the chunk; the rest is
      well formed and its resources are held. */
  ghost predicate Applied(u: Resources, w: Seen, chunk: seq<Item>, i: nat, others: set<string>,
                          recs: seq<Record>, start: nat, marks: Trail) {
    && i <= |chunk| && WellFormed(chunk, i, others, w.known.settled) && StillHeld(u, chunk, i, others) && Sound(u, w)
    && Carries(chunk, recs, start) && Extends(marks, w.marked, recs, start + i)
  }

  /** One executor, driven by one poll goroutine. */
  class Executor {
    const capacity: nat
    var accepting: bool
    var cancelled: bool // the poll context has ended
    var use: Resources
    ghost var seen: Seen

    // Claims of unknown outcome, failed routings and cancelled waits so far.
    ghost var faults: nat

    ghost predicate Valid()
      reads this
    {
      Holding(use, {}, 0) && Sound(use, seen) && use.occupancy <= capacity
    }

    constructor (window: nat)
      ensures Valid() && capacity == window && accepting
      ensures use.inFlight == {} && seen.marked == Nothing && seen.started == [] && seen.rewinds == []
    {
      capacity := window;
      accepting, cancelled := true, false;
      use := Resources({}, {}, 0, 0);
      seen := Seen(Known({}, {}, {}), Nothing, [], []);
      faults := 0;
    }

    // ----- other goroutines -----

    /** A perform ends: it gives up its key... */
    method DropKey(job: string, ghost keys: set<string>, ghost slots: nat)
      requires Holding(use, keys, slots) && job in use.performing
      modifies this`use
      ensures Holding(use, keys, slots) && use.performing == old(use).performing - {job}
              && use.occupancy == old(use).occupancy
    {
      use := use.(inFlight := use.inFlight - {job}, performing := use.performing - {job}, draining := use.draining + 1);
    }

    /** ...and then its slot. */
    method DropSlot(ghost keys: set<string>, ghost slots: nat)
      requires Holding(use, keys, slots) && use.draining > 0
      modifies this`use
      ensures Holding(use, keys, slots) && use.performing == old(use).performing
              && use.occupancy == old(use).occupancy - 1
    {
      assert use.occupancy > 0;
      use := use.(draining := use.draining - 1, occupancy := use.occupancy - 1);
    }

    /** Other goroutines run for a while: performs end, the context may end, and shutdown may begin. */
    method OthersRun(ghost keys: set<string>, ghost slots: nat)
      requires Holding(use, keys, slots) && Sound(use, seen)
      modifies this`accepting, this`cancelled, this`use
      ensures Holding(use, keys, slots) && Sound(use, seen) && use.occupancy <= old(use).occupancy
    {
      var steps: int := *;
      for n := 0 to if steps < 0 then 0 else steps
        invariant Holding(use, keys, slots) && use.performing <= old(use).performing
                  && use.occupancy <= old(use).occupancy
      {
        var job: string, freed: bool, stopping: bool, ending: bool := *, *, *, *;
        if job in use.performing { DropKey(job, keys, slots); }
        if freed && use.draining > 0 { DropSlot(keys, slots); }
        if stopping { accepting := false; }
        if ending { cancelled := true; }
      }
    }

    // ----- single effects of the poll goroutine -----

    method Release(job: string, ghost keys: set<string>, ghost slots: nat)
      requires Holding(use, keys, slots) && job in keys && slots > 0
      modifies this`use
      ensures Holding(use, keys - {job}, slots - 1) && use.performing == old(use).performing
      ensures use.occupancy < old(use).occupancy
    {
      assert use.occupancy > 0;
      use := use.(inFlight := use.inFlight - {job}, occupancy := use.occupancy - 1);
    }

    /** One pipelined round trip: each claim is won, lost or of unknown outcome. */
    method ClaimMany(jobs: seq<string>) returns (verdicts: seq<Verdict>)
      modifies this`seen, this`faults
      ensures seen == old(seen).(known := seen.known) && Grows(old(seen).known, seen.known)
      ensures Reflects(jobs, verdicts, seen.known)
      ensures faults >= old(faults) && (Failed in verdicts ==> faults > old(faults))
    {
      verdicts := [];
      for n := 0 to |jobs|
        invariant seen == old(seen).(known := seen.known) && Grows(old(seen).known, seen.known)
        invariant Reflects(jobs[..n], verdicts, seen.known)
        invariant faults >= old(faults) && (Failed in verdicts ==> faults > old(faults))
      {
        var verdict: Verdict := *;
        if verdict != Failed {
          var known := seen.known;
          seen := seen.(known := known.(settled := known.settled + {jobs[n]},
                                        answers := known.answers + {Answer(jobs[n], verdict)}));
        } else {
          faults := faults + 1;
        }
        verdicts := verdicts + [verdict];
      }
      assert jobs[..|jobs|] == jobs;
    }

    method Mark(r: Record, ghost fate: Fate)
      requires AllHandled(seen.marked, seen.known) && Handled(r, fate, seen.known)
      modifies this`seen
      ensures seen == old(seen).(marked := Later(old(seen).marked, r, fate))
      ensures AllHandled(seen.marked, seen.known)
    {
      seen := seen.(marked := Later(seen.marked, r, fate));
    }

    /** A malformed record is routed and marked, or neither. */
    method ProcessMissingJobID(r: Record) returns (ok: bool)
      requires AllHandled(seen.marked, seen.known) && r.job == ""
      modifies this`seen, this`faults
      ensures AllHandled(seen.marked, seen.known)
      ensures seen == if ok then
                        old(seen).(known := old(seen).known.(routed := old(seen).known.routed + {r}),
                                   marked := Later(old(seen).marked, r, RoutedOut))
                      else old(seen)
      ensures faults >= old(faults) && (!ok ==> faults > old(faults))
    {
      ok := *;
      if ok {
        ghost var known := seen.known.(routed := seen.known.routed + {r});
        StillHandled(seen.marked, seen.known, known);
        seen := seen.(known := known);
        Mark(r, RoutedOut);
      } else {
        faults := faults + 1;
      }
    }

    /** Start a perform: it takes over the key and the slot. */
    method Perform(job: string, ghost keys: set<string>, ghost slots: nat)
      requires Holding(use, keys, slots) && job in keys && slots > 0
      modifies this`use, this`seen
      ensures Holding(use, keys - {job}, slots - 1) && use.performing == old(use).performing + {job}
      ensures use.occupancy == old(use).occupancy && seen == old(seen).(started := old(seen).started + [job])
    {
      use := use.(performing := use.performing + {job});
      seen := seen.(started := seen.started + [job]);
    }

    // ----- flushing a chunk -----

    /** A known verdict on a claim: mark, and start the perform of a won one or let go of a lost one. */
    method FinishClaim(r: Record, won: bool, ghost keys: set<string>, ghost slots: nat)
      requires Holding(use, keys, slots) && Sound(use, seen) && r.job in keys && slots > 0
      requires Handled(r, Answered(if won then Won else Lost), seen.known)
      modifies this`use, this`seen
      ensures Holding(use, keys - {r.job}, slots - 1) && Sound(use, seen) && use.occupancy <= old(use).occupancy
      ensures use.performing == old(use).performing + if won then {r.job} else {}
      ensures seen == old(seen).(marked := Later(old(seen).marked, r, Answered(if won then Won else Lost)),
                                 started := old(seen).started + if won then [r.job] else [])
    {
      Mark(r, Answered(if won then Won else Lost));
      if won {
        Perform(r.job, keys, slots);
      } else {
        Release(r.job, keys, slots);
        assert seen.started + [] == seen.started;
      }
    }

    /** Apply one item. Either way a claim's resources leave the poll goroutine; the record is marked exactly
        when its outcome is known, and its job is started exactly when its claim was won. */
    method ApplyItem(it: Item, verdict: Verdict, ghost keys: set<string>, ghost slots: nat) returns (ok: bool)
      requires Holding(use, keys, slots) && Sound(use, seen)
      requires it.kind.Malformed? <==> it.rec.job == ""
      requires it.kind.Duplicate? ==> it.rec.job in seen.known.settled
      requires it.kind.Claim? && verdict != Failed ==> Handled(it.rec, Answered(verdict), seen.known)
      requires it.kind.Claim? ==> it.rec.job in keys && slots > 0
      modifies this`use, this`seen, this`faults
      ensures if it.kind.Claim? then Holding(use, keys - {it.rec.job}, slots - 1) else Holding(use, keys, slots)
      ensures Sound(use, seen) && use.occupancy <= old(use).occupancy
      ensures use.performing == old(use).performing + if it.kind.Claim? && verdict == Won then {it.rec.job} else {}
      ensures seen.started == old(seen).started + if it.kind.Claim? && verdict == Won then [it.rec.job] else []
      ensures seen.marked == if ok then Later(old(seen).marked, it.rec, FateOf(it.kind, verdict)) else old(seen).marked
      ensures Grows(old(seen).known, seen.known) && seen.known.settled == old(seen).known.settled
              && seen.known.answers == old(seen).known.answers && seen.rewinds == old(seen).rewinds
      ensures it.kind.Claim? ==> ok == (verdict != Failed)
      ensures it.kind.Duplicate? ==> ok
      ensures faults >= old(faults) && (!ok ==> faults > old(faults) || (it.kind.Claim? && verdict == Failed))
    {
      match it.kind {
        case Malformed =>
          ok := ProcessMissingJobID(it.rec);
        case Duplicate =>
          Mark(it.rec, InFlight);
          ok := true;
        case Claim =>
          if verdict == Failed {
            Release(it.rec.job, keys, slots);
            ok := false;
          } else {
            FinishClaim(it.rec, verdict == Won, keys, slots);
            ok := true;
          }
      }
    }

    /** Other goroutines run; then item i is applied. */
    method ApplyNext(chunk: seq<Item>, i: nat, verdict: Verdict, ghost others: set<string>,
                     ghost recs: seq<Record>, ghost start: nat, ghost marks: Trail, ghost before: nat)
      returns (ok: bool)
      requires i < |chunk| && Applied(use, seen, chunk, i, others, recs, start, marks)
      requires chunk[i].kind.Claim? && verdict != Failed ==>
                 chunk[i].rec.job in seen.known.settled && Answer(chunk[i].rec.job, verdict) in seen.known.answers
      requires faults >= before && (chunk[i].kind.Claim? && verdict == Failed ==> faults > before)
      modifies this`accepting, this`cancelled, this`use, this`seen, this`faults
      ensures if ok then Applied(use, seen, chunk, i + 1, others, recs, start, marks)
              else StillHeld(use, chunk, i + 1, others) && Sound(use, seen)
                   && Extends(marks, seen.marked, recs, start + i)
      ensures seen.known.settled == old(seen).known.settled && seen.known.answers == old(seen).known.answers
      ensures seen.rewinds == old(seen).rewinds && use.occupancy <= old(use).occupancy
      ensures faults >= before && (!ok ==> faults > before) && (old(faults) > before ==> faults > before)
    {
      ghost var keys, slots := Keys(chunk, i, others), Slots(chunk, i);
      OthersRun(keys, slots);
      Popped(chunk, i, others);
      ok := ApplyItem(chunk[i], verdict, keys, slots);
      if ok { RestWellFormed(chunk, i, others, seen.known.settled); }
    }

    /** Apply a chunk's effects in record order, given what Redis answered. */
    method ApplyChunk(chunk: seq<Item>, verdicts: seq<Verdict>, ghost others: set<string>,
                      ghost recs: seq<Record>, ghost start: nat, ghost marks: Trail, ghost before: nat)
      returns (stop: nat, ok: bool)
      requires Applied(use, seen, chunk, 0, others, recs, start, marks)
      requires Reflects(Claims(chunk, |chunk|), verdicts, seen.known)
      requires faults >= before && (Failed in verdicts ==> faults > before)
      modifies this`accepting, this`cancelled, this`use, this`seen, this`faults
      ensures stop <= |chunk| && ok == (stop == |chunk|) && StillHeld(use, chunk, stop + 1, others) && Sound(use, seen)
      ensures use.occupancy <= old(use).occupancy
      ensures seen.rewinds == old(seen).rewinds && Extends(marks, seen.marked, recs, start + stop)
      ensures faults >= before && (!ok ==> faults > before)
    {
      var ri := 0;
      for i := 0 to |chunk|
        invariant Applied(use, seen, chunk, i, others, recs, start, marks)
        invariant ri == |Claims(chunk, i)| && use.occupancy <= old(use).occupancy
        invariant seen.known.settled == old(seen).known.settled && seen.known.answers == old(seen).known.answers
        invariant seen.rewinds == old(seen).rewinds
        invariant faults >= before && (Failed in verdicts ==> faults > before)
      {
        var verdict := Won;
        if chunk[i].kind.Claim? {
          VerdictKnown(chunk, verdicts, i, seen.known);
          verdict := verdicts[ri];
          ri := ri + 1;
        }
        ok := ApplyNext(chunk, i, verdict, others, recs, start, marks, before);
        if !ok { return i, false; }
      }
      PastEnd(use, chunk, others);
      ok := true;
      stop := |chunk|;
    }

    /** Claim a chunk's jobs in one round trip, then apply it in record order. On failure the failing
        item's resources are released, those after it are still held, and exactly the items before
        it are marked. */
    method FlushDispatchChunk(chunk: seq<Item>, ghost others: set<string>,
                              ghost recs: seq<Record>, ghost start: nat, ghost marks: Trail)
      returns (stop: nat, ok: bool)
      requires |chunk| <= MaxClaimPipeline
      requires WellFormed(chunk, 0, others, seen.known.settled) && StillHeld(use, chunk, 0, others) && Sound(use, seen)
      requires Carries(chunk, recs, start) && Extends(marks, seen.marked, recs, start)
      modifies this`accepting, this`cancelled, this`use, this`seen, this`faults
      ensures stop <= |chunk| && ok == (stop == |chunk|) && StillHeld(use, chunk, stop + 1, others) && Sound(use, seen)
      ensures use.occupancy <= old(use).occupancy
      ensures seen.rewinds == old(seen).rewinds && Extends(marks, seen.marked, recs, start + stop)
      ensures faults >= old(faults) && (!ok ==> faults > old(faults))
    {
      var verdicts := ClaimMany(Claims(chunk, |chunk|));
      BackedMore(chunk, 0, old(seen).known.settled, seen.known.settled);
      StillHandled(seen.marked, old(seen).known, seen.known);
      stop, ok := ApplyChunk(chunk, verdicts, others, recs, start, marks, old(faults));
    }

    // ----- the dispatch loop -----

    method ReleaseChunkClaims(chunk: seq<Item>, from: nat, ghost others: set<string>)
      requires from <= |chunk| && Distinct(chunk, 0, others) && StillHeld(use, chunk, from, others)
      modifies this`use
      ensures Holding(use, others, 0) && use.performing == old(use).performing && use.occupancy <= old(use).occupancy
    {
      DistinctFrom(chunk, from, others);
      for i := from to |chunk|
        invariant Distinct(chunk, i, others) && StillHeld(use, chunk, i, others)
        invariant use.performing == old(use).performing && use.occupancy <= old(use).occupancy
      {
        Popped(chunk, i, others);
        if chunk[i].kind.Claim? {
          Release(chunk[i].rec.job, Keys(chunk, i, others), Slots(chunk, i));
        }
      }
    }

    method RewindUndispatched(tail: seq<Record>)
      modifies this`seen
      ensures seen == old(seen).(rewinds := old(seen).rewinds + Rewinding(tail))
    {
      if tail != [] {
        var least := UndispatchedRewindOffsets(tail);
        seen := seen.(rewinds := seen.rewinds + [least]);
      } else {
        assert seen.rewinds + [] == seen.rewinds;
      }
    }

    /** Let go of the chunk's claims from an index on, and rewind the batch from split. */
    method GiveUp(recs: seq<Record>, split: nat, chunk: seq<Item>, from: nat, ghost others: set<string>,
                  ghost marks: Trail)
      requires split <= |recs| && Sound(use, seen) && Extends(marks, seen.marked, recs, split)
      requires from <= |chunk| && Distinct(chunk, 0, others) && StillHeld(use, chunk, from, others)
      modifies this`use, this`seen
      ensures Holding(use, others, 0) && Sound(use, seen) && use.occupancy <= old(use).occupancy
      ensures Ended(seen, recs, split, marks, old(seen).rewinds)
    {
      ReleaseChunkClaims(chunk, from, others);
      RewindUndispatched(recs[split..]);
    }

    /** Flush the pending chunk; on failure let go of its tail and rewind. */
    method Flush(recs: seq<Record>, start: nat, chunk: seq<Item>, ghost others: set<string>, ghost marks: Trail)
      returns (ok: bool, ghost split: nat)
      requires |chunk| <= MaxClaimPipeline
      requires WellFormed(chunk, 0, others, seen.known.settled) && StillHeld(use, chunk, 0, others) && Sound(use, seen)
      requires Carries(chunk, recs, start) && Extends(marks, seen.marked, recs, start)
      modifies this`accepting, this`cancelled, this`use, this`seen, this`faults
      ensures Holding(use, others, 0) && Sound(use, seen) && use.occupancy <= old(use).occupancy
      ensures ok ==> seen.rewinds == old(seen).rewinds && Extends(marks, seen.marked, recs, start + |chunk|)
      ensures !ok ==> Ended(seen, recs, split, marks, old(seen).rewinds)
      ensures faults >= old(faults) && (!ok ==> faults > old(faults))
    {
      var stop;
      stop, ok := FlushDispatchChunk(chunk, others, recs, start, marks);
      split := start + stop;
      if !ok {
        GiveUp(recs, start + stop, chunk, stop + 1, others, marks);
      }
    }

    /** Put the key in flight unless it is there already. */
    method LoadOrStore(job: string, ghost keys: set<string>, ghost slots: nat) returns (loaded: bool)
      requires Holding(use, keys, slots)
      modifies this`use
      ensures use == old(use).(inFlight := use.inFlight)
      ensures if loaded then Holding(use, keys, slots) && (job in use.performing || job in keys)
              else Holding(use, keys + {job}, slots) && job !in keys
    {
      loaded := job in use.inFlight;
      if !loaded { use := use.(inFlight := use.inFlight + {job}); }
    }

    method DropOwnKey(job: string)
      requires Holding(use, {job}, 0)
      modifies this`use
      ensures Holding(use, {}, 0) && use.performing == old(use).performing && use.occupancy == old(use).occupancy
    {
      use := use.(inFlight := use.inFlight - {job});
    }

    /** Take a window slot if one is free. */
    method TryAcquire(ghost keys: set<string>, ghost slots: nat) returns (got: bool)
      requires Holding(use, keys, slots) && use.occupancy <= capacity
      modifies this`use
      ensures use.occupancy <= capacity && use == old(use).(occupancy := use.occupancy)
      ensures Holding(use, keys, if got then slots + 1 else slots)
      ensures got <==> old(use).occupancy < capacity
    {
      got := use.occupancy < capacity;
      if got { use := use.(occupancy := use.occupancy + 1); }
    }

    /** Wait for a slot or for the context to end: without a slot the context has ended, or the window was
        full all along. The rest of the batch is then rewound. */
    method AwaitSlot(recs: seq<Record>, i: nat, ghost marks: Trail) returns (got: bool)
      requires i < |recs| && Holding(use, {recs[i].job}, 0) && Sound(use, seen) && use.occupancy <= capacity
      requires Extends(marks, seen.marked, recs, i)
      modifies this`accepting, this`cancelled, this`use, this`seen, this`faults
      ensures Sound(use, seen) && use.occupancy <= capacity
      ensures got ==> Holding(use, {recs[i].job}, 1) && seen == old(seen) && faults == old(faults)
      ensures !got ==>
                Holding(use, {}, 0) && Ended(seen, recs, i, marks, old(seen).rewinds) && faults == old(faults) + 1
      ensures !got ==> cancelled || use.occupancy == capacity
    {
      var job := recs[i].job;
      OthersRun({job}, 0);
      var first: bool := *; // which of two ready cases the select takes
      if cancelled && first {
        got := false;
      } else {
        got := TryAcquire({job}, 0);
      }
      if !got {
        DropOwnKey(job);
        faults := faults + 1;
        RewindUndispatched(recs[i..]);
      }
    }

    /** The window is full: flush the pending chunk so that held slots make progress, then wait. */
    method FlushThenAcquire(recs: seq<Record>, i: nat, start: nat, chunk: seq<Item>, ghost marks: Trail)
      returns (got: bool, ghost split: nat)
      requires i < |recs| && start + |chunk| == i && |chunk| <= MaxClaimPipeline && Carries(chunk, recs, start)
      requires WellFormed(chunk, 0, {recs[i].job}, seen.known.settled) && StillHeld(use, chunk, 0, {recs[i].job})
      requires Sound(use, seen) && Extends(marks, seen.marked, recs, start) && use.occupancy <= capacity
      modifies this`accepting, this`cancelled, this`use, this`seen, this`faults
      ensures Sound(use, seen) && use.occupancy <= capacity
      ensures got ==> Holding(use, {recs[i].job}, 1)
      ensures got ==> seen.rewinds == old(seen).rewinds && Extends(marks, seen.marked, recs, i)
      ensures !got ==> Holding(use, {}, 0) && Ended(seen, recs, split, marks, old(seen).rewinds)
      ensures faults >= old(faults) && (!got ==> faults > old(faults))
    {
      got, split := Flush(recs, start, chunk, {recs[i].job}, marks);
      if got {
        got := AwaitSlot(recs, i, marks);
        split := i;
      } else {
        DropOwnKey(recs[i].job);
      }
    }

    /** Record i is a claim and its key is in flight: it also needs a slot. If none is free, the chunk is
        flushed first; u is what was held before the key was taken. */
    method AdmitClaim(recs: seq<Record>, i: nat, start: nat, chunk: seq<Item>, ghost marks: Trail, ghost u: Resources)
      returns (start': nat, chunk': seq<Item>, stopped: bool, ghost split: nat)
      requires i < |recs| && recs[i].job != "" && |chunk| < MaxClaimPipeline
      requires Ready(u, seen, recs, i, start, chunk, marks) && recs[i].job !in Keys(chunk, 0, {})
      requires Holding(use, Keys(chunk, 0, {}) + {recs[i].job}, Slots(chunk, 0)) && Sound(use, seen)
      requires use.occupancy <= capacity
      modifies this`accepting, this`cancelled, this`use, this`seen, this`faults
      ensures use.occupancy <= capacity && Sound(use, seen)
      ensures !stopped ==> |chunk'| <= MaxClaimPipeline && Ready(use, seen, recs, i + 1, start', chunk', marks)
      ensures !stopped ==> seen.rewinds == old(seen).rewinds
      ensures stopped ==> Holding(use, {}, 0) && Ended(seen, recs, split, marks, old(seen).rewinds)
      ensures faults >= old(faults) && (stopped ==> faults > old(faults))
    {
      ghost var keys, slots := Keys(chunk, 0, {}) + {recs[i].job}, Slots(chunk, 0);
      start', chunk', stopped, split := start, chunk, false, 0;
      OthersRun(keys, slots);
      var got := TryAcquire(keys, slots);
      if got {
        ReadyNext(u, seen, recs, i, start, chunk, marks, Claim, use);
        chunk' := chunk + [Item(recs[i], Claim)];
        return;
      }
      WithOther(chunk, 0, recs[i].job);
      got, split := FlushThenAcquire(recs, i, start, chunk, marks);
      if got {
        start', chunk' := i, [Item(recs[i], Claim)];
        FirstReady(use, seen, recs, i, marks);
      } else {
        stopped := true;
      }
    }

    /** Classify record i and take its resources; this may flush the chunk, or end the batch. */
    method Admit(recs: seq<Record>, i: nat, start: nat, chunk: seq<Item>, ghost marks: Trail)
      returns (start': nat, chunk': seq<Item>, stopped: bool, ghost split: nat)
      requires i < |recs| && |chunk| < MaxClaimPipeline && Ready(use, seen, recs, i, start, chunk, marks)
               && use.occupancy <= capacity
      modifies this`accepting, this`cancelled, this`use, this`seen, this`faults
      ensures use.occupancy <= capacity && Sound(use, seen)
      ensures !stopped ==> |chunk'| <= MaxClaimPipeline && Ready(use, seen, recs, i + 1, start', chunk', marks)
      ensures !stopped ==> seen.rewinds == old(seen).rewinds
      ensures stopped ==> Holding(use, {}, 0) && Ended(seen, recs, split, marks, old(seen).rewinds)
      ensures faults >= old(faults) && (stopped ==> faults > old(faults))
    {
      var job := recs[i].job;
      ghost var keys, slots := Keys(chunk, 0, {}), Slots(chunk, 0);
      start', chunk', stopped, split := start, chunk, false, 0;
      if job == "" {
        ReadyNext(use, seen, recs, i, start, chunk, marks, Malformed, use);
        chunk' := chunk + [Item(recs[i], Malformed)];
        return;
      }
      var loaded := LoadOrStore(job, keys, slots);
      if loaded {
        ReadyNext(old(use), seen, recs, i, start, chunk, marks, Duplicate, use);
        chunk' := chunk + [Item(recs[i], Duplicate)];
        return;
      }
      start', chunk', stopped, split := AdmitClaim(recs, i, start, chunk, marks, old(use));
    }

    /** Flush whatever is pending; the chunk is then empty, or the batch is over. */
    method FlushPending(recs: seq<Record>, i: nat, start: nat, chunk: seq<Item>, ghost marks: Trail)
      returns (ok: bool, ghost split: nat)
      requires |chunk| <= MaxClaimPipeline && Ready(use, seen, recs, i, start, chunk, marks)
               && use.occupancy <= capacity
      modifies this`accepting, this`cancelled, this`use, this`seen, this`faults
      ensures use.occupancy <= capacity
      ensures ok ==> Ready(use, seen, recs, i, i, [], marks) && seen.rewinds == old(seen).rewinds
      ensures !ok ==> Holding(use, {}, 0) && Sound(use, seen) && Ended(seen, recs, split, marks, old(seen).rewinds)
      ensures faults >= old(faults) && (!ok ==> faults > old(faults))
    {
      ok, split := Flush(recs, start, chunk, {}, marks);
    }

    /** Admit record i, and flush a chunk that has become full. */
    method AdmitAndFlush(recs: seq<Record>, i: nat, start: nat, chunk: seq<Item>, ghost marks: Trail)
      returns (start': nat, chunk': seq<Item>, stopped: bool, ghost split: nat)
      requires i < |recs| && |chunk| < MaxClaimPipeline && Ready(use, seen, recs, i, start, chunk, marks)
               && use.occupancy <= capacity
      modifies this`accepting, this`cancelled, this`use, this`seen, this`faults
      ensures use.occupancy <= capacity
      ensures !stopped ==> |chunk'| < MaxClaimPipeline && Ready(use, seen, recs, i + 1, start', chunk', marks)
      ensures !stopped ==> seen.rewinds == old(seen).rewinds
      ensures stopped ==> Holding(use, {}, 0) && Sound(use, seen) && Ended(seen, recs, split, marks, old(seen).rewinds)
      ensures faults >= old(faults) && (stopped ==> faults > old(faults))
    {
      start', chunk', stopped, split := Admit(recs, i, start, chunk, marks);
      if !stopped && |chunk'| >= MaxClaimPipeline {
        var ok;
        ok, split := FlushPending(recs, i + 1, start', chunk', marks);
        start', chunk', stopped := i + 1, [], !ok;
      }
    }

    /** One turn of the loop: stop if no longer accepting, else admit record i and flush a full chunk. */
    method Turn(recs: seq<Record>, i: nat, start: nat, chunk: seq<Item>, ghost marks: Trail)
      returns (start': nat, chunk': seq<Item>, stopped: bool, ghost split: nat)
      requires i < |recs| && |chunk| < MaxClaimPipeline && Ready(use, seen, recs, i, start, chunk, marks)
               && use.occupancy <= capacity
      modifies this`accepting, this`cancelled, this`use, this`seen, this`faults
      ensures use.occupancy <= capacity
      ensures !stopped ==> |chunk'| < MaxClaimPipeline && Ready(use, seen, recs, i + 1, start', chunk', marks)
      ensures !stopped ==> seen.rewinds == old(seen).rewinds
      ensures stopped ==> Holding(use, {}, 0) && Sound(use, seen) && Ended(seen, recs, split, marks, old(seen).rewinds)
      ensures faults >= old(faults) && (stopped ==> !accepting || faults > old(faults))
    {
      OthersRun(Keys(chunk, 0, {}), Slots(chunk, 0));
      if !accepting {
        GiveUp(recs, start, chunk, 0, {}, marks);
        return start, chunk, true, start;
      }
      start', chunk', stopped, split := AdmitAndFlush(recs, i, start, chunk, marks);
    }

    /**
     Dispatch one poll batch. Refused at entry, nothing happens. Otherwise the batch splits: the
     records before the split are marked in order, and the rest are rewound to the lowest offset
     of each partition. The split falls short of the batch only if the executor stopped accepting,
     a claim's outcome is unknown, a malformed record could not be routed, or the wait for a slot was
     cancelled. Afterwards the poll goroutine holds no key and no slot.
     */
    method DispatchClaimsAndAcks(recs: seq<Record>) returns (ghost split: nat)
      requires Valid()
      modifies this`accepting, this`cancelled, this`use, this`seen, this`faults
      ensures Valid()
      ensures !old(accepting) ==> use == old(use) && seen == old(seen) && !accepting
      ensures old(accepting) ==> Ended(seen, recs, split, old(seen).marked, old(seen).rewinds)
      ensures old(accepting) && accepting && faults == old(faults) ==> split == |recs|
    {
      split := 0;
      if !accepting { return; }
      var start: nat, chunk: seq<Item>, i: nat := 0, [], 0;
      ghost var marks := seen.marked;
      while i < |recs|
        invariant |chunk| < MaxClaimPipeline && Ready(use, seen, recs, i, start, chunk, marks)
        invariant seen.rewinds == old(seen).rewinds && use.occupancy <= capacity && faults >= old(faults)
      {
        var stopped;
        start, chunk, stopped, split := Turn(recs, i, start, chunk, marks);
        if stopped { return; }
        i := i + 1;
      }
      var ok;
      ok, split := FlushPending(recs, i, start, chunk, marks);
      if ok {
        split := |recs|;
        assert recs[split..] == [];
      }
    }
  }
}
