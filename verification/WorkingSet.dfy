/**
 Fenced ownership of in-flight jobs: job entries with a lease, the per-consumer sets, the index
 and the heartbeat keys. Lease and heartbeat expiry are steps of their own.
 */
module WorkingSet {

  type JobId = string
  type Consumer = string
  type Fence = string

  datatype Entry = Entry(owner: Consumer, fence: Fence, claimedAt: int, deadline: int)

  datatype Store = Store(
    entries: map<JobId, Entry>,
    byConsumer: map<Consumer, set<JobId>>,
    index: map<JobId, int>,
    alive: set<Consumer>)

  function Jobs(s: Store, c: Consumer): set<JobId> { if c in s.byConsumer then s.byConsumer[c] else {} }

  function Unlist(sets: map<Consumer, set<JobId>>, c: Consumer, j: JobId): map<Consumer, set<JobId>> {
    if c in sets then sets[c := sets[c] - {j}] else sets
  }

  function List(sets: map<Consumer, set<JobId>>, c: Consumer, j: JobId): map<Consumer, set<JobId>> {
    sets[c := (if c in sets then sets[c] else {}) + {j}]
  }

  datatype ClaimReply = Lost | Won | Resumed

  /** Whether the entry's owner keeps it: alive, or dead for less than the grace. */
  predicate Protected(s: Store, e: Entry, now: int, grace: int) {
    e.owner in s.alive || (grace > 0 && e.claimedAt > 0 && now - e.claimedAt < grace)
  }

  function Claim(s: Store, j: JobId, c: Consumer, f: Fence, ttl: int, now: int, grace: int): (Store, ClaimReply) {
    var mine := Entry(c, f, now, now + ttl);
    var taken := s.(entries := s.entries[j := mine], byConsumer := List(s.byConsumer, c, j),
                    index := s.index[j := now], alive := s.alive + {c});
    if j !in s.entries then (taken, Won)
    else
      var e := s.entries[j];
      if e.owner == c then
        (s.(entries := s.entries[j := e.(deadline := now + ttl)], alive := s.alive + {c},
            index := s.index[j := e.claimedAt]), Resumed)
      else if e.owner == "" then (taken, Won)
      else if Protected(s, e, now, grace) then (s, Lost)
      else (taken.(byConsumer := List(Unlist(s.byConsumer, e.owner, j), c, j)), Won)
  }

  predicate Owns(s: Store, j: JobId, c: Consumer, f: Fence) {
    j in s.entries && s.entries[j].owner == c && s.entries[j].fence == f
  }

  function Renew(s: Store, j: JobId, c: Consumer, f: Fence, deadline: int): (Store, bool) {
    if Owns(s, j, c, f) then (s.(entries := s.entries[j := s.entries[j].(deadline := deadline)]), true)
    else (s, false)
  }

  function Remove(s: Store, j: JobId, c: Consumer): Store {
    s.(entries := s.entries - {j}, byConsumer := Unlist(s.byConsumer, c, j), index := s.index - {j})
  }

  function Complete(s: Store, j: JobId, c: Consumer, f: Fence): (Store, bool) {
    if j !in s.entries then (Remove(s, j, c), false)
    else if Owns(s, j, c, f) then (Remove(s, j, c), true)
    else (s, false)
  }

  function FinishReclaim(s: Store, j: JobId, c: Consumer, f: Fence): (Store, bool) {
    if j !in s.entries then (Remove(s, j, c), true)
    else if s.entries[j].fence != f then (s, false)
    else
      var owner := s.entries[j].owner;
      var sets := if owner != "" then Unlist(s.byConsumer, owner, j) else s.byConsumer;
      (Remove(s.(byConsumer := sets), j, c), true)
  }

  // ---------- the scripts, step by step ----------

  class Redis {
    var entries: map<JobId, Entry>
    var byConsumer: map<Consumer, set<JobId>>
    var index: map<JobId, int>
    var alive: set<Consumer>

    function State(): Store
      reads this
    {
      Store(entries, byConsumer, index, alive)
    }

    constructor ()
      ensures State() == Store(map[], map[], map[], {})
    {
      entries, byConsumer, index, alive := map[], map[], map[], {};
    }

    method ClaimJob(j: JobId, c: Consumer, f: Fence, ttl: int, now: int, grace: int) returns (r: ClaimReply)
      modifies this
      ensures (State(), r) == Claim(old(State()), j, c, f, ttl, now, grace)
    {
      if j in entries {
        var owner := entries[j].owner;
        if owner != "" && owner != c {
          if owner in alive { return Lost; }
          var claimedAt := entries[j].claimedAt;
          if grace > 0 && claimedAt > 0 && now - claimedAt < grace { return Lost; }
          if owner in byConsumer { byConsumer := byConsumer[owner := byConsumer[owner] - {j}]; }
        } else if owner == c {
          entries := entries[j := entries[j].(deadline := now + ttl)];
          alive := alive + {c};
          index := index[j := entries[j].claimedAt];
          return Resumed;
        }
      }
      entries := entries[j := Entry(c, f, now, now + ttl)];
      byConsumer := byConsumer[c := (if c in byConsumer then byConsumer[c] else {}) + {j}];
      index := index[j := now];
      alive := alive + {c};
      return Won;
    }

    method RenewJob(j: JobId, c: Consumer, f: Fence, deadline: int) returns (ok: bool)
      modifies this
      ensures (State(), ok) == Renew(old(State()), j, c, f, deadline)
    {
      if j !in entries { return false; }
      if entries[j].owner != c || entries[j].fence != f { return false; }
      entries := entries[j := entries[j].(deadline := deadline)];
      return true;
    }

    method CompleteJob(j: JobId, c: Consumer, f: Fence) returns (ok: bool)
      modifies this
      ensures (State(), ok) == Complete(old(State()), j, c, f)
    {
      if j in entries {
        if entries[j].owner != c || entries[j].fence != f { return false; }
        ok := true;
      } else {
        ok := false;
      }
      entries := entries - {j};
      byConsumer := Unlist(byConsumer, c, j);
      index := index - {j};
    }

    method FinishReclaimJob(j: JobId, c: Consumer, f: Fence) returns (ok: bool)
      modifies this
      ensures (State(), ok) == FinishReclaim(old(State()), j, c, f)
    {
      if j in entries {
        if entries[j].fence != f { return false; }
        var owner := entries[j].owner;
        if owner != "" { byConsumer := Unlist(byConsumer, owner, j); }
        entries := entries - {j};
      } else {
        assert entries - {j} == entries;
      }
      byConsumer := Unlist(byConsumer, c, j);
      index := index - {j};
      return true;
    }
  }

  // ---------- runs ----------

  datatype Step =
    | ClaimStep(j: JobId, c: Consumer, f: Fence, ttl: int, now: int, grace: int)
    | RenewStep(j: JobId, c: Consumer, f: Fence, deadline: int)
    | CompleteStep(j: JobId, c: Consumer, f: Fence)
    | FinishStep(j: JobId, c: Consumer, f: Fence)
    | LeaseExpires(j: JobId)
    | HeartbeatExpires(c: Consumer)
    | Heartbeat(c: Consumer)

  /** used remembers every fence ever drawn: fences are fresh. */
  datatype World = World(s: Store, used: set<Fence>)

  predicate Enabled(w: World, a: Step) { a.ClaimStep? ==> a.f !in w.used }

  function Next(w: World, a: Step): World {
    match a
    case ClaimStep(j, c, f, ttl, now, grace) => World(Claim(w.s, j, c, f, ttl, now, grace).0, w.used + {f})
    case RenewStep(j, c, f, deadline) => w.(s := Renew(w.s, j, c, f, deadline).0)
    case CompleteStep(j, c, f) => w.(s := Complete(w.s, j, c, f).0)
    case FinishStep(j, c, f) => w.(s := FinishReclaim(w.s, j, c, f).0)
    case LeaseExpires(j) => w.(s := w.s.(entries := w.s.entries - {j}))
    case HeartbeatExpires(c) => w.(s := w.s.(alive := w.s.alive - {c}))
    case Heartbeat(c) => w.(s := w.s.(alive := w.s.alive + {c}))
  }

  predicate Feasible(w: World, steps: seq<Step>)
    decreases |steps|
  {
    steps == [] || (Enabled(w, steps[0]) && Feasible(Next(w, steps[0]), steps[1..]))
  }

  function Run(w: World, steps: seq<Step>): World
    decreases |steps|
  {
    if steps == [] then w else Run(Next(w, steps[0]), steps[1..])
  }

  /** Every present entry is listed in its owner's set and in the index. */
  ghost predicate Listed(s: Store) {
    forall j :: j in s.entries ==> j in Jobs(s, s.entries[j].owner) && j in s.index
  }

  lemma ClaimListed(s: Store, j: JobId, c: Consumer, f: Fence, ttl: int, now: int, grace: int)
    requires Listed(s)
    ensures Listed(Claim(s, j, c, f, ttl, now, grace).0)
  {
    var s' := Claim(s, j, c, f, ttl, now, grace).0;
    forall k | k in s'.entries ensures k in Jobs(s', s'.entries[k].owner) && k in s'.index {
      if k in s.entries { assert k in Jobs(s, s.entries[k].owner); }
    }
  }

  lemma StepListed(w: World, a: Step)
    requires Listed(w.s)
    ensures Listed(Next(w, a).s)
  {
    if a.ClaimStep? {
      ClaimListed(w.s, a.j, a.c, a.f, a.ttl, a.now, a.grace);
    } else {
      var s, s' := w.s, Next(w, a).s;
      forall j | j in s'.entries ensures j in Jobs(s', s'.entries[j].owner) && j in s'.index {
        if j in s.entries { assert j in Jobs(s, s.entries[j].owner); }
      }
    }
  }

  lemma {:induction false} RunListed(w: World, steps: seq<Step>)
    requires Listed(w.s)
    ensures Listed(Run(w, steps).s)
    decreases |steps|
  {
    if steps != [] {
      StepListed(w, steps[0]);
      RunListed(Next(w, steps[0]), steps[1..]);
    }
  }

  // ---------- what the replies mean ----------

  /** Entry, index score and listings of every job but j are as before. */
  ghost predicate OthersKept(s: Store, s': Store, j: JobId) {
    && (forall k :: k != j ==>
          (k in s'.entries <==> k in s.entries) && (k in s.entries ==> s'.entries[k] == s.entries[k]))
    && (forall k :: k != j ==> (k in s'.index <==> k in s.index) && (k in s.index ==> s'.index[k] == s.index[k]))
    && (forall k, c :: k != j ==> (k in Jobs(s', c) <==> k in Jobs(s, c)))
  }

  /** The job's listings change for consumer c alone. */
  ghost predicate ListedElsewhereKept(s: Store, s': Store, j: JobId, c: Consumer) {
    forall d :: d != c ==> (j in Jobs(s', d) <==> j in Jobs(s, d))
  }

  /** No entry, no index score, and no listing under consumer c. */
  predicate Gone(s: Store, j: JobId, c: Consumer) { j !in s.entries && j !in s.index && j !in Jobs(s, c) }

  /** A completion answers true exactly to the owner under its fence. True, or on a missing entry, it
      leaves nothing of the job behind; otherwise it changes nothing. */
  lemma CompleteMeans(s: Store, j: JobId, c: Consumer, f: Fence)
    ensures var (s', done) := Complete(s, j, c, f);
            && (done <==> j in s.entries && s.entries[j].owner == c && s.entries[j].fence == f)
            && (done || j !in s.entries ==> Gone(s', j, c) && ListedElsewhereKept(s, s', j, c))
            && (!done && j in s.entries ==> s' == s)
            && OthersKept(s, s', j) && s'.alive == s.alive
  {
  }

  /** A reclaim answers false exactly when the entry carries another fence. Otherwise nothing of the
      job is left under the entry's owner or the given consumer. */
  lemma FinishReclaimMeans(s: Store, j: JobId, c: Consumer, f: Fence)
    ensures var (s', done) := FinishReclaim(s, j, c, f);
            && (done <==> (j in s.entries ==> s.entries[j].fence == f))
            && (done ==> Gone(s', j, c))
            && (done && j in s.entries && s.entries[j].owner != "" ==> Gone(s', j, s.entries[j].owner))
            && (!done ==> s' == s)
            && OthersKept(s, s', j) && s'.alive == s.alive
  {
  }

  /** A renewal answers true exactly to the owner under its fence, whose deadline is then the one
      asked for; nothing else changes. */
  lemma RenewMeans(s: Store, j: JobId, c: Consumer, f: Fence, deadline: int)
    ensures var (s', renewed) := Renew(s, j, c, f, deadline);
            && (renewed <==> j in s.entries && s.entries[j].owner == c && s.entries[j].fence == f)
            && (renewed ==> j in s'.entries && s'.entries[j] == Entry(c, f, s.entries[j].claimedAt, deadline))
            && (!renewed ==> s' == s)
            && OthersKept(s, s', j) && s'.index == s.index && s'.byConsumer == s.byConsumer && s'.alive == s.alive
  {
  }

  /** The entry is the caller's, and it is listed, indexed at that time and covered by a heartbeat. */
  predicate Taken(s: Store, j: JobId, e: Entry) {
    && j in s.entries && s.entries[j] == e && j in Jobs(s, e.owner) && e.owner in s.alive
    && j in s.index && s.index[j] == e.claimedAt
  }

  /** A claim is won exactly when the job has no entry, one without an owner, or one of another owner
      who neither lives nor is within the grace; resumed exactly when the caller owns it; lost
      otherwise. Won, the job is the caller's under the new fence and no longer its former owner's;
      resumed, it keeps fence and claim time and gets a new deadline; lost, nothing changes. */
  lemma ClaimMeans(s: Store, j: JobId, c: Consumer, f: Fence, ttl: int, now: int, grace: int)
    requires Listed(s)
    ensures var (s', r) := Claim(s, j, c, f, ttl, now, grace);
            && (r == Resumed <==> j in s.entries && s.entries[j].owner == c)
            && (r == Lost <==>
                  && j in s.entries && s.entries[j].owner != c && s.entries[j].owner != ""
                  && (|| s.entries[j].owner in s.alive
                      || (grace > 0 && s.entries[j].claimedAt > 0 && now < s.entries[j].claimedAt + grace)))
            && (r == Won ==> Taken(s', j, Entry(c, f, now, now + ttl)))
            && (r == Won && j in s.entries && s.entries[j].owner != "" ==> j !in Jobs(s', s.entries[j].owner))
            && (r == Resumed ==> Taken(s', j, s.entries[j].(deadline := now + ttl)))
            && (r == Lost ==> s' == s)
            && s.alive <= s'.alive <= s.alive + {c}
  {
    if j in s.entries { assert j in Jobs(s, s.entries[j].owner); }
  }

  /** Whatever the reply, a claim leaves every other job alone. */
  lemma ClaimKeepsOthers(s: Store, j: JobId, c: Consumer, f: Fence, ttl: int, now: int, grace: int)
    ensures OthersKept(s, Claim(s, j, c, f, ttl, now, grace).0, j)
  {
    var s' := Claim(s, j, c, f, ttl, now, grace).0;
    forall k, d | k != j ensures k in Jobs(s', d) <==> k in Jobs(s, d) {
      var sets := if j in s.entries then Unlist(s.byConsumer, s.entries[j].owner, j) else s.byConsumer;
      assert s'.byConsumer == s.byConsumer || s'.byConsumer == List(s.byConsumer, c, j)
             || s'.byConsumer == List(sets, c, j);
    }
  }

  lemma StepStaysGone(w: World, a: Step, j: JobId, c: Consumer)
    requires Gone(w.s, j, c) && !(a.ClaimStep? && a.j == j)
    ensures Gone(Next(w, a).s, j, c)
  {
  }

  /** A job that is gone stays gone over every run, until some claim of that job. */
  lemma {:induction false} StaysGone(w: World, steps: seq<Step>, j: JobId, c: Consumer)
    requires Gone(w.s, j, c) && forall a <- steps :: !(a.ClaimStep? && a.j == j)
    ensures Gone(Run(w, steps).s, j, c)
    decreases |steps|
  {
    if steps != [] {
      StepStaysGone(w, steps[0], j, c);
      StaysGone(Next(w, steps[0]), steps[1..], j, c);
    }
  }

  /** So a job completed under its fence leaves nothing for a reclaim to find, over every run until it
      is claimed anew. */
  lemma CompletedStaysGone(w: World, steps: seq<Step>, j: JobId, c: Consumer, f: Fence)
    requires Owns(w.s, j, c, f) && forall a <- steps :: !(a.ClaimStep? && a.j == j)
    ensures Gone(Run(Next(w, CompleteStep(j, c, f)), steps).s, j, c)
  {
    CompleteMeans(w.s, j, c, f);
    StaysGone(Next(w, CompleteStep(j, c, f)), steps, j, c);
  }


  /** A claim takes a job from another owner whose heartbeat key exists exactly when that owner's id
      is the empty string; from an owner with an id it also respects the grace. */
  lemma StealsLiveOwnerIffNameless(s: Store, j: JobId, c: Consumer, f: Fence, ttl: int, now: int, grace: int)
    requires j in s.entries && s.entries[j].owner != c && s.entries[j].fence != f
    ensures var e := s.entries[j];
            var s' := Claim(s, j, c, f, ttl, now, grace).0;
            && (e.owner in s.alive ==> (s'.entries[j] != e <==> e.owner == ""))
            && (e.owner != "" && Protected(s, e, now, grace) ==> s' == s)
            && (e.owner == "" || !Protected(s, e, now, grace) ==> Owns(s', j, c, f))
  {
  }

  const Fresh := World(Store(map[], map[], map[], {}), {})

  /** Such an owner is reachable: one claim under an empty consumer id leaves it with an entry and a
      heartbeat, and the next claim takes the job while that heartbeat stands. */
  lemma NamelessOwnerRobbed(j: JobId, c: Consumer, f: Fence, g: Fence, ttl: int, now: int, grace: int)
    returns (first: Step, second: Step)
    requires c != "" && f != g
    ensures Feasible(Fresh, [first, second])
    ensures var s := Next(Fresh, first).s; j in s.entries && s.entries[j].owner == "" && "" in s.alive
    ensures var s := Run(Fresh, [first, second]).s; Owns(s, j, c, g) && "" in s.alive
  {
    first, second := ClaimStep(j, "", f, ttl, now, grace), ClaimStep(j, c, g, ttl, now, grace);
    assert [first, second][1..] == [second] && [second][1..] == [];
    assert Run(Fresh, [first, second]) == Run(Next(Fresh, first), [second]);
    assert Run(Next(Fresh, first), [second]) == Run(Next(Next(Fresh, first), second), []);
  }

  ghost predicate FencesUsed(w: World) {
    forall j :: j in w.s.entries ==> w.s.entries[j].fence in w.used
  }

  predicate Holds(s: Store, j: JobId, f: Fence) { j in s.entries && s.entries[j].fence == f }

  lemma StepSuperseded(w: World, a: Step, j: JobId, f: Fence)
    requires FencesUsed(w) && Enabled(w, a) && f in w.used && !Holds(w.s, j, f)
    ensures FencesUsed(Next(w, a)) && f in Next(w, a).used && !Holds(Next(w, a).s, j, f)
  {
  }

  /** A fence that no longer holds a job never holds it again. */
  lemma {:induction false} NeverHoldsAgain(w: World, steps: seq<Step>, j: JobId, f: Fence)
    requires FencesUsed(w) && Feasible(w, steps) && f in w.used && !Holds(w.s, j, f)
    ensures !Holds(Run(w, steps).s, j, f)
    decreases |steps|
  {
    if steps != [] {
      StepSuperseded(w, steps[0], j, f);
      NeverHoldsAgain(Next(w, steps[0]), steps[1..], j, f);
    }
  }

  /** So, once superseded, a fence can neither extend nor delete whatever entry the job has later. */
  lemma SupersededFenceHarmless(w: World, steps: seq<Step>, j: JobId, f: Fence, c: Consumer, deadline: int)
    requires FencesUsed(w) && Feasible(w, steps) && f in w.used && !Holds(w.s, j, f)
    requires j in Run(w, steps).s.entries
    ensures var s := Run(w, steps).s;
            && Renew(s, j, c, f, deadline) == (s, false)
            && Complete(s, j, c, f) == (s, false)
            && FinishReclaim(s, j, c, f) == (s, false)
  {
    NeverHoldsAgain(w, steps, j, f);
  }
}
