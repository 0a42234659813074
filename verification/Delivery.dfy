/**
 Bulk produce: results arrive in completion order and are matched to inputs by record identity,
 and a long push goes out in chunks that stop at the first error.
 */
module Delivery {
  import opened Collections

  datatype Error = Broker(text: string) | UnknownRecord | MissingResult(index: nat)

  datatype Coords = Coords(partition: int, offset: int)

  datatype Outcome = Outcome(delivery: Coords, err: Option<Error>)

  /** A produce result. Records are known by identity; a result may carry no record at all. */
  datatype Result = Result(record: Option<nat>, delivery: Coords, err: Option<Error>)

  predicate About(r: Result, id: nat) { r.record == Some(id) }

  /** The broker confirmed the record: some result is about it, and none of them is an error. */
  ghost predicate Confirmed(results: seq<Result>, id: nat) {
    && (exists r <- results :: About(r, id))
    && (forall r <- results :: About(r, id) ==> r.err.None?)
  }

  ghost predicate AtMostOne(results: seq<Result>, id: nat) {
    forall i, j :: 0 <= i < j < |results| ==> !About(results[i], id) || !About(results[j], id)
  }

  /** A result about no record that was sent: an error without a record, or an unknown record. */
  predicate Stray(r: Result, idx: map<nat, nat>) {
    match r.record case None => r.err.Some? case Some(id) => id !in idx
  }

  // ---------- one record's view of the results ----------

  const Blank := Outcome(Coords(0, 0), None)

  datatype Slot = Slot(got: bool, out: Outcome)

  function Absorb(s: Slot, r: Result): Slot {
    Slot(true, if r.err.Some? then s.out.(err := r.err) else s.out.(delivery := r.delivery))
  }

  /** What one input has after the first k results. */
  function SlotAfter(results: seq<Result>, k: nat, id: nat): Slot
    requires k <= |results|
  {
    if k == 0 then Slot(false, Blank)
    else
      var s := SlotAfter(results, k - 1, id);
      if About(results[k - 1], id) then Absorb(s, results[k - 1]) else s
  }

  lemma {:induction false} SlotConfirms(results: seq<Result>, k: nat, id: nat)
    requires k <= |results|
    ensures var s := SlotAfter(results, k, id);
            && (s.got <==> exists r <- results[..k] :: About(r, id))
            && (s.out.err.None? <==> forall r <- results[..k] :: About(r, id) ==> r.err.None?)
  {
    if k > 0 {
      SlotConfirms(results, k - 1, id);
      assert results[..k] == results[..k - 1] + [results[k - 1]];
    }
  }

  /** With one result for the record, the slot holds that result. */
  lemma {:induction false} SlotHoldsResult(results: seq<Result>, k: nat, id: nat, i: nat)
    requires i < |results| && k <= |results| && About(results[i], id) && AtMostOne(results, id)
    ensures SlotAfter(results, k, id) == if i < k then Absorb(Slot(false, Blank), results[i]) else Slot(false, Blank)
  {
    if k > 0 { SlotHoldsResult(results, k - 1, id, i); }
  }

  // ---------- correlation ----------

  /** The outcome is what the result says: its error, or its coordinates and no error. */
  predicate Holds(o: Outcome, r: Result) {
    o.err == r.err && (r.err.None? ==> o.delivery == r.delivery)
  }

  /** Record identities by input position. */
  predicate Positions(n: nat, idx: map<nat, nat>) {
    && (forall id <- idx :: idx[id] < n)
    && (forall a, b :: a in idx && b in idx && idx[a] == idx[b] ==> a == b)
  }

  /** A record with no result is not confirmed. */
  function Settle(s: Slot, i: nat): Outcome {
    if !s.got && s.out.err.None? then s.out.(err := Some(MissingResult(i))) else s.out
  }

  lemma SettleConfirms(results: seq<Result>, id: nat, i: nat)
    ensures Settle(SlotAfter(results, |results|, id), i).err.None? <==> Confirmed(results, id)
  {
    assert results[..|results|] == results;
    SlotConfirms(results, |results|, id);
  }

  lemma SettleHoldsResult(results: seq<Result>, id: nat, i: nat, k: nat)
    requires k < |results| && About(results[k], id) && AtMostOne(results, id)
    ensures Holds(Settle(SlotAfter(results, |results|, id), i), results[k])
  {
    SlotHoldsResult(results, |results|, id, k);
  }

  /** Sort the results into their inputs' places. */
  method Collate(n: nat, idx: map<nat, nat>, results: seq<Result>)
    returns (out: array<Outcome>, got: array<bool>, firstErr: Option<Error>)
    requires Positions(n, idx)
    ensures fresh(out) && fresh(got) && out.Length == n && got.Length == n
    ensures forall id <- idx :: Slot(got[idx[id]], out[idx[id]]) == SlotAfter(results, |results|, id)
    ensures firstErr.None? <==>
              && (forall i :: 0 <= i < n ==> out[i].err.None?)
              && forall k :: 0 <= k < |results| ==> !Stray(results[k], idx)
  {
    out := new Outcome[n](_ => Blank);
    got := new bool[n](_ => false);
    firstErr := None;
    ghost var bad: nat, stray: nat := 0, 0; // where the first error came from
    for k := 0 to |results|
      invariant forall id <- idx :: Slot(got[idx[id]], out[idx[id]]) == SlotAfter(results, k, id)
      invariant firstErr.None? ==> forall i :: 0 <= i < n ==> out[i].err.None?
      invariant firstErr.None? ==> forall j :: 0 <= j < k ==> !Stray(results[j], idx)
      invariant firstErr.Some? ==> (bad < n && out[bad].err.Some?) || (stray < k && Stray(results[stray], idx))
    {
      var res := results[k];
      if res.record.None? {
        if firstErr.None? { firstErr, stray := res.err, k; }
        continue;
      }
      if res.record.value !in idx {
        if firstErr.None? { firstErr, stray := Some(UnknownRecord), k; }
        continue;
      }
      var i := idx[res.record.value];
      got[i] := true;
      if res.err.Some? {
        out[i] := out[i].(err := res.err);
        if firstErr.None? { firstErr, bad := res.err, i; }
        continue;
      }
      out[i] := out[i].(delivery := res.delivery);
    }
  }

  /** Each outcome lands on its own input: an input counts as delivered exactly when the broker
      confirmed its record, and with one result it holds that result. There is an error exactly when
      some input is not delivered or a result is stray. */
  method CorrelateOutcomes(n: nat, idx: map<nat, nat>, results: seq<Result>)
    returns (outcomes: seq<Outcome>, firstErr: Option<Error>)
    requires Positions(n, idx)
    ensures |outcomes| == n
    ensures forall id <- idx :: outcomes[idx[id]].err.None? <==> Confirmed(results, id)
    ensures forall id, k :: id in idx && 0 <= k < |results| && About(results[k], id) && AtMostOne(results, id)
                         ==> Holds(outcomes[idx[id]], results[k])
    ensures firstErr.None? <==>
              && (forall i :: 0 <= i < n ==> outcomes[i].err.None?)
              && forall k :: 0 <= k < |results| ==> !Stray(results[k], idx)
  {
    var out, got;
    out, got, firstErr := Collate(n, idx, results);
    ghost var slots := seq(n, i requires 0 <= i < n reads out, got => Slot(got[i], out[i]));
    for i := 0 to n
      invariant forall j :: 0 <= j < i ==> out[j] == Settle(slots[j], j)
      invariant forall j :: i <= j < n ==> out[j] == slots[j].out
      invariant forall j :: 0 <= j < n ==> got[j] == slots[j].got
      invariant firstErr.None? <==>
                  && (forall j :: 0 <= j < n ==> out[j].err.None?)
                  && forall k :: 0 <= k < |results| ==> !Stray(results[k], idx)
    {
      if !got[i] && out[i].err.None? {
        out[i] := out[i].(err := Some(MissingResult(i)));
        if firstErr.None? { firstErr := out[i].err; }
      }
    }
    outcomes := out[..];
    forall id <- idx ensures outcomes[idx[id]].err.None? <==> Confirmed(results, id) {
      SettleConfirms(results, id, idx[id]);
    }
    forall id, k | id in idx && 0 <= k < |results| && About(results[k], id) && AtMostOne(results, id)
      ensures Holds(outcomes[idx[id]], results[k])
    {
      SettleHoldsResult(results, id, idx[id], k);
    }
  }

  // ---------- chunks ----------

  /** One synchronous produce of the records from, ..., to - 1 and what came back. */
  datatype Call = Call(from: nat, to: nat, results: seq<Result>)

  /** Some record of the call is not confirmed, or a result does not belong to it. */
  ghost predicate CallFailed(c: Call) {
    || (exists g :: c.from <= g < c.to && !Confirmed(c.results, g))
    || (exists k :: 0 <= k < |c.results| && Outside(c.results[k], c.from, c.to))
  }

  /** An error without a record, or a result about a record of some other call. */
  predicate Outside(r: Result, from: nat, to: nat) {
    match r.record case None => r.err.Some? case Some(id) => !(from <= id < to)
  }

  /** Of n records the calls cover those below the given one, in order and in chunks of exactly size, but
      for one that ends with the last record. */
  ghost predicate Tiles(calls: seq<Call>, to: nat, size: nat, n: nat) {
    if calls == [] then to == 0
    else
      var last := calls[|calls| - 1];
      && last.to == to && last.from < to <= last.from + size && (to == last.from + size || to == n)
      && Tiles(calls[..|calls| - 1], last.from, size, n)
  }

  /** The flags say exactly what the calls confirmed. */
  ghost predicate FlagsExact(calls: seq<Call>, produced: seq<bool>) {
    forall c, g: nat :: c in calls && c.from <= g < c.to && g < |produced| ==>
      (produced[g] <==> Confirmed(c.results, g))
  }

  function ChunkSize(configured: int): nat { if configured < 1 then 500 else configured }

  /** The records from, ..., to - 1 by their position in the call. */
  ghost predicate Indexes(idx: map<nat, nat>, from: nat, to: nat) {
    (forall id :: id in idx <==> from <= id < to) && (forall id <- idx :: idx[id] == id - from)
  }

  method IndexRecords(from: nat, to: nat) returns (idx: map<nat, nat>)
    requires from <= to
    ensures Positions(to - from, idx) && Indexes(idx, from, to)
  {
    idx := map[];
    for j := 0 to to - from
      invariant Indexes(idx, from, from + j)
    {
      idx := idx[from + j := j];
    }
  }

  /** An input is delivered exactly when the broker confirmed its record; the call fails exactly when some
      input is not delivered or a result is stray. */
  ghost predicate Correlated(idx: map<nat, nat>, results: seq<Result>, outcomes: seq<Outcome>, failed: bool) {
    && (forall id <- idx :: idx[id] < |outcomes| && (outcomes[idx[id]].err.None? <==> Confirmed(results, id)))
    && (!failed <==>
          && (forall i :: 0 <= i < |outcomes| ==> outcomes[i].err.None?)
          && forall k :: 0 <= k < |results| ==> !Stray(results[k], idx))
  }

  /** The broker answers as it pleases. */
  method Answers(n: nat, idx: map<nat, nat>)
    returns (outcomes: seq<Outcome>, failed: bool, ghost results: seq<Result>)
    requires Positions(n, idx)
    ensures |outcomes| == n && Correlated(idx, results, outcomes, failed)
  {
    var answers: seq<Result> := *;
    var firstErr;
    outcomes, firstErr := CorrelateOutcomes(n, idx, answers);
    failed, results := firstErr.Some?, answers;
  }

  /** A flag for each record of the call, set exactly when the broker confirmed it, and whether the call
      failed. */
  ghost predicate Tells(c: Call, flags: seq<bool>, failed: bool) {
    && |flags| == c.to - c.from && (failed <==> CallFailed(c))
    && (forall j :: 0 <= j < |flags| ==> (flags[j] <==> Confirmed(c.results, c.from + j)))
  }

  lemma FlagsTell(c: Call, idx: map<nat, nat>, outcomes: seq<Outcome>, failed: bool)
    requires c.from < c.to && |outcomes| == c.to - c.from
    requires Indexes(idx, c.from, c.to) && Correlated(idx, c.results, outcomes, failed)
    ensures Tells(c, Successes(outcomes), failed)
  {
    var flags := Successes(outcomes);
    forall j | 0 <= j < |flags| ensures flags[j] <==> Confirmed(c.results, c.from + j) {
      assert c.from + j in idx;
    }
    VerdictTells(c, idx, flags, failed);
  }

  lemma VerdictTells(c: Call, idx: map<nat, nat>, flags: seq<bool>, failed: bool)
    requires c.from < c.to && |flags| == c.to - c.from && Indexes(idx, c.from, c.to)
    requires forall j :: 0 <= j < |flags| ==> (flags[j] <==> Confirmed(c.results, c.from + j))
    requires !failed <==>
               (forall j :: 0 <= j < |flags| ==> flags[j])
               && forall k :: 0 <= k < |c.results| ==> !Stray(c.results[k], idx)
    ensures failed <==> CallFailed(c)
  {
    forall k | 0 <= k < |c.results| ensures Stray(c.results[k], idx) <==> Outside(c.results[k], c.from, c.to) {}
    if j :| 0 <= j < |flags| && !flags[j] {
      assert !Confirmed(c.results, c.from + j);
    } else {
      forall g | c.from <= g < c.to ensures Confirmed(c.results, g) { assert flags[g - c.from]; }
    }
  }

  function Successes(outcomes: seq<Outcome>): (flags: seq<bool>)
    ensures |flags| == |outcomes| && forall j :: 0 <= j < |flags| ==> (flags[j] <==> outcomes[j].err.None?)
  {
    seq(|outcomes|, j requires 0 <= j < |outcomes| => outcomes[j].err.None?)
  }

  /** One synchronous produce. */
  method ProduceManySync(from: nat, to: nat) returns (flags: seq<bool>, failed: bool, ghost results: seq<Result>)
    requires from < to
    ensures Tells(Call(from, to, results), flags, failed)
  {
    var idx := IndexRecords(from, to);
    var outcomes;
    outcomes, failed, results := Answers(to - from, idx);
    flags := Successes(outcomes);
    FlagsTell(Call(from, to, results), idx, outcomes, failed);
  }

  /** Raise the flags of one chunk. */
  method SetFlags(produced: array<bool>, i: nat, flags: seq<bool>)
    requires i + |flags| <= produced.Length && forall g :: i <= g < i + |flags| ==> !produced[g]
    modifies produced
    ensures produced[..] == old(produced[..])[..i] + flags + old(produced[..])[i + |flags|..]
    ensures (forall g :: 0 <= g < i ==> old(produced[g])) && (forall j :: 0 <= j < |flags| ==> flags[j]) ==>
              forall g :: 0 <= g < i + |flags| ==> produced[g]
  {
    for j := 0 to |flags|
      invariant forall g :: 0 <= g < produced.Length ==>
                  produced[g] == if i <= g < i + j then flags[g - i] else old(produced[g])
    {
      if flags[j] { produced[i + j] := true; }
    }
  }

  /** The state between chunks: what was sent is flagged as it was answered, the rest is not. */
  ghost predicate Flagged(calls: seq<Call>, produced: seq<bool>, sent: nat, size: nat) {
    && sent <= |produced| && Tiles(calls, sent, size, |produced|) && FlagsExact(calls, produced)
    && (forall g :: sent <= g < |produced| ==> !produced[g])
  }

  lemma {:induction false} TilesBelow(calls: seq<Call>, to: nat, size: nat, n: nat, c: Call)
    requires Tiles(calls, to, size, n) && c in calls
    ensures c.from < c.to <= to
  {
    var last := |calls| - 1;
    assert calls == calls[..last] + [calls[last]];
    if c != calls[last] { TilesBelow(calls[..last], calls[last].from, size, n, c); }
  }

  lemma FlaggedNext(calls: seq<Call>, produced: seq<bool>, sent: nat, size: nat, flags: seq<bool>, results: seq<Result>)
    requires Flagged(calls, produced, sent, size) && 0 < |flags| <= size && sent + |flags| <= |produced|
    requires |flags| == size || sent + |flags| == |produced|
    requires forall j :: 0 <= j < |flags| ==> (flags[j] <==> Confirmed(results, sent + j))
    ensures var end := sent + |flags|;
            Flagged(calls + [Call(sent, end, results)], produced[..sent] + flags + produced[end..], end, size)
  {
    var end := sent + |flags|;
    var call := Call(sent, end, results);
    var after := produced[..sent] + flags + produced[end..];
    assert (calls + [call])[..|calls|] == calls;
    forall c, g: nat | c in calls + [call] && c.from <= g < c.to && g < |after|
      ensures after[g] <==> Confirmed(c.results, g)
    {
      if c in calls {
        TilesBelow(calls, sent, size, |produced|, c);
        assert after[g] == produced[g];
      } else {
        assert after[g] == flags[g - sent];
      }
    }
  }

  lemma NothingBeyond(calls: seq<Call>, marks: array<bool>, sent: nat, size: nat)
    requires Flagged(calls, marks[..], sent, size)
    ensures forall g :: sent <= g < marks.Length ==> !marks[g]
  {
    assert forall g :: 0 <= g < marks.Length ==> marks[g] == marks[..][g];
  }

  /** Produce the next chunk and raise its flags. */
  method ProduceChunk(marks: array<bool>, i: nat, size: nat, ghost calls: seq<Call>)
    returns (end: nat, failed: bool, ghost call: Call)
    requires i < marks.Length && size >= 1 && Flagged(calls, marks[..], i, size)
    modifies marks
    ensures i < end <= marks.Length && Flagged(calls + [call], marks[..], end, size)
    ensures failed <==> CallFailed(call)
    ensures (forall g :: 0 <= g < i ==> old(marks[g])) && !failed ==> forall g :: 0 <= g < end ==> marks[g]
  {
    end := if i + size > marks.Length then marks.Length else i + size;
    var flags;
    ghost var results;
    flags, failed, results := ProduceManySync(i, end);
    call := Call(i, end, results);
    FlaggedNext(calls, marks[..], i, size, flags, results);
    NothingBeyond(calls, marks, i, size);
    if !failed { AllFlags(call, flags, failed); }
    SetFlags(marks, i, flags);
  }

  lemma AllFlags(c: Call, flags: seq<bool>, failed: bool)
    requires Tells(c, flags, failed) && !failed && c.from <= c.to
    ensures forall j :: 0 <= j < |flags| ==> flags[j]
  {
    forall j | 0 <= j < |flags| ensures flags[j] { assert Confirmed(c.results, c.from + j); }
  }

  /** Flags are exact for every record sent, an error is reported exactly when the last call failed, no
      call before it failed, and without an error everything was sent and produced. */
  method ProduceInChunks(n: nat, configured: int)
    returns (produced: seq<bool>, failed: bool, ghost calls: seq<Call>, ghost sent: nat)
    ensures |produced| == n && Flagged(calls, produced, sent, if configured >= 1 then configured else 500)
    ensures forall k :: 0 <= k < |calls| ==> (CallFailed(calls[k]) <==> failed && k == |calls| - 1)
    ensures failed ==> calls != []
    ensures !failed ==> sent == n && forall g :: 0 <= g < n ==> produced[g]
  {
    var size := ChunkSize(configured);
    var marks := new bool[n](_ => false);
    calls, sent := [], 0;
    var i: nat := 0;
    failed := false;
    while i < n
      invariant i == sent <= n && Flagged(calls, marks[..], sent, size)
      invariant forall g :: 0 <= g < i ==> marks[g]
      invariant forall c <- calls :: !CallFailed(c)
    {
      ghost var call;
      i, failed, call := ProduceChunk(marks, i, size, calls);
      calls, sent := calls + [call], i;
      if failed { break; }
    }
    produced := marks[..];
  }
}
