/**
 Watermark execution: jobs of a partition run out of order, and an offset is marked for commit only
 when it heads a contiguous prefix of completed offsets.

 The tracker is what the mutex guards. The machine interleaves the poll goroutine, which alone
 dispatches, marks and releases the slots of what it marked, with the performs, at the granularity
 of critical sections and channel operations.
 */
module Watermark {
  import opened Kafka

  datatype Cell = Cell(part: Partition, offset: int)

  /** Per partition the next offset to commit; the completed offsets that await the prefix; and the
      offsets dispatched and neither committed nor failed. */
  datatype Tracker = Tracker(expected: map<Partition, int>, done: set<Cell>, pending: set<Cell>)

  // ---------- the critical sections ----------

  function Below(done: set<Cell>, c: Cell): set<Cell> {
    set d <- done | d.part == c.part && d.offset < c.offset
  }

  predicate Resets(t: Tracker, c: Cell) { c.part !in t.expected || c.offset < t.expected[c.part] }

  function Registered(t: Tracker, c: Cell): Tracker {
    if c in t.pending then t
    else if Resets(t, c)
    then Tracker(t.expected[c.part := c.offset], t.done - Below(t.done, c), t.pending + {c})
    else t.(pending := t.pending + {c})
  }

  function Noted(t: Tracker, c: Cell): Tracker {
    if !Resets(t, c) then t.(done := t.done + {c}) else t.(pending := t.pending - {c})
  }

  function Failed(t: Tracker, c: Cell): Tracker { t.(pending := t.pending - {c}) }

  /** A registration makes the offset pending and no other. An offset the partition has not seen, or below
      its watermark, becomes the watermark, and completions below it are forgotten; otherwise watermark
      and completions stay. An offset that is pending already changes nothing. */
  lemma RegisterMeans(t: Tracker, c: Cell)
    ensures var r := Registered(t, c);
            var lowers := c !in t.pending && (c.part in t.expected ==> c.offset < t.expected[c.part]);
            && (forall d :: d in r.pending <==> d in t.pending || d == c)
            && (forall p :: p in r.expected <==> p in t.expected || (lowers && p == c.part))
            && (forall p :: p in r.expected ==>
                  r.expected[p] == if lowers && p == c.part then c.offset else t.expected[p])
            && (forall d :: d in r.done <==> d in t.done && !(lowers && d.part == c.part && d.offset < c.offset))
  {
  }

  /** A completion at or above its partition's watermark is kept for the prefix; any other is dropped from
      pending. A failure is dropped from pending too, so that the offset can be dispatched again. */
  lemma CompletionMeans(t: Tracker, c: Cell)
    ensures var n, f := Noted(t, c), Failed(t, c);
            var tracked := c.part in t.expected && t.expected[c.part] <= c.offset;
            && n.expected == f.expected == t.expected && f.done == t.done
            && (forall d :: d in n.done <==> d in t.done || (tracked && d == c))
            && (forall d :: d in n.pending <==> d in t.pending && (tracked || d != c))
            && (forall d :: d in f.pending <==> d in t.pending && d != c)
  {
  }

  /** Between the two trackers exactly the batch was committed: per partition a run of completed
      offsets from the old head. */
  ghost predicate Advanced(t: Tracker, t': Tracker, batch: set<Cell>) {
    && t'.expected.Keys == t.expected.Keys
    && (forall p <- t.expected :: t.expected[p] <= t'.expected[p])
    && (forall c :: c in batch <==> c.part in t.expected && t.expected[c.part] <= c.offset < t'.expected[c.part])
    && batch <= t.done && t'.done == t.done - batch && t'.pending == t.pending - batch
  }

  /** The new head of the partition has not completed: the run was as long as it could be. */
  ghost predicate Exhausted(t: Tracker, t': Tracker, p: Partition) {
    p in t'.expected && Cell(p, t'.expected[p]) !in t.done
  }

  /** What one flush collects. */
  ghost predicate Collected(t: Tracker, t': Tracker, batch: set<Cell>) {
    Advanced(t, t', batch) && forall p <- t.expected :: Exhausted(t, t', p)
  }

  /** Committing the head of one partition. */
  function Advance(t: Tracker, p: Partition): Tracker
    requires p in t.expected
  {
    var head := Cell(p, t.expected[p]);
    Tracker(t.expected[p := t.expected[p] + 1], t.done - {head}, t.pending - {head})
  }

  lemma AdvanceAdvances(t: Tracker, t': Tracker, batch: set<Cell>, p: Partition)
    requires Advanced(t, t', batch) && p in t'.expected && Cell(p, t'.expected[p]) in t'.done
    ensures Cell(p, t'.expected[p]) !in batch
    ensures Advanced(t, Advance(t', p), batch + {Cell(p, t'.expected[p])})
    ensures forall q :: q != p && Exhausted(t, t', q) ==> Exhausted(t, Advance(t', p), q)
  {
  }

  /** The sequence lists the set, each element once. */
  ghost predicate Lists(marks: seq<Cell>, batch: set<Cell>) {
    |marks| == |batch| && forall c :: c in marks <==> c in batch
  }

  /** The executor's own fields; its methods run under the mutex. */
  class Executor {
    var t: Tracker

    constructor ()
      ensures t == Tracker(map[], {}, {})
    {
      t := Tracker(map[], {}, {});
    }

    method Register(c: Cell) returns (isNew: bool)
      modifies this
      ensures isNew == (c !in old(t).pending) && t == Registered(old(t), c)
    {
      if c in t.pending { return false; }
      if c.part !in t.expected || c.offset < t.expected[c.part] {
        var done, todo := t.done, t.done;
        while todo != {}
          invariant todo <= t.done && done == t.done - Below(t.done - todo, c)
          decreases |todo|
        {
          var d :| d in todo;
          todo := todo - {d};
          if d.part == c.part && d.offset < c.offset { done := done - {d}; }
        }
        assert t.done - {} == t.done;
        t := t.(expected := t.expected[c.part := c.offset], done := done);
      }
      t := t.(pending := t.pending + {c});
      return true;
    }

    /** Returns whether the completion is tracked; otherwise the perform releases its slot. */
    method NoteDone(c: Cell) returns (tracked: bool)
      modifies this
      ensures tracked == !Resets(old(t), c) && t == Noted(old(t), c)
    {
      tracked := c.part in t.expected && c.offset >= t.expected[c.part];
      if tracked { t := t.(done := t.done + {c}); } else { t := t.(pending := t.pending - {c}); }
    }

    method Fail(c: Cell)
      modifies this
      ensures t == Failed(old(t), c)
    {
      t := t.(pending := t.pending - {c});
    }

    /** Commit the head of partition p as long as it has completed. */
    method CollectPartition(p: Partition, ghost start: Tracker, ghost batch: set<Cell>, marks: seq<Cell>)
      returns (marks': seq<Cell>, ghost batch': set<Cell>)
      requires p in t.expected && Advanced(start, t, batch) && Lists(marks, batch)
      modifies this
      ensures Advanced(start, t, batch') && Lists(marks', batch') && Exhausted(start, t, p)
      ensures forall q :: q != p && Exhausted(start, old(t), q) ==> Exhausted(start, t, q)
    {
      marks', batch' := marks, batch;
      while Cell(p, t.expected[p]) in t.done
        invariant p in t.expected && Advanced(start, t, batch') && Lists(marks', batch')
        invariant forall q :: q != p && Exhausted(start, old(t), q) ==> Exhausted(start, t, q)
        decreases |t.done|
      {
        var head := Cell(p, t.expected[p]);
        AdvanceAdvances(start, t, batch', p);
        marks', batch' := marks' + [head], batch' + {head};
        t := Advance(t, p);
      }
    }

    /** The critical section of a flush. */
    method Collect() returns (marks: seq<Cell>, ghost batch: set<Cell>)
      modifies this
      ensures Collected(old(t), t, batch) && Lists(marks, batch)
    {
      marks, batch := [], {};
      ghost var start := t;
      var todo := t.expected.Keys;
      while todo != {}
        invariant Advanced(start, t, batch) && Lists(marks, batch) && todo <= t.expected.Keys
        invariant forall p <- t.expected.Keys - todo :: Exhausted(start, t, p)
        decreases |todo|
      {
        var p :| p in todo;
        todo := todo - {p};
        marks, batch := CollectPartition(p, start, batch, marks);
      }
    }
  }
}
