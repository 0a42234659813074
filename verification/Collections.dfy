/**
 Facts about finite sets and maps that the state machines of this project share.
 */
module Collections {

  datatype Option<+T> = None | Some(value: T)

  /** A subset is no larger, and is the whole set once it is as large. */
  lemma {:induction false} SubsetSize<T>(a: set<T>, b: set<T>)
    requires a <= b
    ensures |a| <= |b|
    ensures |a| >= |b| ==> a == b
  {
    assert b == a + (b - a);
    assert |b| == |a| + |b - a|;
  }

  /** Two disjoint subsets that together have as many elements as the whole cover it. */
  lemma {:induction false} DisjointCover<T>(a: set<T>, b: set<T>, whole: set<T>)
    requires a <= whole && b <= whole && a !! b
    ensures |a| + |b| <= |whole|
    ensures |a| + |b| >= |whole| ==> a + b == whole
  {
    assert |a + b| == |a| + |b|;
    SubsetSize(a + b, whole);
  }

  /** The integers lo, lo+1, ..., hi-1. */
  function Interval(lo: int, hi: int): (s: set<int>)
    ensures forall x :: x in s <==> lo <= x < hi
    ensures |s| == if lo <= hi then hi - lo else 0
    decreases hi - lo
  {
    if lo < hi then Interval(lo, hi - 1) + {hi - 1} else {}
  }

  lemma AddedSize(s: set<int>, x: int)
    ensures |s + {x}| == |s| + if x in s then 0 else 1
  {
    if x in s { assert s + {x} == s; }
  }

  lemma RemovedSize(s: set<int>, x: int)
    ensures |s - {x}| == |s| - if x in s then 1 else 0
  {
    if x !in s { assert s - {x} == s; }
  }

  /** Some element of a non-empty set. */
  ghost function Member(s: set<int>): (x: int)
    ensures s == {} || x in s
  {
    if s == {} then 0
    else
      assert exists x :: x in s by {
        if forall x :: x !in s { }
      }
      var x :| x in s; x
  }

  lemma MissingSize<T>(part: set<T>, whole: set<T>)
    requires part <= whole
    ensures |whole - part| == |whole| - |part|
  {
    assert whole == (whole - part) + part;
  }

  lemma MissingOne(part: set<int>, whole: set<int>) returns (x: int)
    requires part <= whole && part != whole
    ensures x in whole && x !in part
  {
    MissingSize(part, whole);
    SubsetSize(part, whole);
    assert |whole - part| > 0;
    x := Member(whole - part);
  }

  lemma Unset(s: set<int>, x: int)
    requires x !in s
    ensures s - {x} == s
  {
  }
}
