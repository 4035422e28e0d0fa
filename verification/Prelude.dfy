/** Shared vocabulary: optional values, instants, finite sums and the cardinality of a
    range of instants. */
module Prelude {

  datatype Option<+T> = None | Some(value: T)

  datatype Result<+T, +E> = Ok(value: T) | Err(error: E)

  /** The refusals the stores answer with. */
  datatype Failure = NotFound | Conflict | Validation

  /** Nanoseconds since the zero instant of the source's clock type; the zero instant
      itself (its "unset" marker) is 0. */
  type Time = int

  const MICROSECOND: Time := 1_000

  /** Rounds down to a whole microsecond, the precision the registry keeps. */
  function Truncate(t: Time): Time {
    t - t % MICROSECOND
  }

  /** The instants from `lo` up to but not including `hi`. */
  function Range(lo: Time, hi: Time): (r: set<Time>)
    ensures forall t :: t in r <==> lo <= t < hi
    ensures |r| == if lo <= hi then hi - lo else 0
    decreases hi - lo
  {
    if lo < hi then Range(lo, hi - 1) + {hi - 1} else {}
  }

  /** The sum of `f` over a finite set. */
  ghost function SumOver<T>(s: set<T>, f: T -> int): int {
    if s == {} then 0 else
      var x :| x in s;
      f(x) + SumOver(s - {x}, f)
  }

  lemma {:induction false} SumPick<T>(s: set<T>, f: T -> int, x: T)
    requires x in s
    ensures SumOver(s, f) == f(x) + SumOver(s - {x}, f)
    decreases s
  {
    var y :| y in s && SumOver(s, f) == f(y) + SumOver(s - {y}, f);
    if y != x {
      SumPick(s - {y}, f, x);
      SumPick(s - {x}, f, y);
      assert s - {y} - {x} == s - {x} - {y};
    }
  }

  function UnionOf<T>(items: set<T>, part: T -> set<Time>): set<Time> {
    set i, t | i in items && t in part(i) :: t
  }

  lemma UnionSplit<T>(items: set<T>, part: T -> set<Time>, x: T)
    requires x in items
    ensures UnionOf(items, part) == UnionOf(items - {x}, part) + part(x)
  {
    var rest := items - {x};
    var sum := UnionOf(rest, part) + part(x);
    forall t | t in UnionOf(items, part) ensures t in sum {
      var i :| i in items && t in part(i);
      assert i == x || i in rest;
    }
    forall t | t in sum ensures t in UnionOf(items, part) {
      if t !in part(x) {
        var i :| i in rest && t in part(i);
        assert i in items;
      }
    }
    assert UnionOf(items, part) == sum;
  }

  /** Pairwise disjoint parts: the size of the union is the sum of the sizes. */
  lemma {:induction false} DisjointUnionSize<T>(items: set<T>, part: T -> set<Time>, size: T -> int)
    requires forall i, j :: i in items && j in items && i != j ==> part(i) !! part(j)
    requires forall i :: i in items ==> |part(i)| == size(i)
    ensures |UnionOf(items, part)| == SumOver(items, size)
    decreases items
  {
    if items == {} {
      assert UnionOf(items, part) == {};
    } else {
      var x :| x in items;
      DisjointUnionSize(items - {x}, part, size);
      UnionSplit(items, part, x);
      assert UnionOf(items - {x}, part) !! part(x);
      SumPick(items, size, x);
    }
  }

  lemma {:induction false} SubsetSize<T>(a: set<T>, b: set<T>)
    requires a <= b
    ensures |a| <= |b|
  {
    if a != {} {
      var x :| x in a;
      SubsetSize(a - {x}, b - {x});
    }
  }

  lemma Associate<T>(a: seq<T>, b: seq<T>, c: seq<T>)
    ensures a + (b + c) == a + b + c
  {
  }
}
