/** Ramer-Douglas-Peucker simplification with an explicit stack of index intervals.

    The planar distance from a point to a segment is a parameter: nothing below depends on
    the floating-point formula, only on comparing distances. */
module RoadSimplify {

  datatype Coord = Coord(lat: real, lon: real)
  datatype Point = Point(drive: int, pos: Coord)

  /** `dist(p, a, b)` is the distance of `p` from the segment from `a` to `b`. */
  type SegmentDistance = (Coord, Coord, Coord) -> real

  function Gap(dist: SegmentDistance, points: seq<Point>, i: int, lo: int, hi: int): real
    requires 0 <= lo < |points| && 0 <= hi < |points| && 0 <= i < |points|
  {
    dist(points[i].pos, points[lo].pos, points[hi].pos)
  }

  // ---------- Recursive specification ----------

  /** Among the interior indices of [lo, hi] below `end`: the first one that is farthest
      from the chord, or -1 when none is farther than `epsilon`. */
  function Farthest(dist: SegmentDistance, points: seq<Point>, lo: int, hi: int, epsilon: real, end: int): (chosen: int)
    requires 0 <= lo < hi < |points| && lo < end <= hi
    ensures chosen == -1 || lo < chosen < end
    decreases end
  {
    if end == lo + 1 then -1
    else
      var before := Farthest(dist, points, lo, hi, epsilon, end - 1);
      var maximum := if before == -1 then epsilon else Gap(dist, points, before, lo, hi);
      if Gap(dist, points, end - 1, lo, hi) > maximum then end - 1 else before
  }

  /** `Farthest` is what its name says, and the earliest index wins a tie. */
  lemma {:induction false} FarthestIsFarthest(dist: SegmentDistance, points: seq<Point>, lo: int, hi: int, epsilon: real, end: int, i: int)
    requires 0 <= lo < hi < |points| && lo < i < end <= hi
    ensures var chosen := Farthest(dist, points, lo, hi, epsilon, end);
            if chosen == -1 then Gap(dist, points, i, lo, hi) <= epsilon
            else
              && epsilon < Gap(dist, points, chosen, lo, hi)
              && Gap(dist, points, i, lo, hi) <= Gap(dist, points, chosen, lo, hi)
              && (i < chosen ==> Gap(dist, points, i, lo, hi) < Gap(dist, points, chosen, lo, hi))
    decreases end
  {
    if lo + 1 < end - 1 {
      FarthestIsFarthest(dist, points, lo, hi, epsilon, end - 1, if i < end - 1 then i else lo + 1);
    }
  }

  /** The interior indices of [lo, hi] that the recursive algorithm keeps. */
  function Kept(dist: SegmentDistance, points: seq<Point>, lo: int, hi: int, epsilon: real): (kept: set<int>)
    requires 0 <= lo < hi < |points|
    ensures forall i :: i in kept ==> lo < i < hi
    decreases hi - lo
  {
    var chosen := Farthest(dist, points, lo, hi, epsilon, hi);
    if chosen == -1 then {}
    else Kept(dist, points, lo, chosen, epsilon) + {chosen} + Kept(dist, points, chosen, hi, epsilon)
  }

  function KeptOverall(dist: SegmentDistance, points: seq<Point>, epsilon: real): (kept: set<int>)
    requires |points| >= 2
    ensures forall i :: i in kept ==> 0 <= i < |points|
  {
    {0, |points| - 1} + Kept(dist, points, 0, |points| - 1, epsilon)
  }

  /** The members of `kept` below `end` in increasing order. */
  function Ascending(kept: set<int>, end: nat): (idx: seq<int>)
    ensures forall j :: 0 <= j < |idx| ==> 0 <= idx[j] < end
  {
    if end == 0 then []
    else if end - 1 in kept then Ascending(kept, end - 1) + [end - 1]
    else Ascending(kept, end - 1)
  }

  function Select(points: seq<Point>, idx: seq<int>): (chosen: seq<Point>)
    requires forall j :: 0 <= j < |idx| ==> 0 <= idx[j] < |points|
    ensures |chosen| == |idx|
  {
    seq(|idx|, j requires 0 <= j < |idx| => points[idx[j]])
  }

  /** The indices of `points` that survive simplification. */
  function KeptIndices(dist: SegmentDistance, points: seq<Point>, epsilon: real): (idx: seq<int>)
    ensures forall j :: 0 <= j < |idx| ==> 0 <= idx[j] < |points|
  {
    if |points| < 3 then seq(|points|, i => i)
    else Ascending(KeptOverall(dist, points, epsilon), |points|)
  }

  function Simplified(dist: SegmentDistance, points: seq<Point>, epsilon: real): seq<Point> {
    Select(points, KeptIndices(dist, points, epsilon))
  }

  // ---------- What simplification guarantees ----------

  /** Index `i` lies strictly between two neighbouring members of `kept` and within
      `epsilon` of the segment joining them. */
  ghost predicate Bracketed(dist: SegmentDistance, points: seq<Point>, kept: set<int>, i: int, epsilon: real)
    requires 0 <= i < |points|
  {
    exists a, b :: a in kept && b in kept && 0 <= a < i < b < |points|
                   && (forall k :: a < k < b ==> k !in kept)
                   && Gap(dist, points, i, a, b) <= epsilon
  }

  lemma {:induction false} KeptBrackets(dist: SegmentDistance, points: seq<Point>, lo: int, hi: int, epsilon: real, i: int)
    requires 0 <= lo < i < hi < |points| && i !in Kept(dist, points, lo, hi, epsilon)
    ensures Bracketed(dist, points, Kept(dist, points, lo, hi, epsilon) + {lo, hi}, i, epsilon)
    decreases hi - lo
  {
    var all := Kept(dist, points, lo, hi, epsilon) + {lo, hi};
    var c := Farthest(dist, points, lo, hi, epsilon, hi);
    if c == -1 {
      FarthestIsFarthest(dist, points, lo, hi, epsilon, hi, i);
      assert lo in all && hi in all;
    } else if i < c {
      KeptBrackets(dist, points, lo, c, epsilon, i);
      BracketedInLarger(dist, points, Kept(dist, points, lo, c, epsilon) + {lo, c}, lo, c, all, i, epsilon);
    } else {
      KeptBrackets(dist, points, c, hi, epsilon, i);
      BracketedInLarger(dist, points, Kept(dist, points, c, hi, epsilon) + {c, hi}, c, hi, all, i, epsilon);
    }
  }

  lemma BracketedInLarger(dist: SegmentDistance, points: seq<Point>, part: set<int>, l: int, h: int,
                          kept: set<int>, i: int, epsilon: real)
    requires 0 <= l < i < h < |points| && Bracketed(dist, points, part, i, epsilon)
    requires forall k :: k in part ==> l <= k <= h
    requires forall k :: l <= k <= h ==> (k in part <==> k in kept)
    ensures Bracketed(dist, points, kept, i, epsilon)
  {
    var a, b :| a in part && b in part && 0 <= a < i < b < |points|
                && (forall k :: a < k < b ==> k !in part)
                && Gap(dist, points, i, a, b) <= epsilon;
    assert a in kept && b in kept;
  }

  /** Main result: the output is the subsequence of the input at strictly increasing
      indices that include the first and the last one ... */
  lemma SimplifiedIsSubsequence(dist: SegmentDistance, points: seq<Point>, epsilon: real)
    requires points != []
    ensures var idx := KeptIndices(dist, points, epsilon);
            && idx != [] && idx[0] == 0 && idx[|idx| - 1] == |points| - 1
            && (forall j, k :: 0 <= j < k < |idx| ==> idx[j] < idx[k])
            && Simplified(dist, points, epsilon) == Select(points, idx)
  {
    if |points| >= 3 {
      var n := |points|;
      var kept := KeptOverall(dist, points, epsilon);
      AscendingEnds(kept, n);
      forall j, k | 0 <= j < k < |Ascending(kept, n)|
        ensures Ascending(kept, n)[j] < Ascending(kept, n)[k]
      {
        AscendingOrdered(kept, n, j, k);
      }
    }
  }

  /** ... and every dropped point is within `epsilon` of the segment joining the kept
      points on either side of it. */
  lemma SimplifiedWithinEpsilon(dist: SegmentDistance, points: seq<Point>, epsilon: real, j: int, i: int)
    requires var idx := KeptIndices(dist, points, epsilon); 0 <= j < |idx| - 1 && idx[j] < i < idx[j + 1]
    ensures var idx := KeptIndices(dist, points, epsilon);
            Gap(dist, points, i, idx[j], idx[j + 1]) <= epsilon
  {
    if |points| >= 3 {
      var n := |points|;
      var kept := KeptOverall(dist, points, epsilon);
      NotKeptBetween(kept, n, j, i);
      DroppedIsBracketed(dist, points, epsilon, i);
      NeighboursWithin(dist, points, kept, j, i, epsilon);
    }
  }

  lemma DroppedIsBracketed(dist: SegmentDistance, points: seq<Point>, epsilon: real, i: int)
    requires |points| >= 2 && 0 <= i < |points| && i !in KeptOverall(dist, points, epsilon)
    ensures Bracketed(dist, points, KeptOverall(dist, points, epsilon), i, epsilon)
  {
    var n := |points|;
    KeptBrackets(dist, points, 0, n - 1, epsilon, i);
    assert KeptOverall(dist, points, epsilon) == Kept(dist, points, 0, n - 1, epsilon) + {0, n - 1};
  }

  lemma {:induction false} AscendingOrdered(kept: set<int>, end: nat, j: int, k: int)
    requires 0 <= j < k < |Ascending(kept, end)|
    ensures Ascending(kept, end)[j] < Ascending(kept, end)[k]
  {
    if k < |Ascending(kept, end - 1)| {
      AscendingOrdered(kept, end - 1, j, k);
    }
  }

  lemma {:induction false} AscendingMember(kept: set<int>, end: nat, j: int)
    requires 0 <= j < |Ascending(kept, end)|
    ensures Ascending(kept, end)[j] in kept
  {
    if j < |Ascending(kept, end - 1)| {
      AscendingMember(kept, end - 1, j);
    }
  }

  lemma {:induction false} AscendingFinds(kept: set<int>, end: nat, i: int) returns (j: int)
    requires 0 <= i < end && i in kept
    ensures 0 <= j < |Ascending(kept, end)| && Ascending(kept, end)[j] == i
  {
    if i == end - 1 {
      j := |Ascending(kept, end)| - 1;
    } else {
      j := AscendingFinds(kept, end - 1, i);
    }
  }

  lemma AscendingEnds(kept: set<int>, n: nat)
    requires n >= 1 && 0 in kept && n - 1 in kept
    ensures var idx := Ascending(kept, n); idx != [] && idx[0] == 0 && idx[|idx| - 1] == n - 1
  {
    var first := AscendingFinds(kept, n, 0);
    if first > 0 {
      AscendingOrdered(kept, n, 0, first);
    }
  }

  lemma NotKeptBetween(kept: set<int>, end: nat, j: int, i: int)
    requires var idx := Ascending(kept, end); 0 <= j < |idx| - 1 && idx[j] < i < idx[j + 1]
    ensures i !in kept
  {
    if i in kept {
      var k := AscendingFinds(kept, end, i);
      if k < j {
        AscendingOrdered(kept, end, k, j);
      } else if j + 1 < k {
        AscendingOrdered(kept, end, j + 1, k);
      }
    }
  }

  lemma NeighboursWithin(dist: SegmentDistance, points: seq<Point>, kept: set<int>, j: int, i: int, epsilon: real)
    requires var idx := Ascending(kept, |points|); 0 <= j < |idx| - 1 && idx[j] < i < idx[j + 1]
    requires Bracketed(dist, points, kept, i, epsilon)
    ensures var idx := Ascending(kept, |points|); Gap(dist, points, i, idx[j], idx[j + 1]) <= epsilon
  {
    hide Ascending;
    var n := |points|;
    var idx := Ascending(kept, n);
    var a, b :| a in kept && b in kept && 0 <= a < i < b < n
                && (forall k :: a < k < b ==> k !in kept)
                && Gap(dist, points, i, a, b) <= epsilon;
    AscendingMember(kept, n, j);
    AscendingMember(kept, n, j + 1);
    assert idx[j] <= a && b <= idx[j + 1];
    if a < idx[j + 1] && idx[j] < a {
      NotKeptBetween(kept, n, j, a);
    }
    if idx[j] < b && b < idx[j + 1] {
      NotKeptBetween(kept, n, j, b);
    }
  }

  // ---------- The explicit-stack loop ----------

  datatype Interval = Interval(lo: int, hi: int)

  ghost predicate ValidStack(stack: seq<Interval>, n: int) {
    forall k :: 0 <= k < |stack| ==> 0 <= stack[k].lo < stack[k].hi < n
  }

  ghost function StackKept(dist: SegmentDistance, points: seq<Point>, epsilon: real, stack: seq<Interval>): set<int>
    requires ValidStack(stack, |points|)
  {
    if stack == [] then {}
    else
      var top := stack[|stack| - 1];
      StackKept(dist, points, epsilon, stack[..|stack| - 1]) + Kept(dist, points, top.lo, top.hi, epsilon)
  }

  ghost function StackWeight(stack: seq<Interval>, n: int): nat
    requires ValidStack(stack, n)
  {
    if stack == [] then 0
    else
      var top := stack[|stack| - 1];
      StackWeight(stack[..|stack| - 1], n) + 2 * (top.hi - top.lo) - 1
  }

  /** Replacing an interval by the two halves around its farthest index loses no kept
      index except the one being marked, and makes the stack lighter. */
  lemma SplitInterval(dist: SegmentDistance, points: seq<Point>, epsilon: real, rest: seq<Interval>, r: Interval, c: int)
    requires ValidStack(rest, |points|) && 0 <= r.lo < c < r.hi < |points|
    requires c == Farthest(dist, points, r.lo, r.hi, epsilon, r.hi)
    ensures var stack := rest + [Interval(r.lo, c), Interval(c, r.hi)];
            && ValidStack(stack, |points|)
            && StackKept(dist, points, epsilon, stack) + {c}
               == StackKept(dist, points, epsilon, rest) + Kept(dist, points, r.lo, r.hi, epsilon)
            && StackWeight(stack, |points|) < StackWeight(rest, |points|) + 2 * (r.hi - r.lo) - 1
  {
    var left := rest + [Interval(r.lo, c)];
    var stack := rest + [Interval(r.lo, c), Interval(c, r.hi)];
    assert stack[..|stack| - 1] == left;
    assert left[..|left| - 1] == rest;
    assert StackKept(dist, points, epsilon, left) ==
           StackKept(dist, points, epsilon, rest) + Kept(dist, points, r.lo, c, epsilon);
  }

  lemma NothingKept(dist: SegmentDistance, points: seq<Point>, lo: int, hi: int, epsilon: real)
    requires 0 <= lo < hi < |points| && Farthest(dist, points, lo, hi, epsilon, hi) < 0
    ensures Kept(dist, points, lo, hi, epsilon) == {}
  {
  }

  ghost predicate Marks(keep: seq<bool>, marked: set<int>) {
    forall i :: 0 <= i < |keep| ==> (keep[i] <==> i in marked)
  }

  /** The scan of one interval for its farthest interior point. */
  method ScanInterval(dist: SegmentDistance, points: seq<Point>, lo: int, hi: int, epsilon: real) returns (chosen: int)
    requires 0 <= lo < hi < |points|
    ensures chosen == Farthest(dist, points, lo, hi, epsilon, hi)
  {
    var maximum := epsilon;
    chosen := -1;
    for i := lo + 1 to hi
      invariant chosen == Farthest(dist, points, lo, hi, epsilon, i)
      invariant maximum == if chosen == -1 then epsilon else Gap(dist, points, chosen, lo, hi)
    {
      var d := dist(points[i].pos, points[lo].pos, points[hi].pos);
      if d > maximum {
        maximum, chosen := d, i;
      }
    }
  }

  /** The stack loop: it terminates and marks exactly the indices the recursion keeps. */
  method MarkKept(dist: SegmentDistance, points: seq<Point>, epsilon: real) returns (keep: array<bool>)
    requires |points| >= 3
    ensures fresh(keep) && keep.Length == |points|
    ensures Marks(keep[..], KeptOverall(dist, points, epsilon))
  {
    hide Farthest, Gap, Kept;
    var n := |points|;
    keep := new bool[n](_ => false);
    keep[0], keep[n - 1] := true, true;
    ghost var marked := {0, n - 1};
    var stack := [Interval(0, n - 1)];
    assert stack[..0] == [];
    while |stack| > 0
      invariant ValidStack(stack, n)
      invariant Marks(keep[..], marked)
      invariant marked + StackKept(dist, points, epsilon, stack) == KeptOverall(dist, points, epsilon)
      decreases StackWeight(stack, n)
    {
      var r := stack[|stack| - 1];
      stack := stack[..|stack| - 1];
      var chosen := ScanInterval(dist, points, r.lo, r.hi, epsilon);
      if chosen >= 0 {
        SplitInterval(dist, points, epsilon, stack, r, chosen);
        keep[chosen] := true;
        marked := marked + {chosen};
        stack := stack + [Interval(r.lo, chosen), Interval(chosen, r.hi)];
      } else {
        NothingKept(dist, points, r.lo, r.hi, epsilon);
      }
    }
  }

  method SimplifyRoadPoints(dist: SegmentDistance, points: seq<Point>, epsilon: real) returns (result: seq<Point>)
    ensures result == Simplified(dist, points, epsilon)
  {
    if |points| < 3 {
      return points;
    }
    var keep := MarkKept(dist, points, epsilon);
    ghost var kept := KeptOverall(dist, points, epsilon);
    result := [];
    for i := 0 to |points|
      invariant forall j :: 0 <= j < |Ascending(kept, i)| ==> 0 <= Ascending(kept, i)[j] < |points|
      invariant result == Select(points, Ascending(kept, i))
    {
      assert keep[..][i] <==> i in kept;
      if keep[i] {
        result := result + [points[i]];
      }
    }
  }
}
