/** Which samples a segment is made of: time, distance and drive decide where one ends and the next
    begins, and no usable sample is lost. */
module RoadSegments {
  import opened Wrappers
  import opened RoadSimplify
  import opened RoadCoverage

  // ---------- Samples of an input ----------

  predicate Usable(geo: Geometry, input: seq<Sample>, i: int) { 0 <= i < |input| && geo.valid(input[i].pos) }

  function Spot(geo: Geometry, input: seq<Sample>, i: nat): Coord
    requires i < |input|
  {
    geo.round5(input[i].pos)
  }

  function Metres(geo: Geometry, input: seq<Sample>, a: nat, b: nat): real
    requires a < |input| && b < |input|
  {
    geo.haversine(Spot(geo, input, a), Spot(geo, input, b))
  }

  /** Not back in time and not more than two minutes on, where both instants are known. */
  predicate InTime(before: Option<int>, at: Option<int>) {
    before.Some? && at.Some? ==> before.value <= at.value <= before.value + 120_000_000_000
  }

  /** Sample `i` goes on from the one before it: both usable, of one drive, in time. */
  predicate GoesOn(geo: Geometry, input: seq<Sample>, i: int) {
    Usable(geo, input, i - 1) && Usable(geo, input, i) && input[i].drive == input[i - 1].drive && InTime(input[i - 1].at, input[i].at)
  }

  /** The car has stayed within a quarter of a metre of sample `a` until sample `i`. */
  ghost predicate Stays(geo: Geometry, input: seq<Sample>, a: nat, i: nat) {
    a <= i && Usable(geo, input, a) && i < |input|
    && forall m: nat :: a < m <= i ==> GoesOn(geo, input, m) && Metres(geo, input, a, m) < 0.25
  }

  /** From sample `a`, where the car stayed for a while, it went on to sample `b`, at least a quarter
      of a metre and at most five kilometres away. */
  ghost predicate Moves(geo: Geometry, input: seq<Sample>, a: nat, b: nat) {
    a < b && Stays(geo, input, a, b - 1) && GoesOn(geo, input, b) && 0.25 <= Metres(geo, input, a, b) <= 5000.0
  }

  // ---------- Segments by their samples ----------

  /** The points of a segment are these samples, rounded. */
  ghost predicate Matches(geo: Geometry, input: seq<Sample>, raw: seq<Point>, idx: seq<nat>) {
    |raw| == |idx|
    && forall j :: 0 <= j < |idx| ==> Usable(geo, input, idx[j]) && raw[j] == Point(input[idx[j]].drive, Spot(geo, input, idx[j]))
  }

  ghost predicate AllMatch(geo: Geometry, input: seq<Sample>, segments: seq<seq<Point>>, all: seq<seq<nat>>) {
    |segments| == |all| && forall k :: 0 <= k < |all| ==> Matches(geo, input, segments[k], all[k])
  }

  /** Within a segment, the car moves from each sample to the next. */
  ghost predicate AllMove(geo: Geometry, input: seq<Sample>, all: seq<seq<nat>>) {
    forall k, j :: 0 <= k < |all| && 0 < j < |all[k]| ==> Moves(geo, input, all[k][j - 1], all[k][j])
  }

  /** Segments come one after another, and only the first `n` samples count. */
  ghost predicate InOrder(all: seq<seq<nat>>, n: nat) {
    && (forall k, j :: 0 <= k < |all| && 0 <= j < |all[k]| ==> all[k][j] < n)
    && (forall k, l, i, j :: 0 <= k < l < |all| && 0 <= i < |all[k]| && 0 <= j < |all[l]| ==> all[k][i] < all[l][j])
  }

  /** Sample `a` is the `j`-th of segment `k`. */
  predicate IsAt(all: seq<seq<nat>>, k: int, j: int, a: nat) { 0 <= k < |all| && 0 <= j < |all[k]| && all[k][j] == a }

  /** Sample `i` is in a segment, or the car has only stayed at one that is. */
  ghost predicate Placed(geo: Geometry, input: seq<Sample>, all: seq<seq<nat>>, i: nat) {
    exists k, j, a: nat :: IsAt(all, k, j, a) && Stays(geo, input, a, i)
  }

  /** A sample that goes on, and is no more than five kilometres from where the car was, stays in the
      segment: it is its next one, or no other than the last. */
  ghost predicate Kept(geo: Geometry, input: seq<Sample>, all: seq<seq<nat>>, i: nat) {
    GoesOn(geo, input, i) ==>
      exists k, j, a: nat :: IsAt(all, k, j, a) && a < i && Stays(geo, input, a, i - 1) && StaysTogether(geo, input, all, k, j, a, i)
  }

  ghost predicate StaysTogether(geo: Geometry, input: seq<Sample>, all: seq<seq<nat>>, k: int, j: int, a: nat, i: nat)
    requires a < i < |input|
  {
    || Metres(geo, input, a, i) > 5000.0
    || (Metres(geo, input, a, i) < 0.25 && Stays(geo, input, a, i))
    || (Metres(geo, input, a, i) >= 0.25 && IsAt(all, k, j + 1, i))
  }

  /** A segment begins where nothing goes on, or with a jump of more than five kilometres. */
  ghost predicate Begins(geo: Geometry, input: seq<Sample>, all: seq<seq<nat>>, b: nat) {
    GoesOn(geo, input, b) ==>
      exists k, j, a: nat :: IsAt(all, k, j, a) && a < b && Stays(geo, input, a, b - 1) && Metres(geo, input, a, b) > 5000.0
  }

  ghost predicate AllBegin(geo: Geometry, input: seq<Sample>, all: seq<seq<nat>>) {
    forall k :: 0 <= k < |all| && all[k] != [] ==> Begins(geo, input, all, all[k][0])
  }

  // ---------- While the input is read ----------

  /** Everything about the first `n` samples. */
  ghost predicate Traced(geo: Geometry, input: seq<Sample>, n: nat, stream: Stream, all: seq<seq<nat>>) {
    && n <= |input| && |all| > 0
    && AllMatch(geo, input, stream.closed + [stream.open], all) && AllMove(geo, input, all) && InOrder(all, n)
    && (forall i: nat :: i < n && Usable(geo, input, i) ==> Placed(geo, input, all, i))
    && (forall i: nat :: i < n ==> Kept(geo, input, all, i)) && AllBegin(geo, input, all)
    && Tail(geo, input, n, stream, all[|all| - 1])
  }

  /** What the cursor knows: nothing after an unusable sample, else where the car has stayed since
      and when it was last heard from. */
  ghost predicate Tail(geo: Geometry, input: seq<Sample>, n: nat, stream: Stream, open: seq<nat>) {
    if n == 0 || !Usable(geo, input, n - 1) then open == [] && stream.cursor.last.None? && (n == 0 ==> stream.cursor.drive.None?)
    else
      && open != [] && Stays(geo, input, open[|open| - 1], n - 1)
      && stream.cursor.drive == Some(input[n - 1].drive)
      && stream.cursor.last == Some(Last(Spot(geo, input, open[|open| - 1]), input[n - 1].at))
  }

  /** Every segment is kept or goes on. */
  ghost predicate Extends(all: seq<seq<nat>>, more: seq<seq<nat>>) {
    |all| <= |more| && forall k :: 0 <= k < |all| ==> all[k] <= more[k]
  }

  lemma PlacedStays(geo: Geometry, input: seq<Sample>, all: seq<seq<nat>>, more: seq<seq<nat>>, i: nat)
    requires Extends(all, more)
    ensures Placed(geo, input, all, i) ==> Placed(geo, input, more, i)
    ensures Kept(geo, input, all, i) ==> Kept(geo, input, more, i)
  {
    hide Stays, GoesOn;
    if Placed(geo, input, all, i) {
      var k, j, a: nat :| IsAt(all, k, j, a) && Stays(geo, input, a, i);
      assert IsAt(more, k, j, a);
    }
    if Kept(geo, input, all, i) && GoesOn(geo, input, i) {
      GoingOnIsInside(geo, input, i);
      var k, j, a: nat :| IsAt(all, k, j, a) && a < i && Stays(geo, input, a, i - 1) && StaysTogether(geo, input, all, k, j, a, i);
      assert IsAt(more, k, j, a);
      assert IsAt(all, k, j + 1, i) ==> IsAt(more, k, j + 1, i);
      assert StaysTogether(geo, input, more, k, j, a, i);
    }
  }

  lemma GoingOnIsInside(geo: Geometry, input: seq<Sample>, i: int)
    requires GoesOn(geo, input, i)
    ensures 0 < i < |input|
  {
  }

  lemma BeginsStill(geo: Geometry, input: seq<Sample>, all: seq<seq<nat>>, more: seq<seq<nat>>, b: nat)
    requires Extends(all, more) && Begins(geo, input, all, b)
    ensures Begins(geo, input, more, b)
  {
    hide Stays, GoesOn;
    if GoesOn(geo, input, b) {
      GoingOnIsInside(geo, input, b);
      var k, j, a: nat :| IsAt(all, k, j, a) && a < b && Stays(geo, input, a, b - 1) && Metres(geo, input, a, b) > 5000.0;
      assert IsAt(more, k, j, a);
    }
  }

  /** The samples so far stay placed and kept; only the new one is left to be shown. */
  lemma TracedOn(geo: Geometry, input: seq<Sample>, n: nat, stream: Stream, all: seq<seq<nat>>, after: Stream, more: seq<seq<nat>>)
    requires Traced(geo, input, n, stream, all) && n < |input| && Extends(all, more) && |more| > 0
    requires AllMatch(geo, input, after.closed + [after.open], more) && AllMove(geo, input, more) && InOrder(more, n + 1)
    requires Usable(geo, input, n) ==> Placed(geo, input, more, n)
    requires Kept(geo, input, more, n) && Tail(geo, input, n + 1, after, more[|more| - 1])
    requires forall k :: 0 <= k < |more| && more[k] != [] ==>
                           (k < |all| && all[k] != []) || (more[k][0] == n && Begins(geo, input, more, n))
    ensures Traced(geo, input, n + 1, after, more)
  {
    hide Placed, Kept, AllMatch, AllMove, InOrder, Tail, Usable, Begins;
    forall k | 0 <= k < |more| && more[k] != []
      ensures Begins(geo, input, more, more[k][0])
    {
      if k < |all| && all[k] != [] {
        assert all[k] <= more[k];
        BeginsStill(geo, input, all, more, all[k][0]);
      }
    }
    forall i: nat | i < n + 1
      ensures Usable(geo, input, i) ==> Placed(geo, input, more, i)
      ensures Kept(geo, input, more, i)
    {
      PlacedStays(geo, input, all, more, i);
    }
  }

  /** A segment is closed; the next one is still empty. */
  lemma ClosingMatches(geo: Geometry, input: seq<Sample>, stream: Stream, all: seq<seq<nat>>, n: nat)
    requires AllMatch(geo, input, stream.closed + [stream.open], all) && AllMove(geo, input, all) && InOrder(all, n)
    ensures var more := all + [[]];
            && AllMatch(geo, input, Close(stream).closed + [Close(stream).open], more) && AllMove(geo, input, more) && InOrder(more, n)
            && Extends(all, more)
  {
    hide Moves;
  }

  /** Sample `n` goes last. */
  lemma AddingMatches(geo: Geometry, input: seq<Sample>, stream: Stream, all: seq<seq<nat>>, n: nat, at: Option<int>)
    requires |all| > 0 && AllMatch(geo, input, stream.closed + [stream.open], all) && AllMove(geo, input, all) && InOrder(all, n)
    requires n < |input| && Usable(geo, input, n)
    requires var open := all[|all| - 1]; open != [] ==> Moves(geo, input, open[|open| - 1], n)
    ensures var more := all[|all| - 1 := all[|all| - 1] + [n]];
            var after := Join(stream, Point(input[n].drive, Spot(geo, input, n)), at);
            && AllMatch(geo, input, after.closed + [after.open], more) && AllMove(geo, input, more) && InOrder(more, n + 1)
            && Extends(all, more)
  {
    hide Moves, Usable;
    var last := |all| - 1;
    var open := all[last];
    var more := all[last := open + [n]];
    var after := Join(stream, Point(input[n].drive, Spot(geo, input, n)), at);
    var before := stream.closed + [stream.open];
    var now := after.closed + [after.open];
    assert |before| == |all| && now == before[last := before[last] + [Point(input[n].drive, Spot(geo, input, n))]];
    forall k | 0 <= k < |more|
      ensures Matches(geo, input, now[k], more[k])
    {
      assert Matches(geo, input, before[k], all[k]);
    }
    forall k, j | 0 <= k < |more| && 0 < j < |more[k]|
      ensures Moves(geo, input, more[k][j - 1], more[k][j])
    {
      if k < last || j < |open| {
        assert Moves(geo, input, all[k][j - 1], all[k][j]);
      }
    }
  }

  lemma OrderLoosens(all: seq<seq<nat>>, n: nat)
    requires InOrder(all, n)
    ensures InOrder(all, n + 1)
  {
  }

  // ---------- One sample more ----------

  lemma SkippingTraces(geo: Geometry, input: seq<Sample>, n: nat, stream: Stream, all: seq<seq<nat>>)
    requires Traced(geo, input, n, stream, all) && n < |input| && !Usable(geo, input, n)
    ensures Traced(geo, input, n + 1, Close(stream).(cursor := stream.cursor.(last := None)), all + [[]])
  {
    hide Placed, AllMatch, AllMove, InOrder, Extends, Kept;
    ClosingMatches(geo, input, stream, all, n);
    OrderLoosens(all + [[]], n);
    UnusableIsKept(geo, input, all + [[]], n);
    TracedOn(geo, input, n, stream, all, Close(stream).(cursor := stream.cursor.(last := None)), all + [[]]);
  }

  lemma UnusableIsKept(geo: Geometry, input: seq<Sample>, all: seq<seq<nat>>, n: nat)
    requires !GoesOn(geo, input, n)
    ensures Kept(geo, input, all, n) && Begins(geo, input, all, n)
  {
  }

  lemma StaysAlone(geo: Geometry, input: seq<Sample>, n: nat)
    requires Usable(geo, input, n)
    ensures Stays(geo, input, n, n)
  {
  }

  /** The sample begins a segment: in the empty one that is open. */
  lemma BeginningTraces(geo: Geometry, input: seq<Sample>, n: nat, before: Stream, all: seq<seq<nat>>, stream: Stream, more: seq<seq<nat>>)
    returns (all': seq<seq<nat>>)
    requires Traced(geo, input, n, before, all) && n < |input| && Usable(geo, input, n)
    requires Extends(all, more) && |more| > 0 && more[|more| - 1] == []
    requires AllMatch(geo, input, stream.closed + [stream.open], more) && AllMove(geo, input, more) && InOrder(more, n)
    requires stream.cursor.drive == Some(input[n].drive) && Kept(geo, input, more, n) && Begins(geo, input, more, n)
    requires forall k :: 0 <= k < |more| && more[k] != [] ==> k < |all| && all[k] != []
    ensures Traced(geo, input, n + 1, Join(stream, Point(input[n].drive, Spot(geo, input, n)), input[n].at), all')
  {
    hide AllMatch, AllMove, InOrder, Kept, GoesOn, Traced, Begins;
    var last := |more| - 1;
    all' := more[last := more[last] + [n]];
    var after := Join(stream, Point(input[n].drive, Spot(geo, input, n)), input[n].at);
    AddingMatches(geo, input, stream, more, n, input[n].at);
    StaysAlone(geo, input, n);
    assert IsAt(all', last, 0, n);
    assert Placed(geo, input, all', n);
    PlacedStays(geo, input, more, all', n);
    BeginsStill(geo, input, more, all', n);
    assert Tail(geo, input, n + 1, after, all'[last]);
    TracedOn(geo, input, n, before, all, after, all');
  }

  /** Where the car is when its drive goes on. */
  lemma OpenStays(geo: Geometry, input: seq<Sample>, n: nat, stream: Stream, all: seq<seq<nat>>)
    requires Traced(geo, input, n, stream, all) && GoesOn(geo, input, n)
    ensures 0 < n < |input| && all[|all| - 1] != [] && Stays(geo, input, all[|all| - 1][|all[|all| - 1]| - 1], n - 1)
    ensures stream.cursor.last.Some? && Usable(geo, input, n)
    ensures all[|all| - 1][|all[|all| - 1]| - 1] < n
  {
    hide Placed, Kept, AllMatch, AllMove, InOrder;
  }

  lemma StaysOn(geo: Geometry, input: seq<Sample>, a: nat, n: nat)
    requires n > 0 && Stays(geo, input, a, n - 1) && GoesOn(geo, input, n)
    ensures Metres(geo, input, a, n) < 0.25 ==> Stays(geo, input, a, n)
    ensures 0.25 <= Metres(geo, input, a, n) <= 5000.0 ==> Moves(geo, input, a, n)
  {
  }

  lemma IsKept(geo: Geometry, input: seq<Sample>, all: seq<seq<nat>>, k: nat, j: nat, a: nat, n: nat)
    requires IsAt(all, k, j, a) && a < n < |input| && Stays(geo, input, a, n - 1) && StaysTogether(geo, input, all, k, j, a, n)
    ensures Kept(geo, input, all, n)
  {
  }

  lemma IsPlaced(geo: Geometry, input: seq<Sample>, all: seq<seq<nat>>, k: nat, j: nat, a: nat, n: nat)
    requires IsAt(all, k, j, a) && Stays(geo, input, a, n)
    ensures Placed(geo, input, all, n)
  {
  }

  /** The car has not moved. */
  lemma RepeatingTraces(geo: Geometry, input: seq<Sample>, n: nat, stream: Stream, all: seq<seq<nat>>)
    requires Traced(geo, input, n, stream, all) && GoesOn(geo, input, n) && n < |input| && stream.cursor.last.Some?
    requires var open := all[|all| - 1]; open != [] && open[|open| - 1] < n && Metres(geo, input, open[|open| - 1], n) < 0.25
    ensures Traced(geo, input, n + 1, stream.(cursor := stream.cursor.(last := Some(stream.cursor.last.value.(at := input[n].at)))), all)
  {
    hide AllMatch, AllMove, InOrder, GoesOn, Stays, Moves, Placed, Kept, Begins;
    var open := all[|all| - 1];
    var a := open[|open| - 1];
    var after := stream.(cursor := stream.cursor.(last := Some(stream.cursor.last.value.(at := input[n].at))));
    OpenStays(geo, input, n, stream, all);
    StaysOn(geo, input, a, n);
    IsPlaced(geo, input, all, |all| - 1, |open| - 1, a, n);
    IsKept(geo, input, all, |all| - 1, |open| - 1, a, n);
    OrderLoosens(all, n);
    GoesOnWithDrive(geo, input, n);
    TracedOn(geo, input, n, stream, all, after, all);
  }

  lemma GoesOnWithDrive(geo: Geometry, input: seq<Sample>, n: nat)
    requires GoesOn(geo, input, n)
    ensures Usable(geo, input, n - 1) && Usable(geo, input, n) && input[n].drive == input[n - 1].drive
  {
  }

  /** The car has moved on within reach. */
  lemma MovingTraces(geo: Geometry, input: seq<Sample>, n: nat, stream: Stream, all: seq<seq<nat>>) returns (all': seq<seq<nat>>)
    requires Traced(geo, input, n, stream, all) && GoesOn(geo, input, n) && n < |input|
    requires var open := all[|all| - 1]; open != [] && open[|open| - 1] < n && 0.25 <= Metres(geo, input, open[|open| - 1], n) <= 5000.0
    ensures Traced(geo, input, n + 1, Join(stream, Point(input[n].drive, Spot(geo, input, n)), input[n].at), all')
  {
    hide AllMatch, AllMove, InOrder, GoesOn, Stays, Moves, Placed, Kept, Begins;
    var last := |all| - 1;
    var open := all[last];
    var a := open[|open| - 1];
    all' := all[last := open + [n]];
    var after := Join(stream, Point(input[n].drive, Spot(geo, input, n)), input[n].at);
    OpenStays(geo, input, n, stream, all);
    GoesOnWithDrive(geo, input, n);
    StaysOn(geo, input, a, n);
    StaysAlone(geo, input, n);
    AddingMatches(geo, input, stream, all, n, input[n].at);
    IsPlaced(geo, input, all', last, |open|, n, n);
    IsKept(geo, input, all', last, |open| - 1, a, n);
    TracedOn(geo, input, n, stream, all, after, all');
  }

  lemma JumpBegins(geo: Geometry, input: seq<Sample>, all: seq<seq<nat>>, k: nat, j: nat, a: nat, n: nat)
    requires IsAt(all, k, j, a) && a < n < |input| && Stays(geo, input, a, n - 1) && Metres(geo, input, a, n) > 5000.0
    ensures Begins(geo, input, all, n)
  {
  }

  /** The car has jumped: what it has left stays, and it goes on in a segment of its own. */
  lemma JumpIsKept(geo: Geometry, input: seq<Sample>, n: nat, stream: Stream, all: seq<seq<nat>>)
    requires Traced(geo, input, n, stream, all) && GoesOn(geo, input, n) && n < |input|
    requires var open := all[|all| - 1]; open != [] && open[|open| - 1] < n && Metres(geo, input, open[|open| - 1], n) > 5000.0
    ensures Kept(geo, input, all + [[]], n) && Begins(geo, input, all + [[]], n)
  {
    hide AllMatch, AllMove, InOrder, GoesOn, Stays, Placed, Kept, Begins;
    var open := all[|all| - 1];
    OpenStays(geo, input, n, stream, all);
    JumpBegins(geo, input, all + [[]], |all| - 1, |open| - 1, open[|open| - 1], n);
    IsKept(geo, input, all + [[]], |all| - 1, |open| - 1, open[|open| - 1], n);
  }

  // ---------- The next sample ----------

  lemma GoesOnExactly(geo: Geometry, input: seq<Sample>, n: nat, stream: Stream, all: seq<seq<nat>>)
    requires Traced(geo, input, n, stream, all) && n < |input| && Usable(geo, input, n)
    ensures GoesOn(geo, input, n) <==>
              stream.cursor.drive == Some(input[n].drive) && stream.cursor.last.Some? && !TimeGap(stream.cursor.last.value.at, input[n].at)
    ensures stream.cursor.drive == Some(input[n].drive) && stream.cursor.last.Some? ==>
              var open := all[|all| - 1];
              open != [] && open[|open| - 1] < n && stream.cursor.last.value.pos == Spot(geo, input, open[|open| - 1])
    ensures stream.cursor.last.None? ==> all[|all| - 1] == []
  {
    hide Placed, Kept, AllMatch, AllMove, InOrder;
  }

  /** After the open segment has been closed. */
  lemma BeginningAnew(geo: Geometry, input: seq<Sample>, n: nat, stream: Stream, all: seq<seq<nat>>, cursor: Cursor)
    returns (all': seq<seq<nat>>)
    requires Traced(geo, input, n, stream, all) && n < |input| && Usable(geo, input, n) && Kept(geo, input, all + [[]], n)
    requires Begins(geo, input, all + [[]], n)
    requires cursor.drive == Some(input[n].drive)
    ensures Traced(geo, input, n + 1, Join(Close(stream).(cursor := cursor), Point(input[n].drive, Spot(geo, input, n)), input[n].at), all')
  {
    hide Placed, Kept, AllMatch, AllMove, InOrder, Tail, Begins;
    ClosingMatches(geo, input, stream, all, n);
    var closed := Close(stream).(cursor := cursor);
    assert AllMatch(geo, input, closed.closed + [closed.open], all + [[]]);
    all' := BeginningTraces(geo, input, n, stream, all, closed, all + [[]]);
  }

  /** In the empty segment that is open. */
  lemma BeginningOpen(geo: Geometry, input: seq<Sample>, n: nat, stream: Stream, all: seq<seq<nat>>) returns (all': seq<seq<nat>>)
    requires Traced(geo, input, n, stream, all) && n < |input| && Usable(geo, input, n) && Kept(geo, input, all, n) && Begins(geo, input, all, n)
    requires stream.cursor.drive == Some(input[n].drive) && |all| > 0 && all[|all| - 1] == []
    ensures Traced(geo, input, n + 1, Join(stream, Point(input[n].drive, Spot(geo, input, n)), input[n].at), all')
  {
    hide Placed, Kept, AllMatch, AllMove, InOrder, Tail, Begins;
    all' := BeginningTraces(geo, input, n, stream, all, stream, all);
  }

  lemma NextSampleTraces(geo: Geometry, input: seq<Sample>, n: nat, stream: Stream, all: seq<seq<nat>>) returns (all': seq<seq<nat>>)
    requires Traced(geo, input, n, stream, all) && n < |input| && |all| > 0
    ensures Traced(geo, input, n + 1, Advance(geo, false, stream, input[n]), all') && |all'| > 0
  {
    hide Traced, Kept, Begins, GoesOn, Stays, TimeGap;
    if !Usable(geo, input, n) {
      SkippingTraces(geo, input, n, stream, all);
      all' := all + [[]];
    } else {
      all' := UsableTraces(geo, input, n, stream, all);
    }
    TracedIsNotEmpty(geo, input, n + 1, Advance(geo, false, stream, input[n]), all');
  }

  lemma TracedIsNotEmpty(geo: Geometry, input: seq<Sample>, n: nat, stream: Stream, all: seq<seq<nat>>)
    requires Traced(geo, input, n, stream, all)
    ensures |all| > 0
  {
  }

  lemma UsableTraces(geo: Geometry, input: seq<Sample>, n: nat, stream: Stream, all: seq<seq<nat>>) returns (all': seq<seq<nat>>)
    requires Traced(geo, input, n, stream, all) && n < |input| && |all| > 0 && Usable(geo, input, n)
    ensures Traced(geo, input, n + 1, Advance(geo, false, stream, input[n]), all')
  {
    hide Traced, Kept, Begins, GoesOn, Stays, TimeGap;
    GoesOnExactly(geo, input, n, stream, all);
    var open := all[|all| - 1];
    if stream.cursor.drive != Some(input[n].drive) {
      UnusableIsKept(geo, input, all + [[]], n);
      all' := BeginningAnew(geo, input, n, stream, all, Cursor(Some(input[n].drive), None));
    } else if stream.cursor.last.None? {
      UnusableIsKept(geo, input, all, n);
      all' := BeginningOpen(geo, input, n, stream, all);
    } else if TimeGap(stream.cursor.last.value.at, input[n].at) {
      UnusableIsKept(geo, input, all + [[]], n);
      all' := BeginningAnew(geo, input, n, stream, all, stream.cursor);
    } else if Metres(geo, input, open[|open| - 1], n) > 5000.0 {
      JumpIsKept(geo, input, n, stream, all);
      all' := BeginningAnew(geo, input, n, stream, all, stream.cursor);
    } else if Metres(geo, input, open[|open| - 1], n) < 0.25 {
      RepeatingTraces(geo, input, n, stream, all);
      all' := all;
    } else {
      all' := MovingTraces(geo, input, n, stream, all);
    }
  }

  lemma NothingTraced(geo: Geometry, input: seq<Sample>)
    ensures Traced(geo, input, 0, Stream(Cursor(None, None), [], []), [[]])
  {
  }

  lemma {:induction false} StreamIsTraced(geo: Geometry, input: seq<Sample>, n: nat) returns (all: seq<seq<nat>>)
    requires n <= |input|
    ensures Traced(geo, input, n, Streamed(geo, false, input[..n]), all) && |all| > 0
  {
    hide Traced, Advance;
    if n == 0 {
      NothingTraced(geo, input);
      all := [[]];
    } else {
      all := StreamIsTraced(geo, input, n - 1);
      assert input[..n][..n - 1] == input[..n - 1];
      all := NextSampleTraces(geo, input, n - 1, Streamed(geo, false, input[..n - 1]), all);
    }
  }

  // ---------- A whole input ----------

  /** Main result on cutting, over any input. The points of the segments are samples, in order and
      none twice. Within a segment the car moves from each to the next in time, within reach and
      without an unusable sample or another drive between, also while it stays where it is. And
      nothing is lost or cut without need: every usable sample is in a segment or is one where the
      car has only stayed, a sample that goes on within reach stays in the segment, and none begins
      but where nothing goes on or with a jump. */
  lemma SegmentsExactly(geo: Geometry, input: seq<Sample>) returns (all: seq<seq<nat>>)
    ensures AllMatch(geo, input, Segments(geo, false, input), all)
    ensures AllMove(geo, input, all) && InOrder(all, |input|)
    ensures forall i: nat :: i < |input| && Usable(geo, input, i) ==> Placed(geo, input, all, i)
    ensures forall i: nat :: i < |input| ==> Kept(geo, input, all, i)
    ensures AllBegin(geo, input, all)
  {
    hide Placed, Kept, AllMatch, AllMove, InOrder, AllBegin, Streamed;
    all := StreamIsTraced(geo, input, |input|);
    assert input[..|input|] == input;
  }

  /** So no segment leads over a pause of more than two minutes, or back in time. */
  lemma NoPauseIsBridged(geo: Geometry, input: seq<Sample>, all: seq<seq<nat>>, k: nat, j: nat, i: nat)
    requires AllMove(geo, input, all) && k < |all| && 0 < j < |all[k]| && all[k][j - 1] < i <= all[k][j]
    ensures i < |input| && Usable(geo, input, i) && Usable(geo, input, i - 1) && input[i].drive == input[i - 1].drive
    ensures InTime(input[i - 1].at, input[i].at)
  {
    assert Moves(geo, input, all[k][j - 1], all[k][j]);
    assert GoesOn(geo, input, i);
  }

  /** Where only visits are counted, nothing is drawn. */
  lemma {:induction false} CountingDrawsNothing(geo: Geometry, input: seq<Sample>)
    ensures forall k :: 0 <= k < |Segments(geo, true, input)| ==> Segments(geo, true, input)[k] == []
    ensures Streamed(geo, true, input).open == []
    ensures forall k :: 0 <= k < |Streamed(geo, true, input).closed| ==> Streamed(geo, true, input).closed[k] == []
  {
    if input != [] {
      CountingDrawsNothing(geo, input[..|input| - 1]);
    }
  }
}
