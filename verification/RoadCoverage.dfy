/** What a stream of positions means as road coverage: how it is cut into segments, how a
    segment is chunked and simplified, how the global point budget clips trails, and how
    visits are counted. The builder class is proved against these functions. */
module RoadCoverage {
  import opened RoadSimplify
  import opened Wrappers

  datatype Cell = Cell(y: int, x: int)

  /** The numeric geometry the builder is parametric in. A NULL or NaN coordinate is one
      for which `valid` is false. */
  datatype Geometry = Geometry(
    valid: Coord -> bool,
    round5: Coord -> Coord,
    cell: Coord -> Cell,
    haversine: (Coord, Coord) -> real,
    segment: SegmentDistance)

  /** One database row; `at` is None for the zero instant. Instants are nanoseconds. */
  datatype Sample = Sample(drive: int, pos: Coord, at: Option<int>)

  const MAX_PENDING := 4096
  const CHUNK_METRES := 1000.0
  const GAP_METRES := 5000.0
  const DUPLICATE_METRES := 0.25
  const GAP_NANOSECONDS := 120_000_000_000

  function Epsilon(spacing: real): (epsilon: real)
    ensures epsilon > 0.0 && epsilon <= 10.0
  {
    var e := if spacing / 6.0 < 10.0 then spacing / 6.0 else 10.0;
    if e <= 0.0 then 10.0 else e
  }

  // ---------- Cutting the stream into segments ----------

  datatype Last = Last(pos: Coord, at: Option<int>)

  /** Where the cutter is: the current drive and the last position that counted. */
  datatype Cursor = Cursor(drive: Option<int>, last: Option<Last>)

  predicate TimeGap(before: Option<int>, at: Option<int>) {
    at.Some? && before.Some? && (at.value - before.value > GAP_NANOSECONDS || at.value < before.value)
  }

  datatype Stream = Stream(cursor: Cursor, closed: seq<seq<Point>>, open: seq<Point>)

  function Close(stream: Stream): Stream {
    stream.(closed := stream.closed + [stream.open], open := [])
  }

  function StartDrive(stream: Stream, drive: int): Stream {
    if stream.cursor.drive == Some(drive) then stream
    else Close(stream).(cursor := Cursor(Some(drive), None))
  }

  function Join(stream: Stream, p: Point, at: Option<int>): Stream {
    stream.(cursor := stream.cursor.(last := Some(Last(p.pos, at))), open := stream.open + [p])
  }

  /** A usable sample of the current drive: it may end the segment, repeat the last position,
      or join the segment. */
  function Enter(geo: Geometry, stream: Stream, s: Sample): Stream {
    var p := Point(s.drive, geo.round5(s.pos));
    match stream.cursor.last
    case None => Join(stream, p, s.at)
    case Some(last) =>
      var distance := geo.haversine(last.pos, p.pos);
      if TimeGap(last.at, s.at) || distance > GAP_METRES then Join(Close(stream), p, s.at)
      else if distance < DUPLICATE_METRES then stream.(cursor := stream.cursor.(last := Some(last.(at := s.at))))
      else Join(stream, p, s.at)
  }

  function Advance(geo: Geometry, countOnly: bool, stream: Stream, s: Sample): Stream {
    if !geo.valid(s.pos) then Close(stream).(cursor := stream.cursor.(last := None))
    else
      var here := StartDrive(stream, s.drive);
      if countOnly then here else Enter(geo, here, s)
  }

  function Streamed(geo: Geometry, countOnly: bool, history: seq<Sample>): Stream {
    if history == [] then Stream(Cursor(None, None), [], [])
    else Advance(geo, countOnly, Streamed(geo, countOnly, history[..|history| - 1]), history[|history| - 1])
  }

  lemma StreamedSnoc(geo: Geometry, countOnly: bool, history: seq<Sample>, s: Sample)
    ensures Streamed(geo, countOnly, history + [s]) == Advance(geo, countOnly, Streamed(geo, countOnly, history), s)
  {
    assert (history + [s])[..|history|] == history;
  }

  /** The raw segments of a whole input: the samples each trail is drawn from. */
  function Segments(geo: Geometry, countOnly: bool, history: seq<Sample>): seq<seq<Point>> {
    Close(Streamed(geo, countOnly, history)).closed
  }

  /** Consecutive samples of a segment belong to one drive and are neither duplicates nor
      across a jump. */
  ghost predicate Continuous(geo: Geometry, raw: seq<Point>) {
    forall i :: 0 < i < |raw| ==>
                  && raw[i].drive == raw[i - 1].drive
                  && DUPLICATE_METRES <= geo.haversine(raw[i - 1].pos, raw[i].pos) <= GAP_METRES
  }

  ghost predicate GoodStream(geo: Geometry, stream: Stream) {
    && (forall k :: 0 <= k < |stream.closed| ==> Continuous(geo, stream.closed[k]))
    && Continuous(geo, stream.open)
    && (stream.cursor.last.Some? <==> stream.open != [])
    && (stream.open != [] ==>
          && stream.cursor.last.value.pos == stream.open[|stream.open| - 1].pos
          && stream.cursor.drive == Some(stream.open[|stream.open| - 1].drive))
  }

  lemma {:induction false} SegmentHasOneDrive(geo: Geometry, raw: seq<Point>, i: nat)
    requires Continuous(geo, raw) && i < |raw|
    ensures raw[i].drive == raw[0].drive
  {
    if i > 0 {
      SegmentHasOneDrive(geo, raw, i - 1);
    }
  }

  lemma JoinNeverBridges(geo: Geometry, stream: Stream, p: Point, at: Option<int>)
    requires GoodStream(geo, stream) && stream.cursor.drive == Some(p.drive)
    requires stream.open != [] ==> DUPLICATE_METRES <= geo.haversine(stream.cursor.last.value.pos, p.pos) <= GAP_METRES
    ensures GoodStream(geo, Join(stream, p, at))
  {
  }

  lemma CloseNeverBridges(geo: Geometry, stream: Stream)
    requires GoodStream(geo, stream)
    ensures GoodStream(geo, Close(stream).(cursor := stream.cursor.(last := None)))
  {
  }

  lemma AdvanceNeverBridges(geo: Geometry, countOnly: bool, stream: Stream, s: Sample)
    requires GoodStream(geo, stream)
    ensures GoodStream(geo, Advance(geo, countOnly, stream, s))
  {
    CloseNeverBridges(geo, stream);
    if geo.valid(s.pos) && !countOnly {
      var here := StartDrive(stream, s.drive);
      assert GoodStream(geo, here);
      var p := Point(s.drive, geo.round5(s.pos));
      CloseNeverBridges(geo, here);
      var empty := Close(here).(cursor := here.cursor.(last := None));
      JoinNeverBridges(geo, empty, p, s.at);
      assert Join(empty, p, s.at) == Join(Close(here), p, s.at);
      if here.open == [] || DUPLICATE_METRES <= geo.haversine(here.cursor.last.value.pos, p.pos) <= GAP_METRES {
        JoinNeverBridges(geo, here, p, s.at);
      }
    }
  }

  /** No segment bridges a jump or a change of drive, or repeats a position; RoadSegments says what
      more its samples have in common. */
  lemma {:induction false} SegmentsNeverBridge(geo: Geometry, countOnly: bool, history: seq<Sample>)
    ensures GoodStream(geo, Streamed(geo, countOnly, history))
    ensures forall k :: 0 <= k < |Segments(geo, countOnly, history)| ==>
                          Continuous(geo, Segments(geo, countOnly, history)[k])
  {
    if history != [] {
      var rest := history[..|history| - 1];
      SegmentsNeverBridge(geo, countOnly, rest);
      AdvanceNeverBridges(geo, countOnly, Streamed(geo, countOnly, rest), history[|history| - 1]);
    }
  }

  /** What the cursor says about the open segment. */
  ghost predicate CursorAtEnd(stream: Stream) {
    && (stream.cursor.last.Some? <==> stream.open != [])
    && (stream.open != [] ==>
          && stream.cursor.last.value.pos == stream.open[|stream.open| - 1].pos
          && stream.cursor.drive == Some(stream.open[0].drive))
  }

  lemma StreamedCursor(geo: Geometry, countOnly: bool, history: seq<Sample>)
    ensures CursorAtEnd(Streamed(geo, countOnly, history))
  {
    hide Streamed;
    SegmentsNeverBridge(geo, countOnly, history);
    var stream := Streamed(geo, countOnly, history);
    if stream.open != [] {
      SegmentHasOneDrive(geo, stream.open, |stream.open| - 1);
    }
  }

  // ---------- Chunking one segment ----------

  /** Chunks already flushed, the pending chunk and its travelled length. Each chunk starts
      with the last sample of the one before it. */
  datatype Chunking = Chunking(flushed: seq<seq<Point>>, pending: seq<Point>, length: real)

  function Chunked(geo: Geometry, raw: seq<Point>): (c: Chunking)
    ensures raw != [] ==> c.pending != [] && c.pending[|c.pending| - 1] == raw[|raw| - 1]
  {
    if raw == [] then Chunking([], [], 0.0)
    else
      var n := |raw|;
      var before := Chunked(geo, raw[..n - 1]);
      var pending := before.pending + [raw[n - 1]];
      var length := if n == 1 then before.length
                    else before.length + geo.haversine(raw[n - 2].pos, raw[n - 1].pos);
      if |pending| >= MAX_PENDING || length >= CHUNK_METRES then
        Chunking(before.flushed + [pending], [raw[n - 1]], 0.0)
      else Chunking(before.flushed, pending, length)
  }

  lemma ChunkedSnoc(geo: Geometry, raw: seq<Point>, p: Point)
    ensures var before, after := Chunked(geo, raw), Chunked(geo, raw + [p]);
            var pending := before.pending + [p];
            var length := if raw == [] then before.length else before.length + geo.haversine(raw[|raw| - 1].pos, p.pos);
            after == if |pending| >= MAX_PENDING || length >= CHUNK_METRES
                     then Chunking(before.flushed + [pending], [p], 0.0)
                     else Chunking(before.flushed, pending, length)
  {
    assert (raw + [p])[..|raw|] == raw;
  }

  /** Appending simplified points while dropping a point equal to the one before it. */
  function Append(trail: seq<Point>, points: seq<Point>): (r: seq<Point>)
    ensures |r| >= |trail| && r[..|trail|] == trail
    ensures |r| <= |trail| + |points|
  {
    if points == [] then trail
    else
      var before := Append(trail, points[..|points| - 1]);
      var p := points[|points| - 1];
      if before != [] && before[|before| - 1].pos == p.pos then before else before + [p]
  }

  function Joined(geo: Geometry, epsilon: real, chunks: seq<seq<Point>>): seq<Point> {
    if chunks == [] then []
    else Append(Joined(geo, epsilon, chunks[..|chunks| - 1]), Simplified(geo.segment, chunks[|chunks| - 1], epsilon))
  }

  /** The trail a segment deserves when the budget does not interfere. */
  function FullTrail(geo: Geometry, epsilon: real, raw: seq<Point>): (full: seq<Point>)
    ensures raw == [] ==> full == []
  {
    var c := Chunked(geo, raw);
    if raw == [] then [] else Joined(geo, epsilon, c.flushed + [c.pending])
  }

  // ---------- The point budget ----------

  /** The longest prefix the budget admits; a budget of zero or less means no limit. */
  function Clip(full: seq<Point>, maxPoints: int, used: nat): (kept: seq<Point>)
    ensures kept <= full
    ensures 0 < maxPoints && used <= maxPoints ==> used + |kept| <= maxPoints
  {
    if maxPoints <= 0 || used + |full| <= maxPoints then full
    else if used < maxPoints then full[..maxPoints - used]
    else []
  }

  datatype Ledger = Ledger(trails: seq<seq<Point>>, used: nat, truncated: bool, omitted: nat)

  function Settle(ledger: Ledger, full: seq<Point>, maxPoints: int): Ledger {
    var kept := Clip(full, maxPoints, ledger.used);
    var clipped := |kept| < |full|;
    Ledger(if |kept| >= 2 then ledger.trails + [kept] else ledger.trails,
           if |kept| >= 2 then ledger.used + |kept| else ledger.used,
           ledger.truncated || clipped,
           if clipped then ledger.omitted + 1 else ledger.omitted)
  }

  function Settled(geo: Geometry, epsilon: real, maxPoints: int, segments: seq<seq<Point>>): Ledger {
    if segments == [] then Ledger([], 0, false, 0)
    else
      Settle(Settled(geo, epsilon, maxPoints, segments[..|segments| - 1]),
             FullTrail(geo, epsilon, segments[|segments| - 1]), maxPoints)
  }

  function TotalPoints(trails: seq<seq<Point>>): nat {
    if trails == [] then 0 else TotalPoints(trails[..|trails| - 1]) + |trails[|trails| - 1]|
  }

  /** `trail` is drawn from segment `k`: a prefix of its full trail, all of it unless the
      budget clipped something. */
  ghost predicate DrawnFrom(geo: Geometry, epsilon: real, segments: seq<seq<Point>>, k: int, trail: seq<Point>, truncated: bool)
    requires 0 <= k < |segments|
  {
    var full := FullTrail(geo, epsilon, segments[k]);
    trail <= full && (!truncated ==> trail == full)
  }

  ghost predicate GoodTrail(geo: Geometry, epsilon: real, segments: seq<seq<Point>>, trail: seq<Point>, truncated: bool) {
    && |trail| >= 2
    && exists k :: 0 <= k < |segments| && DrawnFrom(geo, epsilon, segments, k, trail, truncated)
  }

  ghost predicate Conserved(geo: Geometry, epsilon: real, maxPoints: int, segments: seq<seq<Point>>, ledger: Ledger) {
    && ledger.used == TotalPoints(ledger.trails)
    && (maxPoints > 0 ==> ledger.used <= maxPoints)
    && (ledger.truncated <==> ledger.omitted > 0)
    && (forall t :: 0 <= t < |ledger.trails| ==>
                      GoodTrail(geo, epsilon, segments, ledger.trails[t], ledger.truncated))
  }

  lemma NothingConserved(geo: Geometry, epsilon: real, maxPoints: int)
    ensures Conserved(geo, epsilon, maxPoints, [], Ledger([], 0, false, 0))
  {
  }

  lemma SettleConserves(geo: Geometry, epsilon: real, maxPoints: int, rest: seq<seq<Point>>, raw: seq<Point>, before: Ledger)
    requires Conserved(geo, epsilon, maxPoints, rest, before)
    ensures Conserved(geo, epsilon, maxPoints, rest + [raw], Settle(before, FullTrail(geo, epsilon, raw), maxPoints))
  {
    var segments := rest + [raw];
    var full := FullTrail(geo, epsilon, raw);
    var after := Settle(before, full, maxPoints);
    if |Clip(full, maxPoints, before.used)| >= 2 {
      assert after.trails[..|after.trails| - 1] == before.trails;
    }
    forall t | 0 <= t < |after.trails|
      ensures GoodTrail(geo, epsilon, segments, after.trails[t], after.truncated)
    {
      if t < |before.trails| {
        assert GoodTrail(geo, epsilon, rest, before.trails[t], before.truncated);
        var k :| 0 <= k < |rest| && DrawnFrom(geo, epsilon, rest, k, before.trails[t], before.truncated);
        assert segments[k] == rest[k];
        assert DrawnFrom(geo, epsilon, segments, k, after.trails[t], after.truncated);
      } else {
        assert DrawnFrom(geo, epsilon, segments, |rest|, after.trails[t], after.truncated);
      }
    }
  }

  /** Budget conservation: points used are exactly the points of the emitted trails and never
      exceed the budget; every trail is a prefix, of two points or more, of one segment's full
      trail; nothing is missing from it unless truncation is reported; and truncation is
      reported exactly when some segment was counted as omitted. */
  lemma {:induction false} BudgetIsConserved(geo: Geometry, epsilon: real, maxPoints: int, segments: seq<seq<Point>>)
    ensures Conserved(geo, epsilon, maxPoints, segments, Settled(geo, epsilon, maxPoints, segments))
  {
    if segments == [] {
      NothingConserved(geo, epsilon, maxPoints);
    }
    hide Conserved, FullTrail, Settle;
    if segments != [] {
      var n := |segments|;
      var rest := segments[..n - 1];
      BudgetIsConserved(geo, epsilon, maxPoints, rest);
      SettleConserves(geo, epsilon, maxPoints, rest, segments[n - 1], Settled(geo, epsilon, maxPoints, rest));
      assert rest + [segments[n - 1]] == segments;
    }
  }

  // ---------- A full trail follows its samples ----------

  /** Sample `p` is within epsilon of the edge that leaves trail point `m`, or of that point. */
  ghost predicate Near(geo: Geometry, epsilon: real, p: Point, trail: seq<Point>, m: int)
    requires 0 <= m < |trail|
  {
    || p.pos == trail[m].pos
    || geo.segment(p.pos, trail[m].pos, trail[m].pos) <= epsilon
    || (m + 1 < |trail| && geo.segment(p.pos, trail[m].pos, trail[m + 1].pos) <= epsilon)
  }

  ghost predicate IsSampled(raw: seq<Point>, owner: seq<int>, trail: seq<Point>, m: int)
    requires |owner| == |raw| && 0 <= m < |trail|
  {
    exists i :: 0 <= i < |raw| && owner[i] == m && raw[i] == trail[m]
  }

  /** `owner` walks along the trail as the samples go by: it never steps back, it goes from
      the first trail point to the last, every sample is near the edge it is assigned to, and
      every trail point is a sample assigned to itself. */
  ghost predicate Follows(geo: Geometry, epsilon: real, raw: seq<Point>, trail: seq<Point>, owner: seq<int>) {
    && |owner| == |raw| > 0
    && (forall i :: 0 <= i < |raw| ==> 0 <= owner[i] < |trail|)
    && (forall i, k :: 0 <= i <= k < |raw| ==> owner[i] <= owner[k])
    && (forall i :: 0 <= i < |raw| ==> Near(geo, epsilon, raw[i], trail, owner[i]))
    && owner[0] == 0 && owner[|raw| - 1] == |trail| - 1
    && trail[0] == raw[0] && trail[|trail| - 1].pos == raw[|raw| - 1].pos
    && (forall m :: 0 <= m < |trail| ==> IsSampled(raw, owner, trail, m))
  }

  lemma FollowsOneMore(geo: Geometry, epsilon: real, raw: seq<Point>, trail: seq<Point>, owner: seq<int>,
                       piece: seq<Point>, p: Point) returns (owner': seq<int>)
    requires Follows(geo, epsilon, raw, trail, owner)
    requires forall i :: 0 <= i < |piece| ==> geo.segment(piece[i].pos, raw[|raw| - 1].pos, p.pos) <= epsilon
    ensures Follows(geo, epsilon, raw + piece + [p], Append(trail, [p]), owner')
  {
    var m := |trail| - 1;
    assert Append(trail, [p][..0]) == trail;
    var trail' := Append(trail, [p]);
    var raw' := raw + piece + [p];
    owner' := owner + seq(|piece|, _ => m) + [|trail'| - 1];
    forall i | 0 <= i < |raw'|
      ensures Near(geo, epsilon, raw'[i], trail', owner'[i])
    {
      if i < |raw| {
        assert Near(geo, epsilon, raw[i], trail, owner[i]);
      } else if i < |raw'| - 1 {
        assert raw'[i] == piece[i - |raw|];
      }
    }
    forall k | 0 <= k < |trail'|
      ensures IsSampled(raw', owner', trail', k)
    {
      if k <= m {
        assert IsSampled(raw, owner, trail, k);
        SampledStays(raw, owner, trail, k, raw', owner', trail');
      } else {
        assert owner'[|raw'| - 1] == k && raw'[|raw'| - 1] == trail'[k];
      }
    }
  }

  lemma SampledStays(raw: seq<Point>, owner: seq<int>, trail: seq<Point>, m: int, raw': seq<Point>, owner': seq<int>, trail': seq<Point>)
    requires |owner| == |raw| && |owner'| == |raw'| && 0 <= m < |trail| && IsSampled(raw, owner, trail, m)
    requires raw <= raw' && owner <= owner' && trail <= trail'
    ensures IsSampled(raw', owner', trail', m)
  {
    var i :| 0 <= i < |raw| && owner[i] == m && raw[i] == trail[m];
    assert owner'[i] == m && raw'[i] == trail'[m];
  }

  /** One kept point of a chunk more, from the `j - 1`-th to the `j`-th. */
  lemma FollowsNextKept(geo: Geometry, epsilon: real, raw: seq<Point>, trail: seq<Point>, owner: seq<int>,
                        chunk: seq<Point>, lo: int, hi: int, j: int) returns (owner': seq<int>)
    requires var idx := KeptIndices(geo.segment, chunk, epsilon); 0 < j < |idx| && lo == idx[j - 1] < idx[j] == hi
    requires Follows(geo, epsilon, raw, trail, owner) && raw[|raw| - 1] == chunk[lo]
    ensures Follows(geo, epsilon, raw + chunk[lo + 1..hi + 1], Append(trail, [chunk[hi]]), owner')
  {
    var piece := chunk[lo + 1..hi];
    forall i | 0 <= i < |piece|
      ensures geo.segment(piece[i].pos, raw[|raw| - 1].pos, chunk[hi].pos) <= epsilon
    {
      SimplifiedWithinEpsilon(geo.segment, chunk, epsilon, j - 1, lo + 1 + i);
    }
    owner' := FollowsOneMore(geo, epsilon, raw, trail, owner, piece, chunk[hi]);
    assert raw + piece + [chunk[hi]] == raw + chunk[lo + 1..hi + 1];
  }

  lemma AppendTwice(trail: seq<Point>, points: seq<Point>, p: Point)
    ensures Append(trail, points + [p]) == Append(Append(trail, points), [p])
  {
    assert (points + [p])[..|points|] == points;
    assert [p][..0] == [];
  }

  /** `trail` follows the samples `raw` and then `chunk`, which starts where `raw` ends, up to
      the `j`-th point that `chunk` keeps. */
  ghost predicate FollowsUpTo(geo: Geometry, epsilon: real, raw: seq<Point>, trail: seq<Point>, chunk: seq<Point>, j: nat, owner: seq<int>)
    requires j < |KeptIndices(geo.segment, chunk, epsilon)|
  {
    Follows(geo, epsilon, raw + chunk[1..KeptIndices(geo.segment, chunk, epsilon)[j] + 1],
            Append(trail, Simplified(geo.segment, chunk, epsilon)[..j + 1]), owner)
  }

  lemma FollowsFirstKept(geo: Geometry, epsilon: real, raw: seq<Point>, trail: seq<Point>, owner: seq<int>, chunk: seq<Point>)
    requires Follows(geo, epsilon, raw, trail, owner)
    requires chunk != [] && raw[|raw| - 1] == chunk[0]
    ensures KeptIndices(geo.segment, chunk, epsilon) != []
    ensures FollowsUpTo(geo, epsilon, raw, trail, chunk, 0, owner)
  {
    assert trail != [] && trail[|trail| - 1].pos == chunk[0].pos;
    hide Follows;
    SimplifiedIsSubsequence(geo.segment, chunk, epsilon);
    var points := Simplified(geo.segment, chunk, epsilon);
    assert points[..1] == [points[0]] && [points[0]][..0] == [];
    assert Append(trail, points[..1]) == trail;
    assert raw + chunk[1..1] == raw;
  }

  lemma NextKeptSlices(raw: seq<Point>, chunk: seq<Point>, lo: int, hi: int)
    requires raw != [] && chunk != [] && raw[|raw| - 1] == chunk[0] && 0 <= lo < hi < |chunk|
    ensures var raw0 := raw + chunk[1..lo + 1];
            && raw0[|raw0| - 1] == chunk[lo]
            && raw0 + chunk[lo + 1..hi + 1] == raw + chunk[1..hi + 1]
  {
    if lo > 0 {
      assert chunk[1..lo + 1][lo - 1] == chunk[lo];
    }
  }

  lemma AppendNextKept(geo: Geometry, epsilon: real, trail: seq<Point>, chunk: seq<Point>, j: nat)
    requires 0 < j < |KeptIndices(geo.segment, chunk, epsilon)|
    ensures var points := Simplified(geo.segment, chunk, epsilon);
            Append(trail, points[..j + 1]) == Append(Append(trail, points[..j]), [chunk[KeptIndices(geo.segment, chunk, epsilon)[j]]])
  {
    var points := Simplified(geo.segment, chunk, epsilon);
    assert points[..j + 1] == points[..j] + [points[j]];
    AppendTwice(trail, points[..j], points[j]);
  }

  lemma FollowsAnotherKept(geo: Geometry, epsilon: real, raw: seq<Point>, trail: seq<Point>, owner0: seq<int>,
                           chunk: seq<Point>, j: nat) returns (owner: seq<int>)
    requires chunk != [] && raw != [] && raw[|raw| - 1] == chunk[0] && 0 < j < |KeptIndices(geo.segment, chunk, epsilon)|
    requires FollowsUpTo(geo, epsilon, raw, trail, chunk, j - 1, owner0)
    ensures FollowsUpTo(geo, epsilon, raw, trail, chunk, j, owner)
  {
    hide Follows, Simplified, KeptIndices;
    SimplifiedIsSubsequence(geo.segment, chunk, epsilon);
    var idx := KeptIndices(geo.segment, chunk, epsilon);
    NextKeptSlices(raw, chunk, idx[j - 1], idx[j]);
    AppendNextKept(geo, epsilon, trail, chunk, j);
    owner := FollowsNextKept(geo, epsilon, raw + chunk[1..idx[j - 1] + 1],
                             Append(trail, Simplified(geo.segment, chunk, epsilon)[..j]), owner0, chunk, idx[j - 1], idx[j], j);
  }

  lemma {:induction false} FollowsChunkPrefix(geo: Geometry, epsilon: real, raw: seq<Point>, trail: seq<Point>, owner: seq<int>,
                                              chunk: seq<Point>, j: nat) returns (owner': seq<int>)
    requires Follows(geo, epsilon, raw, trail, owner)
    requires chunk != [] && raw[|raw| - 1] == chunk[0]
    requires j < |KeptIndices(geo.segment, chunk, epsilon)|
    ensures FollowsUpTo(geo, epsilon, raw, trail, chunk, j, owner')
    decreases j
  {
    if j == 0 {
      FollowsFirstKept(geo, epsilon, raw, trail, owner, chunk);
      owner' := owner;
    } else {
      var owner0 := FollowsChunkPrefix(geo, epsilon, raw, trail, owner, chunk, j - 1);
      owner' := FollowsAnotherKept(geo, epsilon, raw, trail, owner0, chunk, j);
    }
  }

  lemma FollowsChunk(geo: Geometry, epsilon: real, raw: seq<Point>, trail: seq<Point>, owner: seq<int>, chunk: seq<Point>)
    returns (owner': seq<int>)
    requires Follows(geo, epsilon, raw, trail, owner)
    requires chunk != [] && raw[|raw| - 1] == chunk[0]
    ensures Follows(geo, epsilon, raw + chunk[1..], Append(trail, Simplified(geo.segment, chunk, epsilon)), owner')
  {
    var idx := KeptIndices(geo.segment, chunk, epsilon);
    var points := Simplified(geo.segment, chunk, epsilon);
    SimplifiedIsSubsequence(geo.segment, chunk, epsilon);
    owner' := FollowsChunkPrefix(geo, epsilon, raw, trail, owner, chunk, |idx| - 1);
    assert points[..|idx|] == points;
    assert chunk[1..|chunk|] == chunk[1..];
  }

  lemma {:induction false} AppendFromFirst(points: seq<Point>)
    requires points != []
    ensures Append([], points) == Append([points[0]], points)
  {
    var n := |points|;
    if n == 1 {
      assert points[..0] == [];
    } else {
      AppendFromFirst(points[..n - 1]);
    }
  }

  /** The samples `covered` are those that flushed chunks account for; the pending chunk
      starts with the last of them. */
  ghost predicate FlushedFollows(geo: Geometry, epsilon: real, raw: seq<Point>, c: Chunking, covered: seq<Point>, owner: seq<int>) {
    if c.flushed == [] then covered == [] && c.pending == raw
    else
      && c.pending != [] && covered != [] && covered[|covered| - 1] == c.pending[0]
      && raw == covered + c.pending[1..]
      && Follows(geo, epsilon, covered, Joined(geo, epsilon, c.flushed), owner)
  }

  lemma FollowsStart(geo: Geometry, epsilon: real, p: Point)
    ensures Follows(geo, epsilon, [p], [p], [0])
  {
    assert [0][0] == 0 && [p][0] == p;
    assert IsSampled([p], [0], [p], 0);
  }

  /** Flushing the pending chunk accounts for every sample so far. */
  lemma FlushFollows(geo: Geometry, epsilon: real, raw: seq<Point>, c: Chunking, covered: seq<Point>, owner: seq<int>)
    returns (owner': seq<int>)
    requires raw != [] && c.pending != [] && FlushedFollows(geo, epsilon, raw, c, covered, owner)
    ensures Follows(geo, epsilon, raw, Joined(geo, epsilon, c.flushed + [c.pending]), owner')
  {
    hide Follows;
    assert (c.flushed + [c.pending])[..|c.flushed|] == c.flushed;
    hide Simplified, Append;
    if c.flushed == [] {
      SimplifiedIsSubsequence(geo.segment, raw, epsilon);
      AppendFromFirst(Simplified(geo.segment, raw, epsilon));
      FollowsStart(geo, epsilon, raw[0]);
      owner' := FollowsChunk(geo, epsilon, [raw[0]], [raw[0]], [0], raw);
      assert [raw[0]] + raw[1..] == raw;
    } else {
      owner' := FollowsChunk(geo, epsilon, covered, Joined(geo, epsilon, c.flushed), owner, c.pending);
    }
  }

  lemma PendingGrows(geo: Geometry, epsilon: real, raw: seq<Point>, c: Chunking, p: Point, covered: seq<Point>, owner: seq<int>)
    requires FlushedFollows(geo, epsilon, raw, c, covered, owner)
    ensures FlushedFollows(geo, epsilon, raw + [p], c.(pending := c.pending + [p]), covered, owner)
  {
    hide Follows, Joined;
    if c.flushed != [] {
      assert (c.pending + [p])[1..] == c.pending[1..] + [p];
    }
  }

  lemma NextSampleFollows(geo: Geometry, epsilon: real, raw: seq<Point>, p: Point, covered: seq<Point>, owner: seq<int>)
    returns (covered': seq<Point>, owner': seq<int>)
    requires FlushedFollows(geo, epsilon, raw, Chunked(geo, raw), covered, owner)
    ensures FlushedFollows(geo, epsilon, raw + [p], Chunked(geo, raw + [p]), covered', owner')
  {
    hide Follows, Joined, Chunked;
    ChunkedSnoc(geo, raw, p);
    var c := Chunked(geo, raw);
    var grown := c.(pending := c.pending + [p]);
    PendingGrows(geo, epsilon, raw, c, p, covered, owner);
    if Chunked(geo, raw + [p]).flushed == c.flushed {
      covered', owner' := covered, owner;
    } else {
      owner' := FlushFollows(geo, epsilon, raw + [p], grown, covered, owner);
      covered' := raw + [p];
      assert [p][1..] == [];
    }
  }

  lemma NothingFlushed(geo: Geometry, epsilon: real)
    ensures Chunked(geo, []) == Chunking([], [], 0.0) && Joined(geo, epsilon, []) == []
    ensures FlushedFollows(geo, epsilon, [], Chunked(geo, []), [], [])
  {
  }

  lemma {:induction false} FlushedChunksFollow(geo: Geometry, epsilon: real, raw: seq<Point>) returns (covered: seq<Point>, owner: seq<int>)
    ensures FlushedFollows(geo, epsilon, raw, Chunked(geo, raw), covered, owner)
  {
    hide FlushedFollows, Chunked;
    if raw == [] {
      NothingFlushed(geo, epsilon);
      covered, owner := [], [];
    } else {
      var k := |raw| - 1;
      covered, owner := FlushedChunksFollow(geo, epsilon, raw[..k]);
      covered, owner := NextSampleFollows(geo, epsilon, raw[..k], raw[k], covered, owner);
      assert raw[..k] + [raw[k]] == raw;
    }
  }

  /** Main result on streaming simplification: although a segment is simplified chunk by chunk
      and the pieces are joined with duplicates removed, its full trail runs from its first
      sample to its last in sample order, uses only samples, and every sample stays within
      epsilon of the trail at the place where the trail passes it. */
  lemma FullTrailFollowsSegment(geo: Geometry, epsilon: real, raw: seq<Point>) returns (owner: seq<int>)
    requires raw != []
    ensures Follows(geo, epsilon, raw, FullTrail(geo, epsilon, raw), owner)
  {
    hide Follows, Joined, Chunked, FlushedFollows;
    var covered, owner0 := FlushedChunksFollow(geo, epsilon, raw);
    owner := FlushFollows(geo, epsilon, raw, Chunked(geo, raw), covered, owner0);
  }

  // ---------- Visit heat ----------

  /** The drives of the usable samples that fall in `cell`, in stream order. */
  function CellDrives(geo: Geometry, history: seq<Sample>, cell: Cell): seq<int> {
    if history == [] then []
    else
      var s := history[|history| - 1];
      var before := CellDrives(geo, history[..|history| - 1], cell);
      if geo.valid(s.pos) && geo.cell(geo.round5(s.pos)) == cell then before + [s.drive] else before
  }

  /** The drive remembered for a cell; the zero value of the source's map stands for drive -1. */
  function Remembered(drives: seq<int>): int {
    if drives == [] then -1 else drives[|drives| - 1]
  }

  /** How often the remembered drive changes: what the visit counter counts. */
  function Changes(drives: seq<int>): nat {
    if drives == [] then 0
    else
      var rest := drives[..|drives| - 1];
      Changes(rest) + if Remembered(rest) == drives[|drives| - 1] then 0 else 1
  }

  ghost function Distinct(drives: seq<int>): set<int> {
    set d | d in drives
  }

  /** No drive comes back to the cell after another one was there. */
  ghost predicate Grouped(drives: seq<int>) {
    forall i, j, k :: 0 <= i < j < k < |drives| && drives[i] == drives[k] ==> drives[j] == drives[i]
  }

  /** The counter never falls short of the number of distinct drives, and it equals that number
      exactly when no drive comes back to the cell after another one. */
  lemma {:induction false} ChangesCountDistinct(drives: seq<int>)
    requires -1 !in drives
    ensures Changes(drives) >= |Distinct(drives)|
    ensures Changes(drives) == |Distinct(drives)| <==> Grouped(drives)
  {
    if drives == [] {
      assert Distinct(drives) == {} && Grouped(drives);
    }
    hide Grouped, Distinct;
    if drives != [] {
      var n := |drives| - 1;
      var rest, last := drives[..n], drives[n];
      assert drives == rest + [last];
      ChangesCountDistinct(rest);
      DistinctSnoc(rest, last);
      if n > 0 && rest[n - 1] == last {
        GroupedAgain(rest);
      } else if last in rest {
        NotGrouped(rest, last);
      } else {
        GroupedNew(rest, last);
      }
    }
  }

  lemma DistinctSnoc(rest: seq<int>, last: int)
    ensures |Distinct(rest + [last])| == |Distinct(rest)| + if last in rest then 0 else 1
  {
    assert Distinct(rest + [last]) == Distinct(rest) + {last};
    if last in rest {
      assert Distinct(rest + [last]) == Distinct(rest);
    }
  }

  lemma GroupedAgain(rest: seq<int>)
    requires rest != []
    ensures Grouped(rest + [rest[|rest| - 1]]) <==> Grouped(rest)
  {
    var n := |rest|;
    var drives := rest + [rest[n - 1]];
    if Grouped(rest) {
      forall i, j, k | 0 <= i < j < k < |drives| && drives[i] == drives[k]
        ensures drives[j] == drives[i]
      {
        if k == n && j < n - 1 {
          assert rest[i] == rest[n - 1];
        }
      }
    } else {
      var i, j, k :| 0 <= i < j < k < n && rest[i] == rest[k] && rest[j] != rest[i];
      assert drives[i] == drives[k] && drives[j] != drives[i];
    }
  }

  lemma NotGrouped(rest: seq<int>, last: int)
    requires last in rest && rest[|rest| - 1] != last
    ensures !Grouped(rest + [last])
  {
    var drives, n := rest + [last], |rest|;
    var i :| 0 <= i < n && rest[i] == last;
    assert i < n - 1 < n && drives[i] == drives[n] && drives[n - 1] != drives[i];
  }

  lemma GroupedNew(rest: seq<int>, last: int)
    requires last !in rest
    ensures Grouped(rest + [last]) <==> Grouped(rest)
  {
    var drives := rest + [last];
    if !Grouped(rest) {
      var i, j, k :| 0 <= i < j < k < |rest| && rest[i] == rest[k] && rest[j] != rest[i];
      assert drives[i] == drives[k] && drives[j] != drives[i];
    }
  }

  /** The stream visits each drive once, as an ordering by drive id does. */
  ghost predicate ContiguousDrives(history: seq<Sample>) {
    forall i, j, k :: 0 <= i < j < k < |history| && history[i].drive == history[k].drive ==>
                        history[j].drive == history[i].drive
  }

  /** Where each entry of `CellDrives` comes from. */
  lemma {:induction false} CellDrivesFrom(geo: Geometry, history: seq<Sample>, cell: Cell) returns (at: seq<int>)
    ensures |at| == |CellDrives(geo, history, cell)|
    ensures forall i :: 0 <= i < |at| ==> 0 <= at[i] < |history| && history[at[i]].drive == CellDrives(geo, history, cell)[i]
    ensures forall i, j :: 0 <= i < j < |at| ==> at[i] < at[j]
  {
    if history == [] {
      at := [];
    } else {
      var n := |history| - 1;
      at := CellDrivesFrom(geo, history[..n], cell);
      if |CellDrives(geo, history, cell)| > |at| {
        at := at + [n];
      }
    }
  }

  /** For any input ordered by drive, the visit count of every cell is the number of distinct
      drives with a usable sample in it. */
  lemma VisitsAreDistinctDrives(geo: Geometry, history: seq<Sample>, cell: Cell)
    requires ContiguousDrives(history)
    requires forall i :: 0 <= i < |history| ==> history[i].drive != -1
    ensures Changes(CellDrives(geo, history, cell)) == |Distinct(CellDrives(geo, history, cell))|
  {
    var drives := CellDrives(geo, history, cell);
    var at := CellDrivesFrom(geo, history, cell);
    forall i, j, k | 0 <= i < j < k < |drives| && drives[i] == drives[k]
      ensures drives[j] == drives[i]
    {
      assert at[i] < at[j] < at[k];
      assert history[at[i]].drive == history[at[k]].drive;
    }
    ChangesCountDistinct(drives);
  }

  // ---------- Every drawn point is hot ----------

  ghost predicate FromSample(geo: Geometry, history: seq<Sample>, p: Point) {
    exists i :: 0 <= i < |history| && geo.valid(history[i].pos) && p == Point(history[i].drive, geo.round5(history[i].pos))
  }

  ghost predicate AllFromSamples(geo: Geometry, history: seq<Sample>, points: seq<Point>) {
    forall i :: 0 <= i < |points| ==> FromSample(geo, history, points[i])
  }

  ghost predicate StreamFromSamples(geo: Geometry, history: seq<Sample>, stream: Stream) {
    && (forall k :: 0 <= k < |stream.closed| ==> AllFromSamples(geo, history, stream.closed[k]))
    && AllFromSamples(geo, history, stream.open)
  }

  lemma StillFromSamples(geo: Geometry, history: seq<Sample>, s: Sample, points: seq<Point>)
    requires AllFromSamples(geo, history, points)
    ensures AllFromSamples(geo, history + [s], points)
  {
    forall i | 0 <= i < |points|
      ensures FromSample(geo, history + [s], points[i])
    {
      assert FromSample(geo, history, points[i]);
      var k :| 0 <= k < |history| && geo.valid(history[k].pos) && points[i] == Point(history[k].drive, geo.round5(history[k].pos));
      assert (history + [s])[k] == history[k];
    }
  }

  lemma AdvanceFromSamples(geo: Geometry, countOnly: bool, history: seq<Sample>, stream: Stream, s: Sample)
    requires StreamFromSamples(geo, history, stream)
    ensures StreamFromSamples(geo, history + [s], Advance(geo, countOnly, stream, s))
  {
    forall k | 0 <= k < |stream.closed|
      ensures AllFromSamples(geo, history + [s], stream.closed[k])
    {
      StillFromSamples(geo, history, s, stream.closed[k]);
    }
    StillFromSamples(geo, history, s, stream.open);
    if geo.valid(s.pos) {
      var p := Point(s.drive, geo.round5(s.pos));
      assert (history + [s])[|history|] == s;
      assert FromSample(geo, history + [s], p);
    }
  }

  lemma {:induction false} SegmentsFromSamples(geo: Geometry, countOnly: bool, history: seq<Sample>)
    ensures StreamFromSamples(geo, history, Streamed(geo, countOnly, history))
  {
    if history != [] {
      var rest, s := history[..|history| - 1], history[|history| - 1];
      SegmentsFromSamples(geo, countOnly, rest);
      AdvanceFromSamples(geo, countOnly, rest, Streamed(geo, countOnly, rest), s);
      assert rest + [s] == history;
    }
  }

  lemma {:induction false} SampleIsInItsCell(geo: Geometry, history: seq<Sample>, i: nat)
    requires i < |history| && geo.valid(history[i].pos)
    ensures history[i].drive in CellDrives(geo, history, geo.cell(geo.round5(history[i].pos)))
  {
    if i < |history| - 1 {
      SampleIsInItsCell(geo, history[..|history| - 1], i);
    }
  }

  lemma {:induction false} PresenceIsCounted(drives: seq<int>, drive: int)
    requires drive in drives && drive != -1
    ensures Changes(drives) >= 1
  {
    var n := |drives| - 1;
    if drive in drives[..n] {
      PresenceIsCounted(drives[..n], drive);
    } else if n > 0 {
      assert drives[n - 1] in drives[..n];
    }
  }

  /** Every point of every emitted trail lies in a cell with at least one visit. */
  lemma EmittedHeatIsPositive(geo: Geometry, countOnly: bool, history: seq<Sample>, epsilon: real, maxPoints: int, t: nat, j: nat)
    requires forall i :: 0 <= i < |history| ==> history[i].drive != -1
    requires var trails := Settled(geo, epsilon, maxPoints, Segments(geo, countOnly, history)).trails; t < |trails| && j < |trails[t]|
    ensures var trails := Settled(geo, epsilon, maxPoints, Segments(geo, countOnly, history)).trails;
            Changes(CellDrives(geo, history, geo.cell(trails[t][j].pos))) >= 1
  {
    hide Settled, FullTrail, Streamed;
    var segments := Segments(geo, countOnly, history);
    var ledger := Settled(geo, epsilon, maxPoints, segments);
    BudgetIsConserved(geo, epsilon, maxPoints, segments);
    assert GoodTrail(geo, epsilon, segments, ledger.trails[t], ledger.truncated);
    var k :| 0 <= k < |segments| && DrawnFrom(geo, epsilon, segments, k, ledger.trails[t], ledger.truncated);
    FullTrailIsSampled(geo, epsilon, segments[k], j);
    var i :| 0 <= i < |segments[k]| && segments[k][i] == ledger.trails[t][j];
    SegmentsFromSamples(geo, countOnly, history);
    assert AllFromSamples(geo, history, segments[k]);
    assert FromSample(geo, history, segments[k][i]);
    var h :| 0 <= h < |history| && geo.valid(history[h].pos) && segments[k][i] == Point(history[h].drive, geo.round5(history[h].pos));
    SampleIsInItsCell(geo, history, h);
    PresenceIsCounted(CellDrives(geo, history, geo.cell(ledger.trails[t][j].pos)), history[h].drive);
  }

  lemma FullTrailIsSampled(geo: Geometry, epsilon: real, raw: seq<Point>, j: nat)
    requires j < |FullTrail(geo, epsilon, raw)|
    ensures exists i :: 0 <= i < |raw| && raw[i] == FullTrail(geo, epsilon, raw)[j]
  {
    var full := FullTrail(geo, epsilon, raw);
    var owner := FullTrailFollowsSegment(geo, epsilon, raw);
    assert IsSampled(raw, owner, full, j);
  }

  /** A trail drawn on the map never joins two drives: all its points are samples of one drive. */
  lemma TrailsHaveOneDrive(geo: Geometry, epsilon: real, maxPoints: int, countOnly: bool, history: seq<Sample>, t: nat, j: nat)
    requires t < |Settled(geo, epsilon, maxPoints, Segments(geo, countOnly, history)).trails|
    requires j < |Settled(geo, epsilon, maxPoints, Segments(geo, countOnly, history)).trails[t]|
    ensures var trail := Settled(geo, epsilon, maxPoints, Segments(geo, countOnly, history)).trails[t];
            trail[j].drive == trail[0].drive
  {
    hide Settled, Segments, FullTrail, Continuous;
    var segments := Segments(geo, countOnly, history);
    var ledger := Settled(geo, epsilon, maxPoints, segments);
    var trail := ledger.trails[t];
    BudgetIsConserved(geo, epsilon, maxPoints, segments);
    assert GoodTrail(geo, epsilon, segments, trail, ledger.truncated);
    var k :| 0 <= k < |segments| && DrawnFrom(geo, epsilon, segments, k, trail, ledger.truncated);
    SegmentsNeverBridge(geo, countOnly, history);
    forall i: nat | i < |trail|
      ensures trail[i].drive == segments[k][0].drive
    {
      FullTrailIsSampled(geo, epsilon, segments[k], i);
      var at: nat :| at < |segments[k]| && segments[k][at] == FullTrail(geo, epsilon, segments[k])[i];
      SegmentHasOneDrive(geo, segments[k], at);
    }
  }

  // ---------- Limits ----------

  /** A sixth of the spacing, but no more than ten metres. */
  lemma EpsilonExactly(spacing: real)
    ensures 0.0 < spacing <= 60.0 ==> Epsilon(spacing) * 6.0 == spacing
    ensures spacing <= 0.0 || spacing > 60.0 ==> Epsilon(spacing) == 10.0
  {
  }

  /** The way from each point to the next, in all. */
  function Travelled(geo: Geometry, points: seq<Point>): real {
    if |points| < 2 then 0.0
    else Travelled(geo, points[..|points| - 1]) + geo.haversine(points[|points| - 2].pos, points[|points| - 1].pos)
  }

  /** A chunk that is due: of 4096 points, or over a kilometre. */
  predicate Full(geo: Geometry, chunk: seq<Point>) { |chunk| >= 4096 || Travelled(geo, chunk) >= 1000.0 }

  /** A chunk as it is flushed: full, and not before its last point. */
  predicate JustFull(geo: Geometry, chunk: seq<Point>) { |chunk| >= 2 && Full(geo, chunk) && !Full(geo, chunk[..|chunk| - 1]) }

  /** Each chunk ends where the next one, or what is pending, begins. */
  predicate Linked(flushed: seq<seq<Point>>, pending: seq<Point>, k: nat)
    requires k < |flushed|
  {
    var next := if k + 1 < |flushed| then flushed[k + 1] else pending;
    flushed[k] != [] && next != [] && flushed[k][|flushed[k]| - 1] == next[0]
  }

  ghost predicate WellChunked(geo: Geometry, c: Chunking) {
    && c.pending != [] && c.length == Travelled(geo, c.pending) && !Full(geo, c.pending)
    && (forall k :: 0 <= k < |c.flushed| ==> JustFull(geo, c.flushed[k]) && Linked(c.flushed, c.pending, k))
  }

  lemma ChunkGrows(geo: Geometry, c: Chunking, p: Point)
    requires WellChunked(geo, c)
    ensures var pending := c.pending + [p];
            var length := c.length + geo.haversine(c.pending[|c.pending| - 1].pos, p.pos);
            && length == Travelled(geo, pending)
            && (Full(geo, pending) ==> JustFull(geo, pending))
            && pending[0] == c.pending[0]
  {
    assert (c.pending + [p])[..|c.pending|] == c.pending;
  }

  lemma FlushingLinks(geo: Geometry, c: Chunking, chunk: seq<Point>, p: Point)
    requires WellChunked(geo, c) && JustFull(geo, chunk) && chunk[0] == c.pending[0] && chunk[|chunk| - 1] == p
    ensures WellChunked(geo, Chunking(c.flushed + [chunk], [p], 0.0))
  {
    assert |chunk| >= 2 && !Full(geo, [p]) && Travelled(geo, [p]) == 0.0;
    hide JustFull, Full, Travelled;
    var more := c.flushed + [chunk];
    forall k | 0 <= k < |more|
      ensures JustFull(geo, more[k]) && Linked(more, [p], k)
    {
      if k < |c.flushed| {
        assert JustFull(geo, c.flushed[k]) && Linked(c.flushed, c.pending, k);
      }
    }
  }

  lemma GrowingLinks(geo: Geometry, c: Chunking, pending: seq<Point>, length: real)
    requires WellChunked(geo, c) && pending != [] && pending[0] == c.pending[0] && length == Travelled(geo, pending) && !Full(geo, pending)
    ensures WellChunked(geo, Chunking(c.flushed, pending, length))
  {
    hide JustFull, Full, Travelled;
    forall k | 0 <= k < |c.flushed|
      ensures Linked(c.flushed, pending, k)
    {
      assert Linked(c.flushed, c.pending, k);
    }
  }

  /** Chunks are flushed when they are full and not before, each beginning where the one before it
      ended, so what is pending is never full. */
  lemma {:induction false} ChunksAreFull(geo: Geometry, raw: seq<Point>)
    requires raw != []
    ensures WellChunked(geo, Chunked(geo, raw))
  {
    hide WellChunked, JustFull;
    var n := |raw|;
    if n == 1 {
      OneIsPending(geo, raw[0]);
      assert raw == [raw[0]];
    } else {
      ChunksAreFull(geo, raw[..n - 1]);
      NextIsChunked(geo, raw[..n - 1], raw[n - 1]);
      assert raw[..n - 1] + [raw[n - 1]] == raw;
    }
  }

  lemma OneIsPending(geo: Geometry, p: Point)
    ensures WellChunked(geo, Chunked(geo, [p]))
  {
    assert Chunked(geo, [p]) == Chunking([], [p], 0.0);
  }

  lemma NextIsChunked(geo: Geometry, raw: seq<Point>, p: Point)
    requires raw != [] && WellChunked(geo, Chunked(geo, raw))
    ensures WellChunked(geo, Chunked(geo, raw + [p]))
  {
    var c := Chunked(geo, raw);
    ChunkedSnoc(geo, raw, p);
    ChunkGrows(geo, c, p);
    var pending := c.pending + [p];
    hide WellChunked, JustFull, Chunked, Travelled;
    if Full(geo, pending) {
      FlushingLinks(geo, c, pending, p);
    } else {
      GrowingLinks(geo, c, pending, Travelled(geo, pending));
    }
  }

  /** One segment in the ledger: its whole trail if the budget allows, else as many points as are
      left, counted as omitted; and a single point is no trail. */
  lemma SettlesExactly(ledger: Ledger, full: seq<Point>, maxPoints: int)
    requires maxPoints > 0 ==> ledger.used <= maxPoints
    ensures var after := Settle(ledger, full, maxPoints);
            var fits := maxPoints <= 0 || ledger.used + |full| <= maxPoints;
            var kept := if fits then full else full[..maxPoints - ledger.used];
            && after.trails == (if |kept| >= 2 then ledger.trails + [kept] else ledger.trails)
            && after.used == (if |kept| >= 2 then ledger.used + |kept| else ledger.used)
            && after.truncated == (ledger.truncated || !fits) && after.omitted == (if fits then ledger.omitted else ledger.omitted + 1)
  {
  }
}
