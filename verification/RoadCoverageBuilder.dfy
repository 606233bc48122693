/** The streaming builder itself, proved against the meaning given in RoadCoverage. */
module RoadCoverageBuilder {
  import opened RoadSimplify
  import opened RoadCoverage
  import opened Wrappers

  /** An emitted trail: its drive, its points, and the visits of the cell of each point. */
  datatype Trail = Trail(drive: int, points: seq<Coord>, heat: seq<int>)

  function Coords(points: seq<Point>): (coords: seq<Coord>)
    ensures |coords| == |points|
  {
    seq(|points|, i requires 0 <= i < |points| => points[i].pos)
  }

  ghost predicate Renders(trail: Trail, points: seq<Point>) {
    points != [] && trail.points == Coords(points) && trail.drive == points[0].drive
  }

  ghost predicate RendersAll(trails: seq<Trail>, all: seq<seq<Point>>) {
    |trails| == |all| && forall t :: 0 <= t < |trails| ==> Renders(trails[t], all[t])
  }

  ghost predicate Heated(geo: Geometry, history: seq<Sample>, trail: Trail) {
    && |trail.heat| == |trail.points|
    && forall j :: 0 <= j < |trail.points| ==> trail.heat[j] == Changes(CellDrives(geo, history, geo.cell(trail.points[j])))
  }

  function CountOf(counts: map<Cell, int>, cell: Cell): int {
    if cell in counts then counts[cell] else 0
  }

  /** The two maps agree with the stream on one cell. */
  ghost predicate CountsCell(geo: Geometry, history: seq<Sample>, visits: map<Cell, int>, seen: map<Cell, int>, cell: Cell) {
    var drives := CellDrives(geo, history, cell);
    && CountOf(seen, cell) == Remembered(drives) + 1
    && CountOf(visits, cell) == Changes(drives)
    && (cell in visits <==> Changes(drives) > 0)
  }

  /** What settling a segment means for the clipped trail at hand, which starts with the
      segment's first sample. */
  lemma FinishedTrail(geo: Geometry, epsilon: real, maxPoints: int, closed: seq<seq<Point>>, open: seq<Point>, current: seq<Point>)
    requires var used := Settled(geo, epsilon, maxPoints, closed).used; current == Clip(FullTrail(geo, epsilon, open), maxPoints, used)
    ensures current != [] ==> open != [] && current[0] == open[0]
    ensures var ledger := Settled(geo, epsilon, maxPoints, closed);
            var clipped := |current| < |FullTrail(geo, epsilon, open)|;
            Settled(geo, epsilon, maxPoints, closed + [open])
            == Ledger(if |current| >= 2 then ledger.trails + [current] else ledger.trails,
                      if |current| >= 2 then ledger.used + |current| else ledger.used,
                      ledger.truncated || clipped,
                      if clipped then ledger.omitted + 1 else ledger.omitted)
  {
    hide FullTrail;
    assert (closed + [open])[..|closed|] == closed;
    if open != [] {
      var owner := FullTrailFollowsSegment(geo, epsilon, open);
    }
  }

  lemma CountsUnaffected(geo: Geometry, history: seq<Sample>, visits: map<Cell, int>, seen: map<Cell, int>, s: Sample)
    requires !geo.valid(s.pos) && forall cell :: CountsCell(geo, history, visits, seen, cell)
    ensures forall cell :: CountsCell(geo, history + [s], visits, seen, cell)
  {
    forall cell
      ensures CountsCell(geo, history + [s], visits, seen, cell)
    {
      assert CountsCell(geo, history, visits, seen, cell);
      assert (history + [s])[..|history|] == history;
    }
  }

  lemma CountsAdvance(geo: Geometry, history: seq<Sample>, visits: map<Cell, int>, seen: map<Cell, int>, s: Sample)
    requires geo.valid(s.pos) && forall cell :: CountsCell(geo, history, visits, seen, cell)
    ensures var k := geo.cell(geo.round5(s.pos));
            var changed := CountOf(seen, k) != s.drive + 1;
            var visits' := if changed then visits[k := CountOf(visits, k) + 1] else visits;
            var seen' := if changed then seen[k := s.drive + 1] else seen;
            forall cell :: CountsCell(geo, history + [s], visits', seen', cell)
  {
    var k := geo.cell(geo.round5(s.pos));
    assert CountsCell(geo, history, visits, seen, k);
    var (visits', seen') := if CountOf(seen, k) != s.drive + 1
      then (visits[k := CountOf(visits, k) + 1], seen[k := s.drive + 1]) else (visits, seen);
    forall cell
      ensures CountsCell(geo, history + [s], visits', seen', cell)
    {
      assert CountsCell(geo, history, visits, seen, cell);
      assert (history + [s])[..|history|] == history;
      var drives := CellDrives(geo, history, cell);
      assert (drives + [s.drive])[..|drives|] == drives;
    }
  }

  method RenderCoords(points: seq<Point>) returns (coords: seq<Coord>)
    ensures coords == Coords(points)
  {
    coords := [];
    for i := 0 to |points|
      invariant coords == Coords(points[..i])
    {
      coords := coords + [points[i].pos];
    }
    assert points[..|points|] == points;
  }

  class RoadCoverageBuilder {
    const geo: Geometry
    const countOnly: bool
    const spacingM: real
    const maxPoints: int

    var totalPoints: int
    var visits: map<Cell, int>
    var seen: map<Cell, int>
    var trails: seq<Trail>
    var current: seq<Point>
    var pending: seq<Point>
    var drive: int
    var haveDrive: bool
    var haveLast: bool
    var last: Coord
    var lastAt: Option<int>
    var chunkLength: real
    var truncated: bool
    var omittedCurrent: bool
    var omitted: nat

    ghost var history: seq<Sample>
    ghost var closed: seq<seq<Point>>
    ghost var open: seq<Point>

    constructor (geo: Geometry, countOnly: bool, spacingM: real, maxPoints: int)
      ensures Valid() && history == []
      ensures this.geo == geo && this.countOnly == countOnly && this.spacingM == spacingM && this.maxPoints == maxPoints
    {
      this.geo, this.countOnly, this.spacingM, this.maxPoints := geo, countOnly, spacingM, maxPoints;
      totalPoints, visits, seen, trails, current, pending := 0, map[], map[], [], [], [];
      drive, haveDrive, haveLast, last, lastAt := 0, false, false, Coord(0.0, 0.0), None;
      chunkLength, truncated, omittedCurrent, omitted := 0.0, false, false, 0;
      history, closed, open := [], [], [];
    }

    function Eps(): real { Epsilon(spacingM) }

    ghost function SettledLedger(): Ledger
      reads this`closed
    {
      Settled(geo, Eps(), maxPoints, closed)
    }

    /** The open trail is the budgeted prefix of `full`, on top of a settled ledger. */
    ghost predicate Tracks(full: seq<Point>, ledger: Ledger)
      reads this`current, this`totalPoints, this`omittedCurrent, this`truncated, this`omitted
    {
      && current == Clip(full, maxPoints, ledger.used)
      && totalPoints == ledger.used + |current|
      && (omittedCurrent <==> |current| < |full|)
      && (truncated <==> ledger.truncated || omittedCurrent)
      && omitted == ledger.omitted
    }

    ghost predicate GeometryValid()
      reads this`open, this`closed, this`pending, this`chunkLength, this`current, this`totalPoints,
            this`omittedCurrent, this`truncated, this`omitted, this`trails
    {
      && pending == Chunked(geo, open).pending && chunkLength == Chunked(geo, open).length
      && Tracks(Joined(geo, Eps(), Chunked(geo, open).flushed), SettledLedger())
      && RendersAll(trails, SettledLedger().trails)
    }

    ghost function ItsCursor(): Cursor
      reads this`haveDrive, this`drive, this`haveLast, this`last, this`lastAt
    {
      Cursor(if haveDrive then Some(drive) else None, if haveLast then Some(Last(last, lastAt)) else None)
    }

    ghost predicate Valid()
      reads this
    {
      && GeometryValid()
      && Streamed(geo, countOnly, history) == Stream(ItsCursor(), closed, open)
      && forall cell :: CountsCell(geo, history, visits, seen, cell)
    }

    /** One simplified point: dropped as a duplicate, omitted for the budget, or drawn. */
    method DrawPoint(p: Point, ghost full: seq<Point>, ghost ledger: Ledger)
      requires Tracks(full, ledger) && (maxPoints > 0 ==> ledger.used <= maxPoints)
      modifies this`current, this`totalPoints, this`truncated, this`omittedCurrent
      ensures Tracks(Append(full, [p]), ledger)
    {
      if |current| > 0 && current[|current| - 1].pos == p.pos {
        return;
      }
      if maxPoints > 0 && totalPoints >= maxPoints {
        truncated, omittedCurrent := true, true;
        return;
      }
      current := current + [p];
      totalPoints := totalPoints + 1;
    }

    /** Simplify the pending chunk onto the open trail, as far as the budget goes. */
    method FlushChunk(ghost full: seq<Point>, ghost ledger: Ledger)
      requires Tracks(full, ledger) && (maxPoints > 0 ==> ledger.used <= maxPoints)
      modifies this`current, this`pending, this`totalPoints, this`truncated, this`omittedCurrent
      ensures pending == []
      ensures Tracks(Append(full, Simplified(geo.segment, old(pending), Eps())), ledger)
    {
      if |pending| == 0 {
        return;
      }
      var points := SimplifyRoadPoints(geo.segment, pending, Eps());
      for i := 0 to |points|
        invariant Tracks(Append(full, points[..i]), ledger)
      {
        DrawPoint(points[i], Append(full, points[..i]), ledger);
        AppendTwice(full, points[..i], points[i]);
        assert points[..i + 1] == points[..i] + [points[i]];
      }
      assert points[..|points|] == points;
      pending := [];
    }

    /** The ledger once the open trail is settled. */
    ghost function AfterTrail(ledger: Ledger): Ledger
      reads this
    {
      Ledger(if |current| >= 2 then ledger.trails + [current] else ledger.trails,
             if |current| >= 2 then ledger.used + |current| else ledger.used,
             ledger.truncated || omittedCurrent,
             if omittedCurrent then ledger.omitted + 1 else ledger.omitted)
    }

    /** Emit the open trail if it has two points, else give its point back to the budget. */
    method EmitTrail(ghost full: seq<Point>, ghost ledger: Ledger)
      requires Tracks(full, ledger) && RendersAll(trails, ledger.trails)
      requires current != [] ==> current[0].drive == drive
      modifies this`current, this`pending, this`totalPoints, this`omittedCurrent, this`trails, this`omitted, this`chunkLength
      ensures Tracks([], old(AfterTrail(ledger))) && RendersAll(trails, old(AfterTrail(ledger)).trails)
      ensures current == [] && pending == [] && chunkLength == 0.0
    {
      if |current| >= 2 {
        var points := RenderCoords(current);
        trails := trails + [Trail(drive, points, [])];
      } else {
        totalPoints := totalPoints - |current|;
      }
      if omittedCurrent {
        omitted := omitted + 1;
      }
      current, pending := [], [];
      chunkLength := 0.0;
      omittedCurrent := false;
    }

    /** Flushing at the end of a segment completes its trail, up to the budget. */
    method FlushSegment()
      requires GeometryValid()
      modifies this`current, this`pending, this`totalPoints, this`truncated, this`omittedCurrent
      ensures Tracks(FullTrail(geo, Eps(), open), SettledLedger())
    {
      BudgetIsConserved(geo, Eps(), maxPoints, closed);
      FlushChunk(Joined(geo, Eps(), Chunked(geo, open).flushed), SettledLedger());
    }

    /** End the open segment. */
    method FinishSegment()
      requires GeometryValid() && (open != [] ==> open[0].drive == drive)
      modifies this`current, this`pending, this`totalPoints, this`truncated, this`omittedCurrent,
               this`trails, this`omitted, this`chunkLength, this`closed, this`open
      ensures GeometryValid() && closed == old(closed) + [old(open)] && open == []
      ensures truncated == SettledLedger().truncated
    {
      hide Chunked, Joined, Settled, FullTrail, RendersAll;
      FlushSegment();
      FinishedTrail(geo, Eps(), maxPoints, closed, open, current);
      EmitTrail(FullTrail(geo, Eps(), open), SettledLedger());
      NothingFlushed(geo, Eps());
      closed, open := closed + [open], [];
    }

    /** A chunk that is full or a kilometre long is flushed. */
    method FlushMiddle(ghost flushed: seq<seq<Point>>)
      requires Tracks(Joined(geo, Eps(), flushed), SettledLedger())
      modifies this`current, this`pending, this`totalPoints, this`truncated, this`omittedCurrent
      ensures Tracks(Joined(geo, Eps(), flushed + [old(pending)]), SettledLedger())
    {
      BudgetIsConserved(geo, Eps(), maxPoints, closed);
      assert (flushed + [pending])[..|flushed|] == flushed;
      FlushChunk(Joined(geo, Eps(), flushed), SettledLedger());
    }

    /** A sample joins the open segment; the chunk after a flush starts with the same sample. */
    method Extend(p: Point, distance: real)
      requires GeometryValid()
      requires open != [] ==> distance == geo.haversine(open[|open| - 1].pos, p.pos)
      requires open == [] ==> distance == 0.0
      modifies this`current, this`pending, this`totalPoints, this`truncated, this`omittedCurrent, this`chunkLength, this`open
      ensures GeometryValid() && open == old(open) + [p]
    {
      hide Chunked, Joined, Settled;
      ChunkedSnoc(geo, open, p);
      ghost var flushed := Chunked(geo, open).flushed;
      chunkLength := chunkLength + distance;
      pending := pending + [p];
      if |pending| >= MAX_PENDING || chunkLength >= CHUNK_METRES {
        FlushMiddle(flushed);
        pending := [p];
        chunkLength := 0.0;
      }
      open := open + [p];
    }

    /** Count a usable sample for its cell, once per uninterrupted presence of its drive. */
    method CountVisit(s: Sample)
      requires geo.valid(s.pos) && forall cell :: CountsCell(geo, history, visits, seen, cell)
      modifies this`visits, this`seen
      ensures forall cell :: CountsCell(geo, history + [s], visits, seen, cell)
    {
      hide CountsCell;
      CountsAdvance(geo, history, visits, seen, s);
      var k := geo.cell(geo.round5(s.pos));
      if CountOf(seen, k) != s.drive + 1 {
        seen := seen[k := s.drive + 1];
        visits := visits[k := CountOf(visits, k) + 1];
      }
    }

    ghost predicate At(stream: Stream)
      reads this
    {
      GeometryValid() && stream == Stream(ItsCursor(), closed, open)
    }

    /** The geometry of a usable sample of the current drive. */
    method Draw(s: Sample, p: Point, ghost stream: Stream)
      requires At(stream) && stream.cursor.drive == Some(s.drive) && p == Point(s.drive, geo.round5(s.pos))
      requires CursorAtEnd(stream)
      modifies this`current, this`pending, this`totalPoints, this`truncated, this`omittedCurrent, this`trails,
               this`omitted, this`chunkLength, this`closed, this`open, this`last, this`lastAt, this`haveLast
      ensures At(Enter(geo, stream, s))
    {
      hide GeometryValid, Settled;
      var travelled := 0.0;
      if haveLast {
        var distance := geo.haversine(last, p.pos);
        var gap := s.at.Some? && lastAt.Some? && (s.at.value - lastAt.value > GAP_NANOSECONDS || s.at.value < lastAt.value);
        if gap || distance > GAP_METRES {
          FinishSegment();
          haveLast := false;
        } else if distance < DUPLICATE_METRES {
          lastAt := s.at;
          return;
        } else {
          travelled := distance;
        }
      }
      Extend(p, travelled);
      last, lastAt, haveLast := p.pos, s.at, true;
    }

    method StartDrive(s: Sample, ghost stream: Stream)
      requires At(stream) && CursorAtEnd(stream)
      modifies this`current, this`pending, this`totalPoints, this`truncated, this`omittedCurrent, this`trails,
               this`omitted, this`chunkLength, this`closed, this`open, this`drive, this`haveDrive, this`haveLast
      ensures At(RoadCoverage.StartDrive(stream, s.drive)) && CursorAtEnd(RoadCoverage.StartDrive(stream, s.drive))
    {
      hide GeometryValid, Settled;
      if !haveDrive || drive != s.drive {
        FinishSegment();
        drive := s.drive;
        haveDrive := true;
        haveLast := false;
      }
    }

    /** A position that is unusable ends the segment and forgets the last position. */
    method Skip(ghost stream: Stream)
      requires At(stream) && CursorAtEnd(stream)
      modifies this`current, this`pending, this`totalPoints, this`truncated, this`omittedCurrent, this`trails,
               this`omitted, this`chunkLength, this`closed, this`open, this`haveLast
      ensures At(Close(stream).(cursor := stream.cursor.(last := None)))
    {
      hide GeometryValid, Settled;
      FinishSegment();
      haveLast := false;
    }

    method Add(s: Sample)
      requires Valid()
      modifies this
      ensures Valid() && history == old(history) + [s]
    {
      hide GeometryValid, CountsCell, Enter, Streamed, CursorAtEnd;
      ghost var stream := Stream(ItsCursor(), closed, open);
      StreamedCursor(geo, countOnly, history);
      StreamedSnoc(geo, countOnly, history, s);
      if !geo.valid(s.pos) {
        Skip(stream);
        CountsUnaffected(geo, history, visits, seen, s);
      } else {
        StartDrive(s, stream);
        var p := Point(s.drive, geo.round5(s.pos));
        CountVisit(s);
        if !countOnly {
          Draw(s, p, RoadCoverage.StartDrive(stream, s.drive));
        }
      }
      history := history + [s];
    }

    method HeatTrails(ghost all: seq<seq<Point>>)
      requires RendersAll(trails, all) && forall cell :: CountsCell(geo, history, visits, seen, cell)
      modifies this`trails
      ensures RendersAll(trails, all) && forall t :: 0 <= t < |trails| ==> Heated(geo, history, trails[t])
    {
      hide CellDrives, Changes, CountsCell;
      for i := 0 to |trails|
        invariant RendersAll(trails, all)
        invariant forall t :: 0 <= t < i ==> Heated(geo, history, trails[t])
      {
        var heat := HeatOf(trails[i].points);
        trails := trails[i := trails[i].(heat := heat)];
      }
    }

    method FinishStream()
      requires Valid()
      modifies this`current, this`pending, this`totalPoints, this`truncated, this`omittedCurrent,
               this`trails, this`omitted, this`chunkLength, this`closed, this`open
      ensures closed == Segments(geo, countOnly, history)
      ensures RendersAll(trails, SettledLedger().trails)
      ensures truncated == SettledLedger().truncated && omitted == SettledLedger().omitted
    {
      hide CountsCell, Streamed, Chunked, Joined, Settled, RendersAll;
      StreamedCursor(geo, countOnly, history);
      FinishSegment();
    }

    /** End the last segment and heat every trail with the visits of its points' cells. */
    method Finish() returns (cells: map<Cell, int>, out: seq<Trail>, cut: bool)
      requires Valid()
      modifies this
      ensures forall cell :: CountOf(cells, cell) == Changes(CellDrives(geo, history, cell))
      ensures var ledger := Settled(geo, Epsilon(spacingM), maxPoints, Segments(geo, countOnly, history));
              RendersAll(out, ledger.trails) && cut == ledger.truncated && omitted == ledger.omitted
      ensures history == old(history) && forall t :: 0 <= t < |out| ==> Heated(geo, history, out[t])
    {
      hide Segments, Settled, CellDrives, Changes, RendersAll, Heated, GeometryValid;
      forall cell
        ensures CountOf(visits, cell) == Changes(CellDrives(geo, history, cell))
      {
        assert CountsCell(geo, history, visits, seen, cell);
      }
      FinishStream();
      HeatTrails(SettledLedger().trails);
      return visits, trails, truncated;
    }

    method HeatOf(points: seq<Coord>) returns (heat: seq<int>)
      requires forall cell :: CountsCell(geo, history, visits, seen, cell)
      ensures |heat| == |points|
      ensures forall j :: 0 <= j < |points| ==> heat[j] == Changes(CellDrives(geo, history, geo.cell(points[j])))
    {
      heat := [];
      for j := 0 to |points|
        invariant |heat| == j
        invariant forall k :: 0 <= k < j ==> heat[k] == Changes(CellDrives(geo, history, geo.cell(points[k])))
      {
        assert CountsCell(geo, history, visits, seen, geo.cell(points[j]));
        heat := heat + [CountOf(visits, geo.cell(points[j]))];
      }
    }
  }

  /** Feed a whole input to a fresh builder: what a caller gets, in terms of the input alone. */
  method BuildRoadCoverage(geo: Geometry, countOnly: bool, samples: seq<Sample>, spacingM: real, maxPoints: int)
    returns (cells: map<Cell, int>, trails: seq<Trail>, truncated: bool, omitted: nat)
    ensures forall cell :: CountOf(cells, cell) == Changes(CellDrives(geo, samples, cell))
    ensures var ledger := Settled(geo, Epsilon(spacingM), maxPoints, Segments(geo, countOnly, samples));
            RendersAll(trails, ledger.trails) && truncated == ledger.truncated && omitted == ledger.omitted
    ensures forall t :: 0 <= t < |trails| ==> Heated(geo, samples, trails[t])
  {
    hide *;
    var builder := new RoadCoverageBuilder(geo, countOnly, spacingM, maxPoints);
    for i := 0 to |samples|
      invariant builder.Valid() && builder.history == samples[..i]
      invariant fresh(builder)
      invariant builder.geo == geo && builder.countOnly == countOnly && builder.spacingM == spacingM && builder.maxPoints == maxPoints
    {
      builder.Add(samples[i]);
      assert samples[..i + 1] == samples[..i] + [samples[i]];
    }
    assert samples[..|samples|] == samples;
    cells, trails, truncated := builder.Finish();
    omitted := builder.omitted;
  }
}
