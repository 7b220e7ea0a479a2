// The older GeometryConverter of src/geometry_converter.py: straight-line
// conversion of a polyline, and line fitting over its Douglas-Peucker
// simplification. Arc fitting lives in module Arcs, the shared records in
// PlanView and the simplification in Simplify. The converter's tolerance
// (constructor argument, default 1.0) is passed to the members that use it.

module LegacyGeometry {
  import opened Common
  import opened Seqs
  import opened PlanView
  import opened Simplify
  import Dicts

  /** The tolerance GeometryConverter() uses when none is given. */
  const DefaultTolerance: real := 1.0

  /**
   * convert_road_geometry: fewer than two points give no records; otherwise
   * one `line` per consecutive pair with s accumulating from 0 and x, y on
   * the record built when i == 0.
   */
  method ConvertRoadGeometry(lib: Libm, coords: seq<Point>) returns (segs: seq<Segment>)
    ensures segs == LinesFrom(lib, coords, 0.0)
  {
    if |coords| < 2 {
      return [];
    }
    segs := [];
    var s := 0.0;
    var i := 0;
    while i < |coords| - 1
      invariant 0 <= i < |coords|
      invariant segs == LinesFrom(lib, coords[..i + 1], 0.0)
      invariant s == PathLength(lib, coords[..i + 1])
    {
      var seg := LineSegment(lib, coords[i], coords[i + 1], s, i == 0);
      EmitLinesStep(lib, coords, 0.0, i, segs, s);
      segs := segs + [seg];
      s := s + seg.length;
      i := i + 1;
    }
    assert coords[..i + 1] == coords;
  }

  /** What fit_line_segments computes: line records over the simplified polyline. */
  function LineFit(lib: Libm, coords: seq<Point>, tol: real): seq<Segment>
    requires tol > 0.0
  {
    LinesFrom(lib, DouglasPeucker(ChordDistance(lib), coords, tol), 0.0)
  }

  /**
   * fit_line_segments: simplify with _douglas_peucker, then emit the line
   * records over the kept points.
   */
  method FitLineSegments(lib: Libm, coords: seq<Point>, tol: real) returns (segs: seq<Segment>)
    requires tol > 0.0
    ensures segs == LineFit(lib, coords, tol)
  {
    var pts := DouglasPeucker(ChordDistance(lib), coords, tol);
    segs := EmitKeptLines(lib, pts);
  }

  /**
   * fit_line_segments with the converter's tolerance as the configuration
   * gives it: a polyline of at most two points is never compared with the
   * tolerance; otherwise a tolerance that is not a number raises TypeError
   * at `max_distance < tolerance`, and a simplification that never ends
   * raises RecursionError.
   */
  function LineFitOf(lib: Libm, coords: seq<Point>, tolerance: Dicts.Value): Result<seq<Segment>>
  {
    if |coords| <= 2 then Ok(LinesFrom(lib, coords, 0.0))
    else
      match Dicts.NumberOf(tolerance)
      case None => Err("TypeError")
      case Some(t) =>
        match Simplified(ChordDistance(lib), coords, t)
        case None => Err("RecursionError")
        case Some(pts) => Ok(LinesFrom(lib, pts, 0.0))
  }

  /** A positive numeric tolerance always gives LineFit's records. */
  lemma LineFitOfPositive(lib: Libm, coords: seq<Point>, tolerance: Dicts.Value, t: real)
    requires Dicts.NumberOf(tolerance) == Some(t) && t > 0.0
    ensures LineFitOf(lib, coords, tolerance) == Ok(LineFit(lib, coords, t))
  {
    SimplifiedPositive(ChordDistance(lib), coords, t);
  }

  /**
   * fit_line_segments raises only on three or more points: TypeError
   * exactly when the tolerance is not a number, RecursionError only for a
   * tolerance of 0 or less.
   */
  lemma LineFitOfErrors(lib: Libm, coords: seq<Point>, tolerance: Dicts.Value)
    ensures LineFitOf(lib, coords, tolerance).Err? ==> |coords| > 2
    ensures |coords| > 2 && Dicts.NumberOf(tolerance).None? ==> LineFitOf(lib, coords, tolerance) == Err("TypeError")
    ensures LineFitOf(lib, coords, tolerance).Err? && Dicts.NumberOf(tolerance).Some? ==>
              LineFitOf(lib, coords, tolerance).error == "RecursionError" && Dicts.NumberOf(tolerance).value <= 0.0
  {
    if Dicts.NumberOf(tolerance).Some? && Dicts.NumberOf(tolerance).value > 0.0 {
      LineFitOfPositive(lib, coords, tolerance, Dicts.NumberOf(tolerance).value);
    }
  }

  /**
   * At a tolerance of 0 or less, three points whose middle one is off the
   * chord still give two `line` records, one per step.
   */
  lemma LineFitOfOffChord(lib: Libm, a: Point, b: Point, c: Point, tolerance: Dicts.Value)
    requires Dicts.NumberOf(tolerance).Some? && Dicts.NumberOf(tolerance).value <= 0.0
    requires ChordDistance(lib)(b, a, c) > 0.0
    ensures LineFitOf(lib, [a, b, c], tolerance) == Ok(LinesFrom(lib, [a, b, c], 0.0))
    ensures |LineFitOf(lib, [a, b, c], tolerance).value| == 2
  {
    SimplifiedOffChord(ChordDistance(lib), a, b, c, Dicts.NumberOf(tolerance).value);
    LinesFromLength(lib, [a, b, c], 0.0);
  }

  /**
   * fit_line_segments emits one record fewer than the simplification keeps
   * points: none for an empty or one-point polyline, and each record joins
   * two consecutive kept points, which are points of the input in order.
   */
  lemma LineFitShape(lib: Libm, coords: seq<Point>, tol: real)
    requires tol > 0.0
    ensures var pts := DouglasPeucker(ChordDistance(lib), coords, tol);
      && Subseq(pts, coords)
      && |LineFit(lib, coords, tol)| == (if |coords| < 2 then 0 else |pts| - 1)
      && |LineFit(lib, coords, tol)| <= (if |coords| < 2 then 0 else |coords| - 1)
  {
    var pts := DouglasPeucker(ChordDistance(lib), coords, tol);
    DouglasPeuckerSubseq(ChordDistance(lib), coords, tol);
    SubseqLength(pts, coords);
    LinesFromLength(lib, pts, 0.0);
  }

  /** Two points give exactly one record, from the first to the second. */
  lemma LineFitTwoPoints(lib: Libm, p: Point, q: Point, tol: real)
    requires tol > 0.0
    ensures LineFit(lib, [p, q], tol) == [LineSegment(lib, p, q, 0.0, true)]
  {
    var pts := [p, q];
    assert DouglasPeucker(ChordDistance(lib), pts, tol) == pts;
    assert pts[..1] == [p];
    assert LinesFrom(lib, pts[..1], 0.0) == [];
    assert PathLength(lib, pts[..1]) == 0.0;
  }

  /**
   * Raising the tolerance never increases the number of records, as the
   * high- and low-tolerance converters of the tests expect.
   */
  lemma LineFitMonotone(lib: Libm, coords: seq<Point>, small: real, large: real)
    requires 0.0 < small <= large
    ensures |LineFit(lib, coords, large)| <= |LineFit(lib, coords, small)|
  {
    var dist := ChordDistance(lib);
    DouglasPeuckerMonotone(dist, coords, small, large);
    LinesFromLength(lib, DouglasPeucker(dist, coords, large), 0.0);
    LinesFromLength(lib, DouglasPeucker(dist, coords, small), 0.0);
  }

  /**
   * Three collinear points (0,0), (10,0), (20,0) at the default tolerance
   * give one `line` of length 20 from the origin, given that sqrt(400) = 20.
   */
  lemma LineFitCollinear(lib: Libm, coords: seq<Point>)
    requires coords == [Point(0.0, 0.0), Point(10.0, 0.0), Point(20.0, 0.0)]
    requires lib.sqrt(400.0) == 20.0
    ensures var segs := LineFit(lib, coords, DefaultTolerance);
      |segs| == 1 && segs[0].kind == Line && segs[0].length == 20.0 &&
      segs[0].start == Some(coords[0])
  {
    var dist := ChordDistance(lib);
    CollinearDistance(lib, coords[1], coords[0], coords[2]);
    assert Farthest(dist, coords, 2).0 == 0.0;
    DouglasPeuckerCollapses(dist, coords, DefaultTolerance);
    LineFitTwoPoints(lib, coords[0], coords[2], DefaultTolerance);
  }

  lemma CollinearDistance(lib: Libm, p: Point, a: Point, b: Point)
    requires a == Point(0.0, 0.0) && p == Point(10.0, 0.0) && b == Point(20.0, 0.0)
    requires lib.sqrt(400.0) == 20.0
    ensures ChordDistance(lib)(p, a, b) == 0.0
  {
    assert Dist2(a, b) == 400.0;
    var len := lib.sqrt(Dist2(a, b));
    assert len == 20.0;
    var d := PointToLineDistance(lib, p, a, b);
    assert d == Abs(Cross(a, b, p)) / len;
    assert Abs(Cross(a, b, p)) == 0.0;
    ZeroOver(len);
  }

  lemma ZeroOver(len: real)
    requires len == 20.0
    ensures 0.0 / len == 0.0
  {
  }

  /**
   * The L-shaped path (0,0), (10,0), (10,10) keeps its corner at the default
   * tolerance and gives two `line` records, for any sqrt(200) in (0, 100).
   */
  lemma LineFitCorner(lib: Libm, coords: seq<Point>)
    requires coords == [Point(0.0, 0.0), Point(10.0, 0.0), Point(10.0, 10.0)]
    requires 0.0 < lib.sqrt(200.0) < 100.0
    ensures var segs := LineFit(lib, coords, DefaultTolerance);
      |segs| == 2 && segs[0].kind == Line && segs[1].kind == Line
  {
    var dist := ChordDistance(lib);
    var d := dist(coords[1], coords[0], coords[2]);
    assert Dist2(coords[0], coords[2]) == 200.0;
    assert d == 100.0 / lib.sqrt(200.0);
    assert d > 1.0;
    assert Farthest(dist, coords, 2) == (d, 1);
    DouglasPeuckerSplits(dist, coords, DefaultTolerance, 1);
    assert coords[..2] == [coords[0], coords[1]];
    assert coords[1..] == [coords[1], coords[2]];
    assert DouglasPeucker(dist, coords, DefaultTolerance) == coords;
    LinesFromProperties(lib, coords, 0.0);
  }

  /** calculate_road_length on the records of lengths 10, 15.7 and 20 gives 45.7. */
  lemma RoadLengthExample(a: Segment, b: Segment, c: Segment)
    requires a.length == 10.0 && b.length == 15.7 && c.length == 20.0
    ensures RoadLength([a, b, c]) == 45.7
  {
    RoadLengthSnoc([], a);
    assert [] + [a] == [a];
    RoadLengthSnoc([a], b);
    assert [a] + [b] == [a, b];
    RoadLengthSnoc([a, b], c);
    assert [a, b] + [c] == [a, b, c];
  }
}
