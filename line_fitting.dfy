// fit_line_segments of the current GeometryConverter
// (SoftwareCopyright/shp2opendrive/geometry_converter.py): Douglas-Peucker
// simplification at the converter's tolerance, thinning to at most 50
// points with _limit_segments, then one `line` record per pair of kept
// points.

module LineFitting {
  import opened Common
  import opened Seqs
  import opened PlanView
  import opened Simplify
  import opened SegmentPoints
  import opened ConverterConfig

  /** The points fit_line_segments turns into records. */
  function KeptPoints(lib: Libm, coords: seq<Point>, tol: real): seq<Point>
    requires tol > 0.0 && RoundsToNearest(lib)
  {
    var pts := DouglasPeucker(ChordDistance(lib), coords, tol);
    if |pts| > MaxSegmentsPerRoad then Limited(lib, pts, MaxSegmentsPerRoad) else pts
  }

  /** What fit_line_segments returns. */
  function LineFit(lib: Libm, coords: seq<Point>, tol: real): seq<Segment>
    requires tol > 0.0 && RoundsToNearest(lib)
  {
    LinesFrom(lib, KeptPoints(lib, coords, tol), 0.0)
  }

  /**
   * fit_line_segments: simplify, thin a result of more than 50 points, and
   * emit the records.
   */
  method FitLineSegments(lib: Libm, coords: seq<Point>, tol: real) returns (segs: seq<Segment>)
    requires tol > 0.0 && RoundsToNearest(lib)
    ensures segs == LineFit(lib, coords, tol)
  {
    var pts := DouglasPeucker(ChordDistance(lib), coords, tol);
    if |pts| > MaxSegmentsPerRoad {
      pts := LimitSegments(lib, pts, MaxSegmentsPerRoad);
    }
    segs := EmitKeptLines(lib, pts);
  }

  /**
   * The kept points are at most 50 points of the input, in order; an input
   * of fewer than two points is kept as it is, and a longer one keeps its
   * first and last point.
   */
  lemma KeptPointsProperties(lib: Libm, coords: seq<Point>, tol: real)
    requires tol > 0.0 && RoundsToNearest(lib)
    ensures var kept := KeptPoints(lib, coords, tol);
      && Subseq(kept, coords)
      && |kept| <= MaxSegmentsPerRoad
      && (|coords| < 2 ==> kept == coords)
      && (|coords| >= 2 ==> |kept| >= 2 && kept[0] == coords[0] && kept[|kept| - 1] == coords[|coords| - 1])
  {
    var dist := ChordDistance(lib);
    var pts := DouglasPeucker(dist, coords, tol);
    DouglasPeuckerSubseq(dist, coords, tol);
    if |coords| >= 2 {
      DouglasPeuckerKeepsEnds(dist, coords, tol);
    }
    if |pts| > MaxSegmentsPerRoad {
      ThinnedKept(lib, pts, coords);
    }
  }

  /** The thinning of a simplification with more than 50 points keeps what the simplification promises. */
  lemma ThinnedKept(lib: Libm, pts: seq<Point>, coords: seq<Point>)
    requires RoundsToNearest(lib) && |pts| > MaxSegmentsPerRoad && Subseq(pts, coords)
    requires pts[0] == coords[0] && pts[|pts| - 1] == coords[|coords| - 1]
    ensures var kept := Limited(lib, pts, MaxSegmentsPerRoad);
      && Subseq(kept, coords) && 2 <= |kept| <= MaxSegmentsPerRoad
      && kept[0] == coords[0] && kept[|kept| - 1] == coords[|coords| - 1]
  {
    LimitedProperties(lib, pts, MaxSegmentsPerRoad);
    SubseqTrans(Limited(lib, pts, MaxSegmentsPerRoad), pts, coords);
  }

  /**
   * fit_line_segments emits no record for fewer than two points and
   * otherwise one fewer than it keeps points, so never more than 49; the
   * records are chained from s = 0, only the first carries x, y (the first
   * input point), and together they are as long as the kept polyline.
   */
  lemma LineFitProperties(lib: Libm, coords: seq<Point>, tol: real)
    requires tol > 0.0 && RoundsToNearest(lib)
    ensures var segs := LineFit(lib, coords, tol);
      var kept := KeptPoints(lib, coords, tol);
      && |segs| == (if |coords| < 2 then 0 else |kept| - 1)
      && |segs| <= MaxSegmentsPerRoad - 1
      && (|segs| > 0 ==> segs[0].start == Some(coords[0]))
      && OnlyFirstPlaced(segs)
      && Chained(segs, 0.0)
      && RoadLength(segs) == PathLength(lib, kept)
  {
    KeptPointsProperties(lib, coords, tol);
    LinesFromProperties(lib, KeptPoints(lib, coords, tol), 0.0);
  }
}
