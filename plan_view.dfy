// Plan-view geometry records (ASAM OpenDRIVE 1.7 section 7) as both
// geometry converters build them, and the line-emission loop they share.

module PlanView {
  import opened Common

  /** The record kinds the converters emit: `line`, or `arc` with its signed curvature. */
  datatype Kind = Line | Arc(curvature: real)

  /**
   * One record of a road's plan view. `start` is Some((x, y)) exactly when
   * the source puts absolute 'x' and 'y' keys into the record.
   */
  datatype Segment = Segment(kind: Kind, s: real, start: Option<Point>, hdg: real, length: real)

  /** calculate_road_length: the sum of the records' lengths. */
  function RoadLength(segs: seq<Segment>): real
  {
    if segs == [] then 0.0 else RoadLength(segs[..|segs| - 1]) + segs[|segs| - 1].length
  }

  /**
   * _create_line_segment: a `line` record from p to q at offset s, heading
   * atan2(dy, dx) and length sqrt(dx^2 + dy^2); x, y only when asked for.
   */
  function LineSegment(lib: Libm, p: Point, q: Point, s: real, withStart: bool): Segment
  {
    Segment(Line, s, if withStart then Some(p) else None, lib.atan2(q.y - p.y, q.x - p.x), Dist(lib, p, q))
  }

  /** Every record begins where the records before it end: s_k = s0 + sum of earlier lengths. */
  ghost predicate Chained(segs: seq<Segment>, s0: real)
  {
    forall k :: 0 <= k < |segs| ==> segs[k].s == s0 + RoadLength(segs[..k])
  }

  /** Only the first record of a road carries absolute coordinates. */
  ghost predicate OnlyFirstPlaced(segs: seq<Segment>)
  {
    forall k :: 0 <= k < |segs| ==> (segs[k].start.Some? <==> k == 0)
  }

  lemma RoadLengthSnoc(segs: seq<Segment>, seg: Segment)
    ensures RoadLength(segs + [seg]) == RoadLength(segs) + seg.length
  {
    assert (segs + [seg])[..|segs|] == segs;
  }

  lemma ChainedSnoc(segs: seq<Segment>, seg: Segment, s0: real)
    requires Chained(segs, s0)
    requires seg.s == s0 + RoadLength(segs)
    ensures Chained(segs + [seg], s0)
  {
    var t := segs + [seg];
    forall k | 0 <= k < |t|
      ensures t[k].s == s0 + RoadLength(t[..k])
    {
      assert t[..k] == segs[..k];
    }
  }

  lemma RoadLengthCons(seg: Segment, segs: seq<Segment>)
    ensures RoadLength([seg] + segs) == seg.length + RoadLength(segs)
    decreases |segs|
  {
    if segs != [] {
      var last := segs[|segs| - 1];
      assert [seg] + segs == ([seg] + segs[..|segs| - 1]) + [last];
      RoadLengthSnoc([seg] + segs[..|segs| - 1], last);
      RoadLengthCons(seg, segs[..|segs| - 1]);
      RoadLengthSnoc(segs[..|segs| - 1], last);
      assert segs[..|segs| - 1] + [last] == segs;
    } else {
      assert [seg] + segs == [seg];
      assert [seg][..0] == [];
    }
  }

  /** A record at s followed by records chained from s + its length is chained from s. */
  lemma ChainedCons(seg: Segment, segs: seq<Segment>, s0: real)
    requires seg.s == s0
    requires Chained(segs, s0 + seg.length)
    ensures Chained([seg] + segs, s0)
  {
    var t := [seg] + segs;
    forall k | 0 <= k < |t|
      ensures t[k].s == s0 + RoadLength(t[..k])
    {
      if k == 0 {
        assert t[..0] == [];
      } else {
        assert t[..k] == [seg] + segs[..k - 1];
        RoadLengthCons(seg, segs[..k - 1]);
      }
    }
  }

  /**
   * The records _fit_adaptive_line_segments emits for pts starting at s0:
   * one `line` per pair of consecutive points, the pair (pts[k], pts[k+1])
   * placed at s0 plus the length of the polyline up to pts[k].
   */
  function LinesFrom(lib: Libm, pts: seq<Point>, s0: real): seq<Segment>
  {
    if |pts| < 2 then []
    else
      var init := pts[..|pts| - 1];
      LinesFrom(lib, init, s0) +
        [LineSegment(lib, pts[|pts| - 2], pts[|pts| - 1], s0 + PathLength(lib, init), |pts| == 2)]
  }

  lemma {:induction false} LinesFromLength(lib: Libm, pts: seq<Point>, s0: real)
    ensures |LinesFrom(lib, pts, s0)| == if |pts| < 2 then 0 else |pts| - 1
    decreases |pts|
  {
    if |pts| >= 2 {
      LinesFromLength(lib, pts[..|pts| - 1], s0);
    }
  }

  /** Record k runs from pts[k] to pts[k + 1] and only record 0 carries x, y. */
  lemma {:induction false} LinesFromAt(lib: Libm, pts: seq<Point>, s0: real, k: nat)
    requires k + 1 < |pts|
    ensures |LinesFrom(lib, pts, s0)| == |pts| - 1
    ensures var seg := LinesFrom(lib, pts, s0)[k];
      seg.kind == Line && seg.length == Dist(lib, pts[k], pts[k + 1]) &&
      seg.hdg == lib.atan2(pts[k + 1].y - pts[k].y, pts[k + 1].x - pts[k].x) &&
      seg.start == (if k == 0 then Some(pts[0]) else None)
    decreases |pts|
  {
    var init := pts[..|pts| - 1];
    LinesFromLength(lib, init, s0);
    if k + 2 < |pts| {
      LinesFromAt(lib, init, s0, k);
    }
  }

  lemma {:induction false} LinesFromChained(lib: Libm, pts: seq<Point>, s0: real)
    ensures Chained(LinesFrom(lib, pts, s0), s0)
    ensures RoadLength(LinesFrom(lib, pts, s0)) == PathLength(lib, pts)
    decreases |pts|
  {
    if |pts| >= 2 {
      var init := pts[..|pts| - 1];
      LinesFromChained(lib, init, s0);
      var prev := LinesFrom(lib, init, s0);
      var seg := LineSegment(lib, pts[|pts| - 2], pts[|pts| - 1], s0 + PathLength(lib, init), |pts| == 2);
      assert LinesFrom(lib, pts, s0) == prev + [seg];
      RoadLengthSnoc(prev, seg);
      ChainedSnoc(prev, seg, s0);
    }
  }

  /** What the emitted records promise: count, geometry, placement and chaining. */
  lemma LinesFromProperties(lib: Libm, pts: seq<Point>, s0: real)
    ensures var segs := LinesFrom(lib, pts, s0);
      && |segs| == (if |pts| < 2 then 0 else |pts| - 1)
      && (forall k :: 0 <= k < |segs| ==>
            segs[k].kind == Line && segs[k].length == Dist(lib, pts[k], pts[k + 1]) &&
            segs[k].hdg == lib.atan2(pts[k + 1].y - pts[k].y, pts[k + 1].x - pts[k].x))
      && (|segs| > 0 ==> segs[0].start == Some(pts[0]))
      && OnlyFirstPlaced(segs)
      && Chained(segs, s0)
      && RoadLength(segs) == PathLength(lib, pts)
  {
    var segs := LinesFrom(lib, pts, s0);
    LinesFromLength(lib, pts, s0);
    LinesFromChained(lib, pts, s0);
    forall k | 0 <= k < |segs|
      ensures segs[k].kind == Line && segs[k].length == Dist(lib, pts[k], pts[k + 1])
      ensures segs[k].hdg == lib.atan2(pts[k + 1].y - pts[k].y, pts[k + 1].x - pts[k].x)
      ensures segs[k].start == (if k == 0 then Some(pts[0]) else None)
    {
      LinesFromAt(lib, pts, s0, k);
    }
  }

  /**
   * The loop of _fit_adaptive_line_segments keeps segs equal to the records
   * for pts[..i + 1] and s at s0 plus that prefix's length; appending the
   * record for (pts[i], pts[i + 1]) extends both by one point.
   */
  lemma EmitLinesStep(lib: Libm, pts: seq<Point>, s0: real, i: nat, segs: seq<Segment>, s: real)
    requires i + 1 < |pts|
    requires segs == LinesFrom(lib, pts[..i + 1], s0) && s == s0 + PathLength(lib, pts[..i + 1])
    ensures var seg := LineSegment(lib, pts[i], pts[i + 1], s, i == 0);
      segs + [seg] == LinesFrom(lib, pts[..i + 2], s0) &&
      s + seg.length == s0 + PathLength(lib, pts[..i + 2])
  {
    var prefix := pts[..i + 2];
    assert prefix[..|prefix| - 1] == pts[..i + 1];
  }

  /**
   * _fit_adaptive_line_segments with _create_line_segment: one `line` per
   * pair of consecutive points, s accumulating from s0, x and y on the first
   * record only. The line-emission loops of fit_line_segments and of the
   * older convert_road_geometry do the same.
   */
  method EmitLines(lib: Libm, pts: seq<Point>, s0: real) returns (segs: seq<Segment>)
    ensures segs == LinesFrom(lib, pts, s0)
  {
    segs := [];
    if |pts| >= 2 {
      var s := s0;
      var i := 0;
      while i < |pts| - 1
        invariant 0 <= i < |pts|
        invariant segs == LinesFrom(lib, pts[..i + 1], s0)
        invariant s == s0 + PathLength(lib, pts[..i + 1])
      {
        var seg := LineSegment(lib, pts[i], pts[i + 1], s, i == 0);
        EmitLinesStep(lib, pts, s0, i, segs, s);
        segs := segs + [seg];
        s := s + seg.length;
        i := i + 1;
      }
      assert pts[..i + 1] == pts;
    }
  }

  /**
   * The loop of fit_line_segments (in both converters) over the kept
   * points: one `line` per consecutive pair, s accumulating from 0, x and y
   * on the record built while the output list is still empty.
   */
  method EmitKeptLines(lib: Libm, pts: seq<Point>) returns (segs: seq<Segment>)
    ensures segs == LinesFrom(lib, pts, 0.0)
  {
    segs := [];
    if |pts| < 2 {
      return;
    }
    var s := 0.0;
    var i := 0;
    while i < |pts| - 1
      invariant 0 <= i < |pts|
      invariant segs == LinesFrom(lib, pts[..i + 1], 0.0)
      invariant s == PathLength(lib, pts[..i + 1])
    {
      LinesFromLength(lib, pts[..i + 1], 0.0);
      var seg := LineSegment(lib, pts[i], pts[i + 1], s, |segs| == 0);
      EmitLinesStep(lib, pts, 0.0, i, segs, s);
      segs := segs + [seg];
      s := s + seg.length;
      i := i + 1;
    }
    assert pts[..i + 1] == pts;
  }

  /**
   * validate_geometry_continuity: the source walks the records computing
   * end points but never compares them, so every record list is accepted.
   */
  function ValidateGeometryContinuity(segs: seq<Segment>): (ok: bool)
    ensures ok
  {
    true
  }
}
