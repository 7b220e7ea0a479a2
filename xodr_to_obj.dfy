// src/xodr_to_obj_converter.py: XODRToOBJConverter turns the roads an
// OpenDRIVE reader returns into a Wavefront OBJ triangle mesh. Each road's
// centre line is sampled geometry by geometry (ASAM OpenDRIVE 1.7 section
// 7), offset by half the road width to the left and right, and the two
// boundary rows are stitched into a triangle strip whose face indices are
// 1-based, as OBJ requires.

module XodrToObj {
  import opened Common
  import opened Dicts
  import opened XmlTree
  import opened XodrParser

  const DefaultRoadWidth: real := 3.5
  const DefaultResolution: real := 0.5

  /** The width _calculate_lane_offset assumes for a lane without one. */
  const DefaultLaneWidth: real := 3.5

  /** A point on a geometry with the heading there. */
  datatype Pose = Pose(x: real, y: real, heading: real)

  /** A triangle as three 1-based vertex numbers. */
  datatype Face = Face(a: int, b: int, c: int)

  /**
   * _calc_spiral_point's numerical integration, which is not part of this
   * model: (x0, y0, hdg, curvStart, curvEnd, length, s) to a pose.
   */
  type SpiralSampler = (real, real, real, real, real, real, real) -> Pose

  // ------------------------------------------------------- point formulas

  /** _calc_line_point. */
  function LinePoint(lib: Libm, x0: real, y0: real, hdg: real, s: real): Pose
  {
    Pose(x0 + s * lib.cos(hdg), y0 + s * lib.sin(hdg), hdg)
  }

  /** _calc_arc_point: the circle of radius 1/curvature; a line below |curvature| 1e-10. */
  function ArcPoint(lib: Libm, x0: real, y0: real, hdg: real, curvature: real, s: real): Pose
  {
    if Abs(curvature) < ArcEpsilon then LinePoint(lib, x0, y0, hdg, s)
    else
      var radius := 1.0 / curvature;
      var angle := s * curvature;
      Pose(x0 + radius * (lib.sin(hdg + angle) - lib.sin(hdg)),
           y0 - radius * (lib.cos(hdg + angle) - lib.cos(hdg)),
           hdg + angle)
  }

  /** _calc_poly3_point: lateral offset t(s) = a + b s + c s^2 + d s^3 from the heading line. */
  function Poly3Point(lib: Libm, x0: real, y0: real, hdg: real, a: real, b: real, c: real, d: real, s: real): Pose
  {
    var t := a + b * s + c * s * s + d * s * s * s;
    var slope := b + 2.0 * c * s + 3.0 * d * s * s;
    Pose(x0 + s * lib.cos(hdg) - t * lib.sin(hdg),
         y0 + s * lib.sin(hdg) + t * lib.cos(hdg),
         hdg + lib.atan2(slope, 1.0))
  }

  /** A line starts at its start point with its own heading, wherever it points. */
  lemma LineStarts(lib: Libm, x0: real, y0: real, hdg: real)
    ensures LinePoint(lib, x0, y0, hdg, 0.0) == Pose(x0, y0, hdg)
  {
  }

  /** An arc starts at its start point too, and turns its heading by s times the curvature. */
  lemma ArcStarts(lib: Libm, x0: real, y0: real, hdg: real, curvature: real, s: real)
    ensures ArcPoint(lib, x0, y0, hdg, curvature, 0.0) == Pose(x0, y0, hdg)
    ensures Abs(curvature) >= ArcEpsilon ==> ArcPoint(lib, x0, y0, hdg, curvature, s).heading == hdg + s * curvature
    ensures Abs(curvature) < ArcEpsilon ==> ArcPoint(lib, x0, y0, hdg, curvature, s) == LinePoint(lib, x0, y0, hdg, s)
  {
    assert hdg + 0.0 * curvature == hdg;
  }

  // ------------------------------------------------------------- sampling

  function Param(g: Geometry, name: string): real
  {
    GetOr(g.params, name, 0.0)
  }

  /** The pose at s on one geometry, dispatched on its type; an untyped geometry is sampled as a line. */
  function PoseAt(lib: Libm, spiral: SpiralSampler, g: Geometry, s: real): Pose
  {
    match g.kind
    case Some(LineType) => LinePoint(lib, g.x, g.y, g.hdg, s)
    case Some(ArcType) => ArcPoint(lib, g.x, g.y, g.hdg, Param(g, "curvature"), s)
    case Some(SpiralType) => spiral(g.x, g.y, g.hdg, Param(g, "curvStart"), Param(g, "curvEnd"), g.length, s)
    case Some(Poly3Type) =>
      Poly3Point(lib, g.x, g.y, g.hdg, Param(g, "a"), Param(g, "b"), Param(g, "c"), Param(g, "d"), s)
    case None => LinePoint(lib, g.x, g.y, g.hdg, s)
  }

  function MeshPoint(lib: Libm, spiral: SpiralSampler, g: Geometry, s: real): Point3
  {
    var p := PoseAt(lib, spiral, g, s);
    Point3(p.x, p.y, 0.0)
  }

  /** _generate_geometry_points for a non-zero resolution: the same stations as the reader's. */
  function MeshSamples(lib: Libm, spiral: SpiralSampler, g: Geometry, resolution: real): (pts: seq<Point3>)
    requires resolution != 0.0
    ensures |pts| == SampleCount(g.length, resolution)
  {
    var n := SampleCount(g.length, resolution);
    seq(n, i requires 0 <= i < n => MeshPoint(lib, spiral, g, Station(i, n, g.length)))
  }

  /** _generate_road_centerline for a non-zero resolution: the geometries' points in plan-view order. */
  function Centerline(lib: Libm, spiral: SpiralSampler, planView: seq<Geometry>, resolution: real): seq<Point3>
    requires resolution != 0.0
  {
    if planView == [] then []
    else Centerline(lib, spiral, planView[..|planView| - 1], resolution)
         + MeshSamples(lib, spiral, planView[|planView| - 1], resolution)
  }

  /** _generate_road_centerline: ZeroDivisionError for a zero resolution unless the plan view is empty. */
  function CenterlineOf(lib: Libm, spiral: SpiralSampler, planView: seq<Geometry>, resolution: real): Result<seq<Point3>>
  {
    if planView == [] then Ok([])
    else if resolution == 0.0 then Err(ZeroDivision)
    else Ok(Centerline(lib, spiral, planView, resolution))
  }

  /** Every geometry contributes at least two points. */
  lemma {:induction false} CenterlineCount(lib: Libm, spiral: SpiralSampler, planView: seq<Geometry>, resolution: real)
    requires resolution != 0.0
    ensures |Centerline(lib, spiral, planView, resolution)| >= 2 * |planView|
  {
    if planView != [] {
      CenterlineCount(lib, spiral, planView[..|planView| - 1], resolution);
    }
  }

  /** A parsed arc always carries its curvature, so params['curvature'] never raises. */
  lemma ParsedArcHasCurvature(e: Element)
    requires ParseGeometry(e).Some? && ParseGeometry(e).value.kind == Some(ArcType)
    ensures Get(ParseGeometry(e).value.params, "curvature").Some?
  {
  }

  /**
   * For lines, untyped geometries and arcs whose |curvature| is not exactly
   * 1e-10, the mesh samples the same points as the OpenDRIVE reader.
   */
  lemma SamplesAgreeWithReader(lib: Libm, spiral: SpiralSampler, g: Geometry, resolution: real)
    requires resolution != 0.0
    requires g.kind == None || g.kind == Some(LineType) || (g.kind == Some(ArcType) && Abs(Curvature(g)) != ArcEpsilon)
    ensures MeshSamples(lib, spiral, g, resolution) == Samples(lib, g, resolution)
  {
    var n := SampleCount(g.length, resolution);
    forall i | 0 <= i < n
      ensures MeshSamples(lib, spiral, g, resolution)[i] == Samples(lib, g, resolution)[i]
    {
      PointsAgree(lib, spiral, g, Station(i, n, g.length));
    }
  }

  lemma PointsAgree(lib: Libm, spiral: SpiralSampler, g: Geometry, s: real)
    requires g.kind == None || g.kind == Some(LineType) || (g.kind == Some(ArcType) && Abs(Curvature(g)) != ArcEpsilon)
    ensures MeshPoint(lib, spiral, g, s) == PointAt(lib, g, s)
  {
    if g.kind == Some(ArcType) {
      var k := Curvature(g);
      assert Param(g, "curvature") == k;
      assert PoseAt(lib, spiral, g, s) == ArcPoint(lib, g.x, g.y, g.hdg, k, s);
      if Abs(k) > ArcEpsilon {
        assert PointAt(lib, g, s) == CirclePoint(lib, g.x, g.y, g.hdg, k, s);
        ArcIsCircle(lib, g.x, g.y, g.hdg, k, s);
      } else {
        assert Abs(k) < ArcEpsilon;
        assert ArcPoint(lib, g.x, g.y, g.hdg, k, s) == LinePoint(lib, g.x, g.y, g.hdg, s);
        assert MeshPoint(lib, spiral, g, s) == Point3(g.x + s * lib.cos(g.hdg), g.y + s * lib.sin(g.hdg), 0.0);
        assert PointAt(lib, g, s) == Point3(g.x + s * lib.cos(g.hdg), g.y + s * lib.sin(g.hdg), 0.0);
      }
    } else {
      assert PoseAt(lib, spiral, g, s) == LinePoint(lib, g.x, g.y, g.hdg, s);
      assert PointAt(lib, g, s) == Point3(g.x + s * lib.cos(g.hdg), g.y + s * lib.sin(g.hdg), 0.0);
    }
  }

  /** Above the threshold _calc_arc_point is the reader's circle. */
  lemma ArcIsCircle(lib: Libm, x0: real, y0: real, hdg: real, k: real, s: real)
    requires Abs(k) > ArcEpsilon
    ensures ArcPoint(lib, x0, y0, hdg, k, s).x == CirclePoint(lib, x0, y0, hdg, k, s).x
    ensures ArcPoint(lib, x0, y0, hdg, k, s).y == CirclePoint(lib, x0, y0, hdg, k, s).y
  {
  }

  // ----------------------------------------------------------- road width

  /** The start widths (width[0].a) of the lanes that have a width entry. */
  function StartWidths(lanes: seq<Lane>): real
  {
    if lanes == [] then 0.0
    else StartWidths(lanes[..|lanes| - 1])
         + (var l := lanes[|lanes| - 1]; if l.widths != [] then l.widths[0].a else 0.0)
  }

  /** One lane section's width: its left lanes and its right lanes; centre lanes count nothing. */
  function SectionWidth(sec: LaneSection): real
  {
    StartWidths(sec.left) + StartWidths(sec.right)
  }

  /** The widest section, 0 when there is none. */
  function WidestSection(sections: seq<LaneSection>): real
  {
    if sections == [] then 0.0
    else Max(WidestSection(sections[..|sections| - 1]), SectionWidth(sections[|sections| - 1]))
  }

  /** _calculate_road_width: the widest section, or the default when that is not positive. */
  function RoadWidthOf(road: Road, default: real): real
  {
    var total := WidestSection(road.lanes);
    if total > 0.0 then total else default
  }

  /** The widest section is at least 0 and every section's width, and is 0 or some section's width. */
  lemma {:induction false} WidestSectionSpec(sections: seq<LaneSection>)
    ensures WidestSection(sections) >= 0.0
    ensures forall i :: 0 <= i < |sections| ==> SectionWidth(sections[i]) <= WidestSection(sections)
    ensures WidestSection(sections) == 0.0
            || exists i :: 0 <= i < |sections| && SectionWidth(sections[i]) == WidestSection(sections)
  {
    if sections != [] {
      var init := sections[..|sections| - 1];
      WidestSectionSpec(init);
      assert forall i :: 0 <= i < |init| ==> init[i] == sections[i];
    }
  }

  /**
   * The road width is the largest section width when some section is wider
   * than 0, and the default otherwise.
   */
  lemma RoadWidthRule(road: Road, default: real)
    ensures (exists i :: 0 <= i < |road.lanes| && SectionWidth(road.lanes[i]) > 0.0) ==>
              RoadWidthOf(road, default) > 0.0
              && (forall i :: 0 <= i < |road.lanes| ==> SectionWidth(road.lanes[i]) <= RoadWidthOf(road, default))
              && (exists i :: 0 <= i < |road.lanes| && SectionWidth(road.lanes[i]) == RoadWidthOf(road, default))
    ensures (forall i :: 0 <= i < |road.lanes| ==> SectionWidth(road.lanes[i]) <= 0.0) ==>
              RoadWidthOf(road, default) == default
  {
    WidestSectionSpec(road.lanes);
  }

  /** The start widths of one side's lanes, summed in a loop. */
  method SumStartWidths(lanes: seq<Lane>, width0: real) returns (width: real)
    ensures width == width0 + StartWidths(lanes)
  {
    width := width0;
    for i := 0 to |lanes|
      invariant width == width0 + StartWidths(lanes[..i])
    {
      assert lanes[..i + 1][..i] == lanes[..i];
      if lanes[i].widths != [] {
        width := width + lanes[i].widths[0].a;
      }
    }
    assert lanes[..|lanes|] == lanes;
  }

  // ------------------------------------------------------------ the mesh

  /** The road direction at centre point i: forward at the first point, backward at the last, their mean between. */
  function Tangent(c: seq<Point3>, i: nat): (real, real)
    requires |c| >= 2 && i < |c|
  {
    if i == 0 then (c[1].x - c[0].x, c[1].y - c[0].y)
    else if i == |c| - 1 then (c[i].x - c[i - 1].x, c[i].y - c[i - 1].y)
    else ((c[i].x - c[i - 1].x + (c[i + 1].x - c[i].x)) / 2.0,
          (c[i].y - c[i - 1].y + (c[i + 1].y - c[i].y)) / 2.0)
  }

  /** The tangent divided by its length, left as it is when the length is not positive. */
  function UnitTangent(lib: Libm, c: seq<Point3>, i: nat): (real, real)
    requires |c| >= 2 && i < |c|
  {
    var (dx, dy) := Tangent(c, i);
    var length := lib.sqrt(dx * dx + dy * dy);
    if length > 0.0 then (dx / length, dy / length) else (dx, dy)
  }

  /** The left boundary point: the centre point moved by half the width along the perpendicular (-dy, dx). */
  function LeftEdge(lib: Libm, c: seq<Point3>, i: nat, half: real): Point3
    requires |c| >= 2 && i < |c|
  {
    var (dx, dy) := UnitTangent(lib, c, i);
    Point3(c[i].x + -dy * half, c[i].y + dx * half, c[i].z)
  }

  /** The right boundary point: moved the other way. */
  function RightEdge(lib: Libm, c: seq<Point3>, i: nat, half: real): Point3
    requires |c| >= 2 && i < |c|
  {
    var (dx, dy) := UnitTangent(lib, c, i);
    Point3(c[i].x - -dy * half, c[i].y - dx * half, c[i].z)
  }

  function LeftEdges(lib: Libm, c: seq<Point3>, half: real): (r: seq<Point3>)
    requires |c| >= 2
    ensures |r| == |c|
  {
    seq(|c|, i requires 0 <= i < |c| => LeftEdge(lib, c, i, half))
  }

  function RightEdges(lib: Libm, c: seq<Point3>, half: real): (r: seq<Point3>)
    requires |c| >= 2
    ensures |r| == |c|
  {
    seq(|c|, i requires 0 <= i < |c| => RightEdge(lib, c, i, half))
  }

  /** The left and right boundary points lie symmetrically about the centre point, at its height. */
  lemma EdgesSymmetric(lib: Libm, c: seq<Point3>, i: nat, half: real)
    requires |c| >= 2 && i < |c|
    ensures LeftEdge(lib, c, i, half).x + RightEdge(lib, c, i, half).x == 2.0 * c[i].x
    ensures LeftEdge(lib, c, i, half).y + RightEdge(lib, c, i, half).y == 2.0 * c[i].y
    ensures LeftEdge(lib, c, i, half).z == c[i].z == RightEdge(lib, c, i, half).z
  {
  }

  /**
   * The two triangles of quad i of a strip whose n left vertices start after
   * vertex number start and whose right vertices follow them:
   * (L_i, R_i, L_i+1) and (L_i+1, R_i, R_i+1), numbered from 1.
   */
  function QuadFaces(start: int, n: int, i: int): seq<Face>
  {
    [Face(start + i + 1, start + n + i + 1, start + i + 2),
     Face(start + i + 2, start + n + i + 1, start + n + i + 2)]
  }

  /** The faces of the first k quads. */
  function StripFaces(start: int, n: int, k: nat): seq<Face>
  {
    if k == 0 then [] else StripFaces(start, n, k - 1) + QuadFaces(start, n, k - 1)
  }

  predicate FaceIn(f: Face, lo: int, hi: int)
  {
    lo <= f.a <= hi && lo <= f.b <= hi && lo <= f.c <= hi
  }

  /** Every face names only vertex numbers from lo to hi. */
  predicate FacesIn(fs: seq<Face>, lo: int, hi: int)
  {
    forall j :: 0 <= j < |fs| ==> FaceIn(fs[j], lo, hi)
  }

  /** Two faces per quad, in quad order. */
  lemma {:induction false} StripFacesPattern(start: int, n: int, k: nat)
    ensures |StripFaces(start, n, k)| == 2 * k
    ensures forall i :: 0 <= i < k ==> StripFaces(start, n, k)[2 * i] == QuadFaces(start, n, i)[0]
    ensures forall i :: 0 <= i < k ==> StripFaces(start, n, k)[2 * i + 1] == QuadFaces(start, n, i)[1]
  {
    if k > 0 {
      StripFacesPattern(start, n, k - 1);
    }
  }

  /** A strip of n - 1 quads only names its own 2n vertices. */
  lemma StripFacesInRange(start: int, n: int)
    requires n >= 2
    ensures FacesIn(StripFaces(start, n, n - 1), start + 1, start + 2 * n)
  {
    var fs := StripFaces(start, n, n - 1);
    StripFacesPattern(start, n, n - 1);
    forall j | 0 <= j < |fs|
      ensures FaceIn(fs[j], start + 1, start + 2 * n)
    {
      var i := j / 2;
      assert 0 <= i < n - 1;
      var q := QuadFaces(start, n, i);
      if j % 2 == 0 {
        assert j == 2 * i;
        assert fs[2 * i] == q[0];
      } else {
        assert j == 2 * i + 1;
        assert fs[2 * i + 1] == q[1];
      }
    }
  }

  /** The left and right boundary rows of a centre line, computed in one loop. */
  method BoundaryPoints(lib: Libm, c: seq<Point3>, half: real) returns (left: seq<Point3>, right: seq<Point3>)
    requires |c| >= 2
    ensures left == LeftEdges(lib, c, half) && right == RightEdges(lib, c, half)
  {
    left, right := [], [];
    for i := 0 to |c|
      invariant left == seq(i, k requires 0 <= k < i => LeftEdge(lib, c, k, half))
      invariant right == seq(i, k requires 0 <= k < i => RightEdge(lib, c, k, half))
    {
      left := left + [LeftEdge(lib, c, i, half)];
      right := right + [RightEdge(lib, c, i, half)];
    }
  }

  // -------------------------------------------------------- road meshes

  /** A mesh can be built for these roads: a zero resolution raises on the first road with a plan view. */
  predicate Meshable(roads: seq<Road>, resolution: real)
  {
    resolution != 0.0 || forall j :: 0 <= j < |roads| ==> !Drawn(roads[j])
  }

  /**
   * The vertices and faces _generate_road_mesh appends for one road when
   * start vertices exist already: nothing for a road without a plan view or
   * with fewer than two centre points, otherwise the left row, the right
   * row and the strip between them.
   */
  function RoadMesh(lib: Libm, spiral: SpiralSampler, road: Road, default: real, resolution: real, start: int)
    : (seq<Point3>, seq<Face>)
    requires resolution != 0.0 || !Drawn(road)
  {
    if !Drawn(road) then ([], [])
    else
      var c := Centerline(lib, spiral, road.planView, resolution);
      if |c| < 2 then ([], [])
      else
        var half := RoadWidthOf(road, default) / 2.0;
        (LeftEdges(lib, c, half) + RightEdges(lib, c, half), StripFaces(start, |c|, |c| - 1))
  }

  /** The mesh of every road, in order, each strip numbered after the vertices before it. */
  function RoadsMesh(lib: Libm, spiral: SpiralSampler, roads: seq<Road>, default: real, resolution: real)
    : (seq<Point3>, seq<Face>)
    requires Meshable(roads, resolution)
  {
    if roads == [] then ([], [])
    else
      var m := RoadsMesh(lib, spiral, roads[..|roads| - 1], default, resolution);
      var r := RoadMesh(lib, spiral, roads[|roads| - 1], default, resolution, |m.0|);
      (m.0 + r.0, m.1 + r.1)
  }

  /** Roads none of which has a plan view leave the mesh empty. */
  lemma {:induction false} UndrawnMeshEmpty(lib: Libm, spiral: SpiralSampler, roads: seq<Road>, default: real, resolution: real)
    requires forall j :: 0 <= j < |roads| ==> !Drawn(roads[j])
    ensures RoadsMesh(lib, spiral, roads, default, resolution) == ([], [])
  {
    if roads != [] {
      UndrawnMeshEmpty(lib, spiral, roads[..|roads| - 1], default, resolution);
    }
  }

  /** How many of the roads have a plan view. */
  function DrawnCount(roads: seq<Road>): nat
  {
    if roads == [] then 0
    else DrawnCount(roads[..|roads| - 1]) + (if Drawn(roads[|roads| - 1]) then 1 else 0)
  }

  /**
   * A road with a plan view gets n >= 2 centre points, 2n vertices (left
   * row, then right row) and 2(n - 1) faces naming only those vertices.
   */
  lemma RoadMeshShape(lib: Libm, spiral: SpiralSampler, road: Road, default: real, resolution: real, start: int)
    requires resolution != 0.0 && Drawn(road)
    ensures var c := Centerline(lib, spiral, road.planView, resolution);
            var m := RoadMesh(lib, spiral, road, default, resolution, start);
            |c| >= 2 && |m.0| == 2 * |c| && |m.1| == 2 * (|c| - 1)
            && FacesIn(m.1, start + 1, start + 2 * |c|)
  {
    var c := Centerline(lib, spiral, road.planView, resolution);
    CenterlineCount(lib, spiral, road.planView, resolution);
    StripFacesPattern(start, |c|, |c| - 1);
    StripFacesInRange(start, |c|);
  }

  /**
   * Across all roads the faces name only vertices that exist (1-based), and
   * every road with a plan view adds exactly two more vertices than faces.
   */
  lemma {:induction false} RoadsMeshSpec(lib: Libm, spiral: SpiralSampler, roads: seq<Road>, default: real, resolution: real)
    requires Meshable(roads, resolution)
    ensures var m := RoadsMesh(lib, spiral, roads, default, resolution);
            FacesIn(m.1, 1, |m.0|) && |m.1| + 2 * DrawnCount(roads) == |m.0|
  {
    if roads != [] {
      var init := roads[..|roads| - 1];
      var road := roads[|roads| - 1];
      RoadsMeshSpec(lib, spiral, init, default, resolution);
      var m := RoadsMesh(lib, spiral, init, default, resolution);
      if Drawn(road) {
        RoadMeshShape(lib, spiral, road, default, resolution, |m.0|);
      }
    }
  }

  // ---------------------------------------------------------- lane offset

  /** lanes[i].get('width', 3.5). */
  function LaneWidth(w: Option<real>): real
  {
    if w.Some? then w.value else DefaultLaneWidth
  }

  function WidthsBefore(widths: seq<Option<real>>, k: nat): real
    requires k <= |widths|
  {
    if k == 0 then 0.0 else WidthsBefore(widths, k - 1) + LaneWidth(widths[k - 1])
  }

  /**
   * _calculate_lane_offset: the centre of lane idx measured from the middle
   * of all the lanes, lane 0 being the leftmost.
   */
  function LaneOffset(widths: seq<Option<real>>, idx: nat): real
    requires idx < |widths|
  {
    WidthsBefore(widths, idx) + LaneWidth(widths[idx]) / 2.0 - WidthsBefore(widths, |widths|) / 2.0
  }

  /** Neighbouring lane centres lie half of each lane's width apart. */
  lemma LaneOffsetStep(widths: seq<Option<real>>, idx: nat)
    requires idx + 1 < |widths|
    ensures LaneOffset(widths, idx + 1) - LaneOffset(widths, idx)
            == (LaneWidth(widths[idx]) + LaneWidth(widths[idx + 1])) / 2.0
  {
  }

  /** Read from the other end, the widths before k lanes are the total less the widths of the other lanes. */
  lemma {:induction false} WidthsBeforeMirror(widths: seq<Option<real>>, mirror: seq<Option<real>>, k: nat)
    requires |mirror| == |widths| && k <= |widths|
    requires forall i :: 0 <= i < |mirror| ==> mirror[i] == widths[|widths| - 1 - i]
    ensures WidthsBefore(mirror, k) + WidthsBefore(widths, |widths| - k) == WidthsBefore(widths, |widths|)
  {
    if k > 0 {
      WidthsBeforeMirror(widths, mirror, k - 1);
    }
  }

  /**
   * The lanes are laid out symmetrically about the middle: numbering them
   * from the other side puts every lane centre at the opposite offset.
   */
  lemma LaneOffsetMirror(widths: seq<Option<real>>, mirror: seq<Option<real>>, idx: nat)
    requires |mirror| == |widths| && idx < |widths|
    requires forall i :: 0 <= i < |mirror| ==> mirror[i] == widths[|widths| - 1 - i]
    ensures LaneOffset(mirror, |widths| - 1 - idx) == -LaneOffset(widths, idx)
  {
    WidthsBeforeMirror(widths, mirror, |widths|);
    WidthsBeforeMirror(widths, mirror, |widths| - 1 - idx);
  }

  /** _calculate_lane_offset's two accumulating loops. */
  method CalculateLaneOffset(widths: seq<Option<real>>, idx: nat) returns (offset: real)
    requires idx < |widths|
    ensures offset == LaneOffset(widths, idx)
  {
    offset := 0.0;
    for i := 0 to idx
      invariant offset == WidthsBefore(widths, i)
    {
      offset := offset + LaneWidth(widths[i]);
    }
    offset := offset + LaneWidth(widths[idx]) / 2.0;
    var total := 0.0;
    for i := 0 to |widths|
      invariant total == WidthsBefore(widths, i)
    {
      total := total + LaneWidth(widths[i]);
    }
    offset := offset - total / 2.0;
  }

  // ------------------------------------------------------------ statistics

  datatype ConversionStats = ConversionStats(verticesCount: int, facesCount: int, roadWidth: real, resolution: real)

  // ------------------------------------------------------------ converter

  /** The roads of a fresh XODRParser's parse_file, None where it raises. */
  method ReadRoads(doc: Document) returns (roads: Option<seq<Road>>)
    ensures ParseDocument(None, doc).Err? ==> roads.None?
    ensures ParseDocument(None, doc).Ok? ==> roads == Some(ParseDocument(None, doc).value.roads)
  {
    var parser := new XodrParser();
    var parsed := parser.ParseFile(doc);
    if parsed.Err? {
      return None;
    }
    return Some(parser.roads);
  }


  /** XODRToOBJConverter: the mesh built so far and the material table. */
  class XodrToObjConverter {
    var roadWidth: real
    var resolution: real
    var vertices: seq<Point3>
    var faces: seq<Face>
    var vertexCount: int
    var materials: Dict<int>
    var laneMaterials: Dict<string>

    /** vertex_count counts the vertices, and every face names existing vertices, from 1. */
    predicate Valid()
      reads this
    {
      vertexCount == |vertices| && FacesIn(faces, 1, |vertices|)
    }

    constructor(roadWidth: real, resolution: real)
      ensures this.roadWidth == roadWidth && this.resolution == resolution
      ensures vertices == [] && faces == [] && vertexCount == 0 && materials == [] && laneMaterials == []
      ensures Valid()
    {
      this.roadWidth := roadWidth;
      this.resolution := resolution;
      vertices := [];
      faces := [];
      vertexCount := 0;
      materials := [];
      laneMaterials := [];
    }

    /** get_conversion_stats: under Valid the vertex count it reports is vertex_count. */
    method GetConversionStats() returns (st: ConversionStats)
      requires Valid()
      ensures st.verticesCount == vertexCount && st.facesCount == |faces|
      ensures st.roadWidth == roadWidth && st.resolution == resolution
    {
      st := ConversionStats(|vertices|, |faces|, roadWidth, resolution);
    }

    /** _calculate_road_width. */
    method CalculateRoadWidth(road: Road) returns (width: real)
      ensures width == RoadWidthOf(road, roadWidth)
    {
      var total := 0.0;
      for i := 0 to |road.lanes|
        invariant total == WidestSection(road.lanes[..i])
      {
        assert road.lanes[..i + 1][..i] == road.lanes[..i];
        var section := SumStartWidths(road.lanes[i].left, 0.0);
        section := SumStartWidths(road.lanes[i].right, section);
        total := Max(total, section);
      }
      assert road.lanes[..|road.lanes|] == road.lanes;
      width := if total > 0.0 then total else roadWidth;
    }

    /** _generate_geometry_points with this converter's resolution. */
    method GenerateGeometryPoints(lib: Libm, spiral: SpiralSampler, g: Geometry) returns (r: Result<seq<Point3>>)
      ensures resolution == 0.0 ==> r == Err(ZeroDivision)
      ensures resolution != 0.0 ==> r == Ok(MeshSamples(lib, spiral, g, resolution))
    {
      if resolution == 0.0 {
        return Err(ZeroDivision);
      }
      var n := SampleCount(g.length, resolution);
      var points: seq<Point3> := [];
      for i := 0 to n
        invariant points == seq(i, k requires 0 <= k < i => MeshPoint(lib, spiral, g, Station(k, n, g.length)))
      {
        var s := Station(i, n, g.length);
        var p := PoseAt(lib, spiral, g, s);
        points := points + [Point3(p.x, p.y, 0.0)];
      }
      return Ok(points);
    }

    /** _generate_road_centerline. */
    method GenerateRoadCenterline(lib: Libm, spiral: SpiralSampler, road: Road) returns (r: Result<seq<Point3>>)
      ensures r == CenterlineOf(lib, spiral, road.planView, resolution)
    {
      var points: seq<Point3> := [];
      for i := 0 to |road.planView|
        invariant resolution != 0.0 ==> points == Centerline(lib, spiral, road.planView[..i], resolution)
        invariant resolution == 0.0 ==> i == 0 && points == []
      {
        var more := GenerateGeometryPoints(lib, spiral, road.planView[i]);
        if more.Err? {
          return more;
        }
        assert road.planView[..i + 1][..i] == road.planView[..i];
        points := points + more.value;
      }
      assert road.planView[..|road.planView|] == road.planView;
      return Ok(points);
    }

    /** Appends points to the vertex list one at a time, counting each. */
    method AppendVertices(points: seq<Point3>)
      modifies this
      ensures vertices == old(vertices) + points && vertexCount == old(vertexCount) + |points|
      ensures faces == old(faces) && roadWidth == old(roadWidth) && resolution == old(resolution)
      ensures materials == old(materials) && laneMaterials == old(laneMaterials)
    {
      for i := 0 to |points|
        invariant vertices == old(vertices) + points[..i] && vertexCount == old(vertexCount) + i
        invariant faces == old(faces) && roadWidth == old(roadWidth) && resolution == old(resolution)
        invariant materials == old(materials) && laneMaterials == old(laneMaterials)
      {
        assert points[..i + 1] == points[..i] + [points[i]];
        vertices := vertices + [points[i]];
        vertexCount := vertexCount + 1;
      }
      assert points[..|points|] == points;
    }

    /** The face loop of _generate_simple_road_mesh: two triangles per quad of the strip. */
    method AppendStrip(start: int, n: int, quads: nat)
      modifies this
      ensures faces == old(faces) + StripFaces(start, n, quads)
      ensures vertices == old(vertices) && vertexCount == old(vertexCount)
      ensures roadWidth == old(roadWidth) && resolution == old(resolution)
      ensures materials == old(materials) && laneMaterials == old(laneMaterials)
    {
      for i := 0 to quads
        invariant faces == old(faces) + StripFaces(start, n, i)
        invariant vertices == old(vertices) && vertexCount == old(vertexCount)
        invariant roadWidth == old(roadWidth) && resolution == old(resolution)
        invariant materials == old(materials) && laneMaterials == old(laneMaterials)
      {
        var leftI, leftNext := start + i, start + i + 1;
        var rightI, rightNext := start + n + i, start + n + i + 1;
        faces := faces + [Face(leftI + 1, rightI + 1, leftNext + 1)];
        faces := faces + [Face(leftNext + 1, rightI + 1, rightNext + 1)];
      }
    }

    /**
     * _generate_simple_road_mesh: the left row and then the right row are
     * appended as vertices, vertex_count grows by 2n, and the strip between
     * them is appended as 2(n - 1) faces numbered after the earlier vertices.
     */
    method GenerateSimpleRoadMesh(lib: Libm, center: seq<Point3>, width: real)
      requires Valid() && |center| >= 2
      modifies this
      ensures Valid()
      ensures vertices == old(vertices) + LeftEdges(lib, center, width / 2.0) + RightEdges(lib, center, width / 2.0)
      ensures faces == old(faces) + StripFaces(old(vertexCount), |center|, |center| - 1)
      ensures vertexCount == old(vertexCount) + 2 * |center|
      ensures roadWidth == old(roadWidth) && resolution == old(resolution)
      ensures materials == old(materials) && laneMaterials == old(laneMaterials)
    {
      var half := width / 2.0;
      var left, right := BoundaryPoints(lib, center, half);
      var start := vertexCount;
      AppendVertices(left);
      AppendVertices(right);
      AppendStrip(start, |left|, |center| - 1);
      StripFacesInRange(start, |center|);
    }

    /** _generate_road_surface_mesh; the lane-based branch is never taken, so it is the simple mesh. */
    method GenerateRoadSurfaceMesh(lib: Libm, center: seq<Point3>, width: real)
      requires Valid()
      modifies this
      ensures Valid()
      ensures |center| < 2 ==> vertices == old(vertices) && faces == old(faces) && vertexCount == old(vertexCount)
      ensures |center| >= 2 ==>
                vertices == old(vertices) + LeftEdges(lib, center, width / 2.0) + RightEdges(lib, center, width / 2.0)
                && faces == old(faces) + StripFaces(old(vertexCount), |center|, |center| - 1)
      ensures roadWidth == old(roadWidth) && resolution == old(resolution)
      ensures materials == old(materials) && laneMaterials == old(laneMaterials)
    {
      if |center| < 2 {
        return;
      }
      GenerateSimpleRoadMesh(lib, center, width);
    }

    /**
     * _generate_road_mesh: raises (false) exactly for a road with a plan view
     * at a zero resolution, changing nothing; otherwise appends the road's
     * mesh.
     */
    method GenerateRoadMesh(lib: Libm, spiral: SpiralSampler, road: Road) returns (ok: bool)
      requires Valid()
      modifies this
      ensures Valid()
      ensures ok <==> resolution != 0.0 || !Drawn(road)
      ensures ok ==> var m := RoadMesh(lib, spiral, road, roadWidth, resolution, old(|vertices|));
                     vertices == old(vertices) + m.0 && faces == old(faces) + m.1
      ensures !ok ==> vertices == old(vertices) && faces == old(faces)
      ensures roadWidth == old(roadWidth) && resolution == old(resolution)
      ensures materials == old(materials) && laneMaterials == old(laneMaterials)
    {
      if road.planView == [] {
        return true;
      }
      var center := GenerateRoadCenterline(lib, spiral, road);
      if center.Err? {
        return false;
      }
      if |center.value| < 2 {
        return true;
      }
      var width := CalculateRoadWidth(road);
      GenerateRoadSurfaceMesh(lib, center.value, width);
      return true;
    }

    /** The road loop of convert_xodr_to_obj, from an empty mesh. */
    method MeshRoads(lib: Libm, spiral: SpiralSampler, roads: seq<Road>) returns (ok: bool)
      requires vertices == [] && faces == [] && vertexCount == 0
      modifies this
      ensures Valid()
      ensures ok <==> Meshable(roads, resolution)
      ensures ok ==> (vertices, faces) == RoadsMesh(lib, spiral, roads, roadWidth, resolution)
      ensures !ok ==> vertices == [] && faces == [] && vertexCount == 0
      ensures roadWidth == old(roadWidth) && resolution == old(resolution)
      ensures materials == old(materials) && laneMaterials == old(laneMaterials)
    {
      for i := 0 to |roads|
        invariant Valid()
        invariant Meshable(roads[..i], resolution)
        invariant (vertices, faces) == RoadsMesh(lib, spiral, roads[..i], roadWidth, resolution)
        invariant roadWidth == old(roadWidth) && resolution == old(resolution)
        invariant materials == old(materials) && laneMaterials == old(laneMaterials)
      {
        assert roads[..i + 1][..i] == roads[..i];
        var done := GenerateRoadMesh(lib, spiral, roads[i]);
        if !done {
          UndrawnMeshEmpty(lib, spiral, roads[..i], roadWidth, resolution);
          return false;
        }
      }
      assert roads[..|roads|] == roads;
      return true;
    }

    /**
     * convert_xodr_to_obj: a document the reader rejects returns false and
     * changes nothing; otherwise the mesh is rebuilt from nothing (the
     * material table is kept), and the call succeeds exactly when no road
     * with a plan view meets a zero resolution, leaving the mesh of every
     * road. Writing the OBJ file is not part of this model.
     */
    method ConvertXodrToObj(lib: Libm, spiral: SpiralSampler, doc: Document) returns (ok: bool)
      modifies this
      ensures roadWidth == old(roadWidth) && resolution == old(resolution)
      ensures materials == old(materials) && laneMaterials == old(laneMaterials)
      ensures ParseDocument(None, doc).Err? ==>
                !ok && vertices == old(vertices) && faces == old(faces) && vertexCount == old(vertexCount)
      ensures ParseDocument(None, doc).Ok? ==>
                Valid() && (ok <==> Meshable(ParseDocument(None, doc).value.roads, resolution))
      ensures ParseDocument(None, doc).Ok? && !ok ==> vertices == [] && faces == [] && vertexCount == 0
      ensures ok ==> ParseDocument(None, doc).Ok?
                     && Meshable(ParseDocument(None, doc).value.roads, resolution)
                     && (vertices, faces) == RoadsMesh(lib, spiral, ParseDocument(None, doc).value.roads, roadWidth, resolution)
    {
      var roads := ReadRoads(doc);
      if roads.None? {
        return false;
      }
      vertices := [];
      faces := [];
      vertexCount := 0;
      ok := MeshRoads(lib, spiral, roads.value);
    }
  }
}
