// XODRParser (src/xodr_parser.py): reads an OpenDRIVE document into road,
// lane-section and junction records with fixed attribute defaults, samples
// each plan-view geometry into 3-D points (ASAM OpenDRIVE 1.7 section 7
// line and arc formulas, a straight line for every other type, z = 0),
// collects the centre lines of the roads that have geometry and reports
// statistics. The parser object keeps the last header, roads and junctions
// it read, and a failed read leaves what was appended before the failure.

module XodrParser {
  import opened Common
  import opened Dicts
  import opened XmlTree

  /** The message parse_file raises with when ElementTree rejects the XML. */
  const XmlParseError: string := "ValueError: XML parse error"

  /** The message parse_file raises with for every other failure (an unreadable file, a float() or int() that raises). */
  const ParseFailed: string := "ValueError: parse failed"

  // ------------------------------------------------------------ records

  /** The geometry types _parse_plan_view recognises (paramPoly3 is not one of them). */
  datatype GeometryType = LineType | ArcType | SpiralType | Poly3Type

  datatype Geometry = Geometry(s: real, x: real, y: real, hdg: real, length: real,
                               kind: Option<GeometryType>, params: Dict<real>)

  datatype Elevation = Elevation(s: real, a: real, b: real, c: real, d: real)

  datatype Width = Width(sOffset: real, a: real, b: real, c: real, d: real)

  datatype Lane = Lane(id: int, laneType: string, level: bool, widths: seq<Width>)

  datatype LaneSection = LaneSection(s: real, left: seq<Lane>, center: seq<Lane>, right: seq<Lane>)

  /** A road record; lateralProfile is always empty in the source and is not kept. */
  datatype Road = Road(id: Option<string>, name: string, length: real, junction: string,
                       planView: seq<Geometry>, elevationProfile: seq<Elevation>, lanes: seq<LaneSection>)

  datatype LaneLink = LaneLink(fromLane: int, toLane: int)

  datatype Connection = Connection(id: Option<string>, incomingRoad: Option<string>, connectingRoad: Option<string>,
                                   contactPoint: Option<string>, laneLinks: seq<LaneLink>)

  datatype Junction = Junction(id: Option<string>, name: string, connections: seq<Connection>)

  datatype Header = Header(revMajor: string, revMinor: string, name: string, version: string, date: string,
                           north: real, south: real, east: real, west: real)

  /** parse_file's result; the header is None while no header element has been read ({} in the source). */
  datatype ParsedData = ParsedData(header: Option<Header>, roads: seq<Road>, junctions: seq<Junction>)

  // ------------------------------------------------------ list parsing

  /** The position of the first element f rejects, |es| when it accepts all. */
  function FirstFailure<T>(es: seq<Element>, f: Element -> Option<T>): (k: nat)
    ensures k <= |es|
    ensures forall i :: 0 <= i < k ==> f(es[i]).Some?
    ensures k < |es| ==> f(es[k]).None?
  {
    if es == [] then 0
    else if f(es[0]).None? then 0
    else 1 + FirstFailure(es[1..], f)
  }

  /** The records a loop appends before the first element that raises. */
  function Prefix<T>(es: seq<Element>, f: Element -> Option<T>): (r: seq<T>)
    ensures |r| == FirstFailure(es, f)
  {
    var k := FirstFailure(es, f);
    seq(k, i requires 0 <= i < k => f(es[i]).value)
  }

  /** A loop that appends f(e) for each element: the list, or None when one of them raises. */
  function ParseAll<T>(es: seq<Element>, f: Element -> Option<T>): (r: Option<seq<T>>)
    ensures r.Some? <==> forall i :: 0 <= i < |es| ==> f(es[i]).Some?
    ensures r.Some? ==> |r.value| == |es| && forall i :: 0 <= i < |es| ==> r.value[i] == f(es[i]).value
  {
    if FirstFailure(es, f) < |es| then None else Some(Prefix(es, f))
  }

  /** The elements tag under the first child container of e, none when e has no such child. */
  function Nested(e: Element, container: string, tag: string): seq<Element>
  {
    match Find(e, container)
    case None => []
    case Some(c) => FindAll(c, tag)
  }

  function Num(e: Element, name: string): Option<real>
  {
    FloatAttribute(e, name, "0")
  }

  // --------------------------------------------------- element parsers
  // Each returns None where float() or int() raises inside it.

  /** The type and params of a geometry: the first of line, arc, spiral, poly3 among its children. */
  function ShapeOf(e: Element): Option<(Option<GeometryType>, Dict<real>)>
  {
    if Find(e, "line").Some? then Some((Some(LineType), []))
    else if Find(e, "arc").Some? then
      var c := Num(Find(e, "arc").value, "curvature");
      if c.None? then None else Some((Some(ArcType), [("curvature", c.value)]))
    else if Find(e, "spiral").Some? then
      var sp := Find(e, "spiral").value;
      var cs := Num(sp, "curvStart");
      var ce := Num(sp, "curvEnd");
      if cs.None? || ce.None? then None
      else Some((Some(SpiralType), [("curvStart", cs.value), ("curvEnd", ce.value)]))
    else if Find(e, "poly3").Some? then
      var p := Find(e, "poly3").value;
      var a, b, c, d := Num(p, "a"), Num(p, "b"), Num(p, "c"), Num(p, "d");
      if a.None? || b.None? || c.None? || d.None? then None
      else Some((Some(Poly3Type), [("a", a.value), ("b", b.value), ("c", c.value), ("d", d.value)]))
    else Some((None, []))
  }

  /** One geometry of _parse_plan_view. */
  function ParseGeometry(e: Element): Option<Geometry>
  {
    var s, x, y, hdg, length := Num(e, "s"), Num(e, "x"), Num(e, "y"), Num(e, "hdg"), Num(e, "length");
    var shape := ShapeOf(e);
    if s.None? || x.None? || y.None? || hdg.None? || length.None? || shape.None? then None
    else Some(Geometry(s.value, x.value, y.value, hdg.value, length.value, shape.value.0, shape.value.1))
  }

  /** One elevation of _parse_elevation_profile. */
  function ParseElevation(e: Element): Option<Elevation>
  {
    var s, a, b, c, d := Num(e, "s"), Num(e, "a"), Num(e, "b"), Num(e, "c"), Num(e, "d");
    if s.None? || a.None? || b.None? || c.None? || d.None? then None
    else Some(Elevation(s.value, a.value, b.value, c.value, d.value))
  }

  /** One width entry of _parse_lane. */
  function ParseWidth(e: Element): Option<Width>
  {
    var o, a, b, c, d := Num(e, "sOffset"), Num(e, "a"), Num(e, "b"), Num(e, "c"), Num(e, "d");
    if o.None? || a.None? || b.None? || c.None? || d.None? then None
    else Some(Width(o.value, a.value, b.value, c.value, d.value))
  }

  /** _parse_lane: id defaults to 0, type to driving, level is true only for the text true. */
  function ParseLane(e: Element): Option<Lane>
  {
    var id := IntAttribute(e, "id", "0");
    var ws := ParseAll(FindAll(e, "width"), ParseWidth);
    if id.None? || ws.None? then None
    else Some(Lane(id.value, AttributeOr(e, "type", "driving"), AttributeOr(e, "level", "false") == "true", ws.value))
  }

  /** One laneSection of _parse_lanes: its left, center and right lanes. */
  function ParseLaneSection(e: Element): Option<LaneSection>
  {
    var s := Num(e, "s");
    var left := ParseAll(Nested(e, "left", "lane"), ParseLane);
    var center := ParseAll(Nested(e, "center", "lane"), ParseLane);
    var right := ParseAll(Nested(e, "right", "lane"), ParseLane);
    if s.None? || left.None? || center.None? || right.None? then None
    else Some(LaneSection(s.value, left.value, center.value, right.value))
  }

  /** One road of _parse_roads, with its plan view, elevation profile and lane sections. */
  function ParseRoad(e: Element): Option<Road>
  {
    var length := Num(e, "length");
    var planView := ParseAll(Nested(e, "planView", "geometry"), ParseGeometry);
    var elevation := ParseAll(Nested(e, "elevationProfile", "elevation"), ParseElevation);
    var lanes := ParseAll(Nested(e, "lanes", "laneSection"), ParseLaneSection);
    if length.None? || planView.None? || elevation.None? || lanes.None? then None
    else Some(Road(Attribute(e, "id"), AttributeOr(e, "name", ""), length.value, AttributeOr(e, "junction", "-1"),
                   planView.value, elevation.value, lanes.value))
  }

  function ParseLaneLink(e: Element): Option<LaneLink>
  {
    var f, t := IntAttribute(e, "from", "0"), IntAttribute(e, "to", "0");
    if f.None? || t.None? then None else Some(LaneLink(f.value, t.value))
  }

  function ParseConnection(e: Element): Option<Connection>
  {
    var links := ParseAll(FindAll(e, "laneLink"), ParseLaneLink);
    if links.None? then None
    else Some(Connection(Attribute(e, "id"), Attribute(e, "incomingRoad"), Attribute(e, "connectingRoad"),
                         Attribute(e, "contactPoint"), links.value))
  }

  /** One junction of _parse_junctions. */
  function ParseJunction(e: Element): Option<Junction>
  {
    var cs := ParseAll(FindAll(e, "connection"), ParseConnection);
    if cs.None? then None else Some(Junction(Attribute(e, "id"), AttributeOr(e, "name", ""), cs.value))
  }

  /** _parse_header: None without a header element, otherwise the header, or None inside when float() raises. */
  function HeaderOf(root: Element): Option<Option<Header>>
  {
    match Find(root, "header")
    case None => None
    case Some(h) =>
      var n, s, e, w := Num(h, "north"), Num(h, "south"), Num(h, "east"), Num(h, "west");
      if n.None? || s.None? || e.None? || w.None? then Some(None)
      else Some(Some(Header(AttributeOr(h, "revMajor", "1"), AttributeOr(h, "revMinor", "4"), AttributeOr(h, "name", ""),
                            AttributeOr(h, "version", "1.0"), AttributeOr(h, "date", ""),
                            n.value, s.value, e.value, w.value)))
  }

  /** Whether _parse_header returns without raising. */
  predicate HeaderParses(root: Element)
  {
    HeaderOf(root).None? || HeaderOf(root).value.Some?
  }

  /** The header after _parse_header: a header element replaces it, its absence keeps the previous one. */
  function HeaderAfter(previous: Option<Header>, root: Element): Option<Header>
  {
    var h := HeaderOf(root);
    if h.Some? && h.value.Some? then h.value else previous
  }

  /** parse_file on a document, for a parser whose previous header is given. */
  function ParseDocument(previous: Option<Header>, doc: Document): Result<ParsedData>
  {
    match doc
    case Malformed => Err(XmlParseError)
    case Unreadable => Err(ParseFailed)
    case Parsed(root) =>
      var roads := ParseAll(FindAll(root, "road"), ParseRoad);
      var junctions := ParseAll(FindAll(root, "junction"), ParseJunction);
      if !HeaderParses(root) || roads.None? || junctions.None? then Err(ParseFailed)
      else Ok(ParsedData(HeaderAfter(previous, root), roads.value, junctions.value))
  }

  // ------------------------------------------------------- properties

  /** Geometry attributes that are absent read as 0. */
  lemma GeometryDefaults(e: Element)
    requires ParseGeometry(e).Some?
    ensures Attribute(e, "s").None? ==> ParseGeometry(e).value.s == 0.0
    ensures Attribute(e, "x").None? ==> ParseGeometry(e).value.x == 0.0
    ensures Attribute(e, "y").None? ==> ParseGeometry(e).value.y == 0.0
    ensures Attribute(e, "hdg").None? ==> ParseGeometry(e).value.hdg == 0.0
    ensures Attribute(e, "length").None? ==> ParseGeometry(e).value.length == 0.0
  {
    ZeroParses();
  }

  /**
   * A line child wins over every other type, and the type is None exactly
   * when the geometry has none of the four recognised children.
   */
  lemma GeometryTypeRule(e: Element)
    requires ParseGeometry(e).Some?
    ensures Find(e, "line").Some? ==> ParseGeometry(e).value.kind == Some(LineType)
    ensures ParseGeometry(e).value.kind.None? <==>
              Find(e, "line").None? && Find(e, "arc").None? && Find(e, "spiral").None? && Find(e, "poly3").None?
  {
  }

  /** A geometry whose only children are paramPoly3 records has no type. */
  lemma ParamPoly3Unrecognised(e: Element)
    requires forall i :: 0 <= i < |e.children| ==> e.children[i].tag == "paramPoly3"
    ensures ShapeOf(e) == Some((None, []))
  {
    var t := "paramPoly3";
    assert t[0] != "line"[0] && t[0] != "arc"[0] && t[1] != "spiral"[1] && t[1] != "poly3"[1];
  }

  /** A lane's level is true exactly for the attribute text "true"; an absent type reads as driving. */
  lemma LaneDefaults(e: Element)
    requires ParseLane(e).Some?
    ensures ParseLane(e).value.level <==> Attribute(e, "level") == Some("true")
    ensures Attribute(e, "type").None? ==> ParseLane(e).value.laneType == "driving"
    ensures |ParseLane(e).value.widths| == |FindAll(e, "width")|
  {
  }

  /** Width coefficients that are absent read as 0. */
  lemma WidthDefaults(e: Element)
    requires ParseWidth(e).Some?
    ensures Attribute(e, "sOffset").None? ==> ParseWidth(e).value.sOffset == 0.0
    ensures Attribute(e, "a").None? ==> ParseWidth(e).value.a == 0.0
    ensures Attribute(e, "b").None? ==> ParseWidth(e).value.b == 0.0
    ensures Attribute(e, "c").None? ==> ParseWidth(e).value.c == 0.0
    ensures Attribute(e, "d").None? ==> ParseWidth(e).value.d == 0.0
  {
    ZeroParses();
  }

  // --------------------------------------------------------- sampling

  datatype Point3 = Point3(x: real, y: real, z: real)

  /** Below this |curvature| an arc is sampled as a line. */
  const ArcEpsilon: real := 0.0000000001

  /** params['curvature']; every parsed arc carries it. */
  function Curvature(g: Geometry): real
  {
    GetOr(g.params, "curvature", 0.0)
  }

  /** A point on the circle of curvature k through (x0, y0) with heading hdg, at distance s. */
  function CirclePoint(lib: Libm, x0: real, y0: real, hdg: real, k: real, s: real): Point3
    requires k != 0.0
  {
    var radius := 1.0 / k;
    var angle := s * k;
    Point3(x0 + radius * (lib.sin(hdg + angle) - lib.sin(hdg)), y0 - radius * (lib.cos(hdg + angle) - lib.cos(hdg)), 0.0)
  }

  /** The point at distance s along a geometry: the line formula, the circular one for an arc with |curvature| > 1e-10; z is 0. */
  function PointAt(lib: Libm, g: Geometry, s: real): Point3
  {
    var k := Curvature(g);
    if g.kind == Some(ArcType) && Abs(k) > ArcEpsilon then CirclePoint(lib, g.x, g.y, g.hdg, k, s)
    else Point3(g.x + s * lib.cos(g.hdg), g.y + s * lib.sin(g.hdg), 0.0)
  }

  /** num_points = max(2, int(length / resolution) + 1). */
  function SampleCount(length: real, resolution: real): (n: int)
    requires resolution != 0.0
    ensures n >= 2
  {
    MaxInt(2, Trunc(length / resolution) + 1)
  }

  /** s_i = (i / (n - 1)) * length. */
  function Station(i: int, n: int, length: real): real
    requires n >= 2
  {
    (i as real / (n - 1) as real) * length
  }

  /** _generate_geometry_points for a non-zero resolution. */
  function Samples(lib: Libm, g: Geometry, resolution: real): (pts: seq<Point3>)
    requires resolution != 0.0
    ensures |pts| == SampleCount(g.length, resolution)
  {
    var n := SampleCount(g.length, resolution);
    seq(n, i requires 0 <= i < n => PointAt(lib, g, Station(i, n, g.length)))
  }

  /** The per-geometry point lists of a plan view, concatenated in order. */
  function RoadSamples(lib: Libm, planView: seq<Geometry>, resolution: real): seq<Point3>
    requires resolution != 0.0
  {
    if planView == [] then []
    else RoadSamples(lib, planView[..|planView| - 1], resolution) + Samples(lib, planView[|planView| - 1], resolution)
  }

  /** generate_road_points: [] for an empty plan view, ZeroDivisionError for a zero resolution otherwise. */
  function RoadPoints(lib: Libm, planView: seq<Geometry>, resolution: real): Result<seq<Point3>>
  {
    if planView == [] then Ok([])
    else if resolution == 0.0 then Err(ZeroDivision)
    else Ok(RoadSamples(lib, planView, resolution))
  }

  /** The first station is 0 and the last is the geometry's length. */
  lemma StationEnds(n: int, length: real)
    requires n >= 2
    ensures Station(0, n, length) == 0.0
    ensures Station(n - 1, n, length) == length
  {
    var d := (n - 1) as real;
    assert (n - 1) as real / d == 1.0;
  }

  /** For a non-negative length the stations never decrease. */
  lemma StationsGrow(n: int, length: real, i: int, j: int)
    requires n >= 2 && length >= 0.0 && 0 <= i <= j < n
    ensures Station(i, n, length) <= Station(j, n, length)
  {
    var d := (n - 1) as real;
    DivMonotone(i as real, j as real, d);
    MulMonotone(i as real / d, j as real / d, length);
  }

  lemma DivMonotone(a: real, b: real, d: real)
    requires a <= b && d > 0.0
    ensures a / d <= b / d
  {
    var q := (b - a) / d;
    assert q * d == b - a;
    assert b / d - a / d == q;
  }

  lemma MulMonotone(a: real, b: real, c: real)
    requires a <= b && c >= 0.0
    ensures a * c <= b * c
  {
    assert b * c - a * c == (b - a) * c;
  }

  /** Every geometry's samples start at its (x, y) at z = 0, and every sample lies at z = 0. */
  lemma SamplesStart(lib: Libm, g: Geometry, resolution: real)
    requires resolution != 0.0
    ensures Samples(lib, g, resolution)[0] == Point3(g.x, g.y, 0.0)
    ensures forall i :: 0 <= i < |Samples(lib, g, resolution)| ==> Samples(lib, g, resolution)[i].z == 0.0
  {
    var n := SampleCount(g.length, resolution);
    StationEnds(n, g.length);
    assert g.hdg + 0.0 * Curvature(g) == g.hdg;
  }

  /** A line ends at (x + length cos hdg, y + length sin hdg). */
  lemma LineSamplesEnd(lib: Libm, g: Geometry, resolution: real)
    requires resolution != 0.0 && g.kind == Some(LineType)
    ensures var pts := Samples(lib, g, resolution);
            pts[|pts| - 1] == Point3(g.x + g.length * lib.cos(g.hdg), g.y + g.length * lib.sin(g.hdg), 0.0)
  {
    var n := SampleCount(g.length, resolution);
    StationEnds(n, g.length);
    var pts := Samples(lib, g, resolution);
    assert pts[n - 1] == PointAt(lib, g, Station(n - 1, n, g.length));
    assert PointAt(lib, g, g.length) == Point3(g.x + g.length * lib.cos(g.hdg), g.y + g.length * lib.sin(g.hdg), 0.0);
  }

  /** Each geometry contributes its own sample count, at least two points. */
  lemma {:induction false} RoadSamplesCount(lib: Libm, planView: seq<Geometry>, resolution: real)
    requires resolution != 0.0
    ensures |RoadSamples(lib, planView, resolution)| >= 2 * |planView|
    ensures planView != [] ==> RoadSamples(lib, planView, resolution) != []
  {
    if planView != [] {
      RoadSamplesCount(lib, planView[..|planView| - 1], resolution);
    }
  }

  /** _generate_geometry_points. */
  method GenerateGeometryPoints(lib: Libm, g: Geometry, resolution: real) returns (r: Result<seq<Point3>>)
    ensures resolution == 0.0 ==> r == Err(ZeroDivision)
    ensures resolution != 0.0 ==> r == Ok(Samples(lib, g, resolution))
  {
    if resolution == 0.0 {
      return Err(ZeroDivision);
    }
    var n := SampleCount(g.length, resolution);
    var points: seq<Point3> := [];
    for i := 0 to n
      invariant points == seq(i, k requires 0 <= k < i => PointAt(lib, g, Station(k, n, g.length)))
    {
      points := points + [PointAt(lib, g, Station(i, n, g.length))];
    }
    return Ok(points);
  }

  /** generate_road_points: the geometries' points, extended in plan-view order. */
  method GenerateRoadPoints(lib: Libm, planView: seq<Geometry>, resolution: real) returns (r: Result<seq<Point3>>)
    ensures r == RoadPoints(lib, planView, resolution)
  {
    var points: seq<Point3> := [];
    for i := 0 to |planView|
      invariant resolution != 0.0 ==> points == RoadSamples(lib, planView[..i], resolution)
      invariant resolution == 0.0 ==> i == 0 && points == []
    {
      var more := GenerateGeometryPoints(lib, planView[i], resolution);
      if more.Err? {
        return more;
      }
      assert planView[..i + 1][..i] == planView[..i];
      points := points + more.value;
    }
    assert planView[..|planView|] == planView;
    return Ok(points);
  }

  // -------------------------------------------------------- centre lines

  datatype CenterLine = CenterLine(coordinates: seq<Point3>, length: real)

  /** get_road_center_lines' dict, keyed by road id (None for a road without one). */
  type CenterLines = Assoc<Option<string>, CenterLine>

  /** A road get_road_center_lines includes: one with a plan view. */
  predicate Drawn(r: Road)
  {
    r.planView != []
  }

  /** get_road_center_lines on these roads: a later road with the same id replaces the entry. */
  function CenterLinesOf(lib: Libm, roads: seq<Road>, resolution: real): Result<CenterLines>
  {
    if roads == [] then Ok([])
    else
      var init := CenterLinesOf(lib, roads[..|roads| - 1], resolution);
      var r := roads[|roads| - 1];
      if init.Err? then init
      else if !Drawn(r) then init
      else match RoadPoints(lib, r.planView, resolution)
        case Err(m) => Err(m)
        case Ok(pts) => if pts == [] then init else Ok(Put(init.value, r.id, CenterLine(pts, r.length)))
  }

  /** With a zero resolution get_road_center_lines raises exactly when some road has a plan view. */
  lemma {:induction false} CenterLinesZeroResolution(lib: Libm, roads: seq<Road>)
    ensures CenterLinesOf(lib, roads, 0.0).Err? <==> exists i :: 0 <= i < |roads| && Drawn(roads[i])
  {
    if roads != [] {
      var init := roads[..|roads| - 1];
      CenterLinesZeroResolution(lib, init);
      assert forall i :: 0 <= i < |init| ==> init[i] == roads[i];
    }
  }

  /** For a non-zero resolution the centre lines hold exactly the ids of the roads with a plan view. */
  lemma {:induction false} CenterLinesKeys(lib: Libm, roads: seq<Road>, resolution: real, id: Option<string>)
    requires resolution != 0.0
    ensures CenterLinesOf(lib, roads, resolution).Ok?
    ensures Get(CenterLinesOf(lib, roads, resolution).value, id).Some? <==>
              exists i :: 0 <= i < |roads| && Drawn(roads[i]) && roads[i].id == id
  {
    if roads != [] {
      var init := roads[..|roads| - 1];
      var r := roads[|roads| - 1];
      CenterLinesKeys(lib, init, resolution, id);
      assert forall i :: 0 <= i < |init| ==> init[i] == roads[i];
      RoadSamplesCount(lib, r.planView, resolution);
      if Drawn(r) {
        PutGet(CenterLinesOf(lib, init, resolution).value, r.id,
               CenterLine(RoadSamples(lib, r.planView, resolution), r.length), id);
      }
    }
  }

  /** Each id's entry holds the points and length of the last road with that id and a plan view. */
  lemma {:induction false} CenterLinesLast(lib: Libm, roads: seq<Road>, resolution: real, i: nat)
    requires resolution != 0.0 && i < |roads| && Drawn(roads[i])
    requires forall j :: i < j < |roads| ==> !(Drawn(roads[j]) && roads[j].id == roads[i].id)
    ensures CenterLinesOf(lib, roads, resolution).Ok?
    ensures Get(CenterLinesOf(lib, roads, resolution).value, roads[i].id)
            == Some(CenterLine(RoadSamples(lib, roads[i].planView, resolution), roads[i].length))
  {
    var init := roads[..|roads| - 1];
    var r := roads[|roads| - 1];
    CenterLinesKeys(lib, init, resolution, roads[i].id);
    RoadSamplesCount(lib, r.planView, resolution);
    if i < |roads| - 1 {
      CenterLinesLast(lib, init, resolution, i);
      if Drawn(r) {
        PutGet(CenterLinesOf(lib, init, resolution).value, r.id,
               CenterLine(RoadSamples(lib, r.planView, resolution), r.length), roads[i].id);
      }
    } else {
      PutGet(CenterLinesOf(lib, init, resolution).value, r.id,
             CenterLine(RoadSamples(lib, r.planView, resolution), r.length), r.id);
    }
  }

  // ----------------------------------------------------------- statistics

  datatype Statistics = Statistics(roadsCount: int, junctionsCount: int, totalLength: real,
                                   geometryTypes: Assoc<Option<GeometryType>, int>, header: Option<Header>)

  /** The type of every geometry of every road, road by road. */
  function Kinds(roads: seq<Road>): seq<Option<GeometryType>>
  {
    if roads == [] then []
    else Kinds(roads[..|roads| - 1]) + KindsOf(roads[|roads| - 1].planView)
  }

  function KindsOf(planView: seq<Geometry>): seq<Option<GeometryType>>
  {
    seq(|planView|, i requires 0 <= i < |planView| => planView[i].kind)
  }

  function Lengths(roads: seq<Road>): seq<real>
  {
    seq(|roads|, i requires 0 <= i < |roads| => roads[i].length)
  }

  /** get_statistics on the parser's state. */
  function StatisticsOf(roads: seq<Road>, junctions: seq<Junction>, header: Option<Header>): Statistics
  {
    Statistics(|roads|, |junctions|, Sum(Lengths(roads)),
               Histogram(Kinds(roads)), header)
  }

  /**
   * get_statistics: one count per road and junction, the sum of the roads'
   * lengths (never negative when no length is), and a type histogram whose
   * counts add up to the number of geometries over all roads.
   */
  lemma StatisticsSpec(roads: seq<Road>, junctions: seq<Junction>, header: Option<Header>, k: Option<GeometryType>)
    ensures var st := StatisticsOf(roads, junctions, header);
            st.roadsCount == |roads| && st.junctionsCount == |junctions|
            && (roads == [] ==> st.totalLength == 0.0)
            && ((forall i :: 0 <= i < |roads| ==> roads[i].length >= 0.0) ==> st.totalLength >= 0.0)
            && TotalCount(st.geometryTypes) == |Kinds(roads)|
            && GetOr(st.geometryTypes, k, 0) == Occurrences(Kinds(roads), k)
  {
    HistogramTotal(Kinds(roads));
    HistogramCounts(Kinds(roads), k);
    LengthsNonNegative(roads);
  }

  /** With no negative road length the summed length is not negative. */
  lemma {:induction false} LengthsNonNegative(roads: seq<Road>)
    ensures (forall i :: 0 <= i < |roads| ==> roads[i].length >= 0.0) ==> Sum(Lengths(roads)) >= 0.0
  {
    if roads != [] {
      var init := roads[..|roads| - 1];
      LengthsNonNegative(init);
      assert Lengths(roads)[..|roads| - 1] == Lengths(init);
    }
  }

  /** One more parsed road adds its length to the total and counts one more road. */
  lemma StatisticsSnoc(roads: seq<Road>, r: Road, junctions: seq<Junction>, header: Option<Header>)
    ensures var before := StatisticsOf(roads, junctions, header);
            var after := StatisticsOf(roads + [r], junctions, header);
            after.totalLength == before.totalLength + r.length
            && after.roadsCount == before.roadsCount + 1
  {
    assert Lengths(roads + [r])[..|roads|] == Lengths(roads);
  }

  /** Kinds holds one entry per geometry of every road. */
  lemma {:induction false} KindsCount(roads: seq<Road>)
    ensures |Kinds(roads)| == GeometryCount(roads)
  {
    if roads != [] {
      KindsCount(roads[..|roads| - 1]);
    }
  }

  function GeometryCount(roads: seq<Road>): nat
  {
    if roads == [] then 0 else GeometryCount(roads[..|roads| - 1]) + |roads[|roads| - 1].planView|
  }

  lemma KindsSnoc(roads: seq<Road>, r: Road)
    ensures Kinds(roads + [r]) == Kinds(roads) + KindsOf(r.planView)
  {
    assert (roads + [r])[..|roads|] == roads;
  }

  // --------------------------------------------------------------- parser

  /** XODRParser: the header, roads and junctions of the last document read. */
  class XodrParser {
    var roads: seq<Road>
    var junctions: seq<Junction>
    var header: Option<Header>

    constructor()
      ensures roads == [] && junctions == [] && header == None
    {
      roads := [];
      junctions := [];
      header := None;
    }

    /**
     * parse_file: the result of ParseDocument. A document ElementTree
     * rejects, or a header that raises, changes nothing; otherwise the
     * header is replaced when present, roads holds the roads read before
     * the first that raises, and junctions is refilled only when every
     * road was read.
     */
    method ParseFile(doc: Document) returns (r: Result<ParsedData>)
      modifies this
      ensures r == ParseDocument(old(header), doc)
      ensures r.Ok? ==> r.value == ParsedData(header, roads, junctions)
      ensures !doc.Parsed? || !HeaderParses(doc.root) ==>
                header == old(header) && roads == old(roads) && junctions == old(junctions)
      ensures doc.Parsed? && HeaderParses(doc.root) ==>
                header == HeaderAfter(old(header), doc.root)
                && roads == Prefix(FindAll(doc.root, "road"), ParseRoad)
                && junctions == (if ParseAll(FindAll(doc.root, "road"), ParseRoad).Some?
                                 then Prefix(FindAll(doc.root, "junction"), ParseJunction) else old(junctions))
    {
      if !doc.Parsed? {
        return if doc.Malformed? then Err(XmlParseError) else Err(ParseFailed);
      }
      var root := doc.root;
      var h := HeaderOf(root);
      if h.Some? {
        if h.value.None? {
          return Err(ParseFailed);
        }
        header := h.value;
      }
      var ok := ParseRoads(root);
      if !ok {
        return Err(ParseFailed);
      }
      ok := ParseJunctions(root);
      if !ok {
        return Err(ParseFailed);
      }
      return Ok(ParsedData(header, roads, junctions));
    }

    /** _parse_roads: roads is emptied, then each road is appended until one raises. */
    method ParseRoads(root: Element) returns (ok: bool)
      modifies this
      ensures header == old(header) && junctions == old(junctions)
      ensures roads == Prefix(FindAll(root, "road"), ParseRoad)
      ensures ok <==> ParseAll(FindAll(root, "road"), ParseRoad).Some?
    {
      roads := [];
      roads, ok := AppendParsed(FindAll(root, "road"), ParseRoad);
    }

    /** _parse_junctions: junctions is emptied, then each junction is appended until one raises. */
    method ParseJunctions(root: Element) returns (ok: bool)
      modifies this
      ensures header == old(header) && roads == old(roads)
      ensures junctions == Prefix(FindAll(root, "junction"), ParseJunction)
      ensures ok <==> ParseAll(FindAll(root, "junction"), ParseJunction).Some?
    {
      junctions := [];
      junctions, ok := AppendParsed(FindAll(root, "junction"), ParseJunction);
    }

    /** get_road_center_lines. */
    method GetRoadCenterLines(lib: Libm, resolution: real) returns (r: Result<CenterLines>)
      ensures r == CenterLinesOf(lib, roads, resolution)
    {
      var lines: CenterLines := [];
      for i := 0 to |roads|
        invariant CenterLinesOf(lib, roads[..i], resolution) == Ok(lines)
      {
        assert roads[..i + 1][..i] == roads[..i];
        if roads[i].planView != [] {
          var points := GenerateRoadPoints(lib, roads[i].planView, resolution);
          if points.Err? {
            assert roads[..i + 1] == roads[..i + 1];
            CenterLinesErrStays(lib, roads, resolution, i + 1);
            return Err(points.error);
          }
          if points.value != [] {
            lines := Put(lines, roads[i].id, CenterLine(points.value, roads[i].length));
          }
        }
      }
      assert roads[..|roads|] == roads;
      return Ok(lines);
    }

    /** get_statistics. */
    method GetStatistics() returns (st: Statistics)
      ensures st == StatisticsOf(roads, junctions, header)
    {
      var types := CountTypes(roads);
      st := Statistics(|roads|, |junctions|, Sum(Lengths(roads)), types, header);
    }
  }

  /** The nested loop of get_statistics over every road's geometries. */
  method CountTypes(roads: seq<Road>) returns (types: Assoc<Option<GeometryType>, int>)
    ensures types == Histogram(Kinds(roads))
  {
    types := [];
    for i := 0 to |roads|
      invariant types == Histogram(Kinds(roads[..i]))
    {
      types := CountPlanView(types, Kinds(roads[..i]), roads[i].planView);
      assert roads[..i + 1] == roads[..i] + [roads[i]];
      KindsSnoc(roads[..i], roads[i]);
    }
    assert roads[..|roads|] == roads;
  }

  /** The inner loop: one more count per geometry of a plan view. */
  method CountPlanView(types0: Assoc<Option<GeometryType>, int>, ghost kinds: seq<Option<GeometryType>>, pv: seq<Geometry>)
    returns (types: Assoc<Option<GeometryType>, int>)
    requires types0 == Histogram(kinds)
    ensures types == Histogram(kinds + KindsOf(pv))
  {
    types := types0;
    assert kinds + KindsOf(pv[..0]) == kinds;
    for j := 0 to |pv|
      invariant types == Histogram(kinds + KindsOf(pv[..j]))
    {
      var ks := kinds + KindsOf(pv[..j]);
      assert (ks + [pv[j].kind])[..|ks|] == ks;
      assert kinds + KindsOf(pv[..j + 1]) == ks + [pv[j].kind];
      types := Put(types, pv[j].kind, GetOr(types, pv[j].kind, 0) + 1);
    }
    assert pv[..|pv|] == pv;
  }

  /** The loop of _parse_roads and _parse_junctions: parse and append each element until one raises. */
  method AppendParsed<T>(es: seq<Element>, f: Element -> Option<T>) returns (items: seq<T>, ok: bool)
    ensures items == Prefix(es, f)
    ensures ok <==> ParseAll(es, f).Some?
  {
    items := [];
    for i := 0 to |es|
      invariant forall k :: 0 <= k < i ==> f(es[k]).Some?
      invariant items == seq(i, k requires 0 <= k < i => f(es[k]).value)
    {
      var item := f(es[i]);
      if item.None? {
        FirstFailureAt(es, f, i);
        return items, false;
      }
      items := items + [item.value];
    }
    FirstFailureAt(es, f, |es|);
    return items, true;
  }

  /** The loop facts pin down the first failure. */
  lemma FirstFailureAt<T>(es: seq<Element>, f: Element -> Option<T>, i: nat)
    requires i <= |es|
    requires forall k :: 0 <= k < i ==> f(es[k]).Some?
    requires i < |es| ==> f(es[i]).None?
    ensures FirstFailure(es, f) == i
    ensures Prefix(es, f) == seq(i, k requires 0 <= k < i => f(es[k]).value)
  {
  }

  /** Once a prefix raises, every longer prefix raises with the same error. */
  lemma {:induction false} CenterLinesErrStays(lib: Libm, roads: seq<Road>, resolution: real, n: nat)
    requires n <= |roads|
    ensures CenterLinesOf(lib, roads[..n], resolution).Err? ==> CenterLinesOf(lib, roads, resolution) == CenterLinesOf(lib, roads[..n], resolution)
    decreases |roads| - n
  {
    if n < |roads| {
      assert roads[..n + 1][..n] == roads[..n];
      CenterLinesErrStays(lib, roads, resolution, n + 1);
    } else {
      assert roads[..n] == roads;
    }
  }
}
