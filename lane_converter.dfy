// ShpToOpenDriveConverter of SoftwareCopyright/shp2opendrive/shp2xodr.py:
// the configuration merge and the tolerance cap for lane data, the
// lane-based roads_data records, the geometry stage that keeps the roads
// whose conversion succeeded and sums their lengths, and the reference
// segments handed to the generator.
//
// The converter's GeometryConverter is outside this module: its three
// routines for plain roads and its per-surface conversion are the Fitters
// parameter.

module LaneConverter {
  import opened Common
  import opened Dicts
  import opened PlanView
  import opened LaneShapefile
  import opened AttributeValues
  import opened ConversionStats
  import ConversionChain

  /** Lane data caps the geometry tolerance at this many metres. */
  const ToleranceCap: real := 0.3

  /** The default lane_format_settings block. */
  function LaneFormatDefaults(): Value
  {
    Nested([("enabled", Bool(true)), ("road_id_field", Str("RoadID")), ("index_field", Str("Index")),
            ("auto_detect_lane_format", Bool(true)),
            ("lane_surface_generation", Nested([("enabled", Bool(true)), ("width_interpolation", Str("linear")),
                                                ("center_line_calculation", Str("midpoint")),
                                                ("width_sampling_points", Int(50))])),
            ("validation", Nested([("check_index_continuity", Bool(true)), ("min_lanes_per_road", Int(2)),
                                   ("max_width_variation", Real(10.0))]))])
  }

  /** The configuration a converter starts from. */
  function DefaultConfig(): Dict<Value>
  {
    [("geometry_tolerance", Real(1.0)), ("min_road_length", Real(1.0)), ("default_lane_width", Real(3.5)),
     ("default_num_lanes", Int(1)), ("default_speed_limit", Int(50)), ("use_arc_fitting", Bool(false)),
     ("coordinate_precision", Int(3)), ("use_smooth_curves", Bool(true)), ("preserve_detail", Bool(true)),
     ("curve_fitting_mode", Str("parampoly3")), ("polynomial_degree", Int(3)), ("curve_smoothness", Real(0.5)),
     ("lane_format_settings", LaneFormatDefaults())]
  }

  /**
   * config.get('lane_format_settings', {}).get('enabled', False); None when
   * the setting is not a dict, where .get raises.
   */
  function LaneFormatEnabled(config: Dict<Value>): Option<bool>
  {
    var settings: Option<Value> := Get(config, "lane_format_settings");
    if settings.None? then Some(false)
    else if settings.value.Nested? then Some(Truthy(GetOr(settings.value.entries, "enabled", Bool(false))))
    else None
  }

  /**
   * The tolerance the constructor gives its GeometryConverter: the
   * configured one, capped by min(tol, 0.3) when lane data is enabled.
   * None when the constructor raises (min on a non-number, or a
   * lane_format_settings that is not a dict).
   */
  function GeometryTolerance(config: Dict<Value>): Option<Value>
  {
    var t := GetOr(config, "geometry_tolerance", Null);
    match LaneFormatEnabled(config)
    case None => None
    case Some(false) => Some(t)
    case Some(true) =>
      match NumberOf(t)
      case None => None
      case Some(x) => Some(if ToleranceCap < x then Real(ToleranceCap) else t)
  }

  /** A roads_data record: type 'lane_based' or 'traditional'. */
  datatype RoadRecord =
    | LaneRecord(id: string, lanes: seq<LaneSurface>, laneSurfaces: seq<LaneSurface>, laneCount: int,
                 length: real, attributes: Dict<Value>)
    | PlainRecord(rowId: int, coordinates: seq<Point>, length: real, attributes: Dict<Value>)

  /** A converted_roads record. */
  datatype Converted =
    | ConvertedLane(id: string, surfaces: seq<ConversionChain.ConvertedSurface>, lanes: seq<LaneSurface>,
                    laneCount: int, attributes: Dict<Value>, totalLength: real)
    | ConvertedPlain(rowId: int, segments: seq<Segment>, attributes: Dict<Value>, totalLength: real)

  /**
   * The GeometryConverter calls: convert_road_geometry, fit_arc_segments,
   * fit_line_segments and the per-surface body of
   * convert_lane_surface_geometry; Err stands for an exception.
   */
  datatype Fitters = Fitters(
    smooth: seq<Point> -> Result<seq<Segment>>,
    arcs: seq<Point> -> Result<seq<Segment>>,
    lines: seq<Point> -> Result<seq<Segment>>,
    surface: LaneSurface -> Result<ConversionChain.ConvertedSurface>)

  /** use_smooth_curves (default True) picks convert_road_geometry, else use_arc_fitting picks arcs, else lines. */
  function Routine(config: Dict<Value>, f: Fitters): seq<Point> -> Result<seq<Segment>>
  {
    if Truthy(GetOr(config, "use_smooth_curves", Bool(true))) then f.smooth
    else if Truthy(GetOr(config, "use_arc_fitting", Bool(false))) then f.arcs
    else f.lines
  }

  /** _extract_lane_attributes: the first lane's attributes, mapped when a non-empty mapping is given. */
  function LaneAttributesOf(config: Dict<Value>, lanes: seq<LaneSurface>, mapping: Option<Dict<string>>): Dict<Value>
  {
    if lanes == [] then []
    else if mapping.Some? && mapping.value != [] then
      MappedAttributes(InitialAttributes(config), lanes[0].attributes, mapping.value)
    else lanes[0].attributes
  }

  /** A lane road's length: the first lane's centre line, 0 without lanes. */
  function LaneLength(lib: Libm, lanes: seq<LaneSurface>): real
  {
    if lanes == [] then 0.0 else PathLength(lib, lanes[0].centerLine)
  }

  function LaneRoadRecord(lib: Libm, config: Dict<Value>, road: ConversionChain.LaneRoad, mapping: Option<Dict<string>>): RoadRecord
  {
    LaneRecord(road.roadId, road.lanes, road.laneSurfaces, |road.lanes|, LaneLength(lib, road.lanes),
               LaneAttributesOf(config, road.lanes, mapping))
  }

  /** _process_lane_data as a value. */
  function LaneRoadsData(lib: Libm, config: Dict<Value>, roads: seq<ConversionChain.LaneRoad>, mapping: Option<Dict<string>>)
    : seq<RoadRecord>
  {
    seq(|roads|, i requires 0 <= i < |roads| => LaneRoadRecord(lib, config, roads[i], mapping))
  }

  /** _convert_lane_based_geometry and _convert_traditional_geometry; Err stands for the None they return. */
  function ConvertRecord(config: Dict<Value>, f: Fitters, r: RoadRecord): Result<Converted>
  {
    match r
    case LaneRecord(id, lanes, surfaces, count, _, attributes) =>
      var converted := ConversionChain.Successes(f.surface, surfaces);
      if converted == [] then Err("no surface converted")
      else Ok(ConvertedLane(id, converted, lanes, count, attributes, RoadLength(converted[0].centerSegments)))
    case PlainRecord(rowId, coordinates, _, attributes) =>
      match Routine(config, f)(coordinates)
      case Err(e) => Err(e)
      case Ok(segments) =>
        if segments == [] then Err("no segments")
        else Ok(ConvertedPlain(rowId, segments, attributes, RoadLength(segments)))
  }

  /** The roads _convert_geometries keeps. */
  function ConvertedRoads(config: Dict<Value>, f: Fitters, roads: seq<RoadRecord>): seq<Converted>
  {
    ConversionChain.Successes((r: RoadRecord) => ConvertRecord(config, f, r), roads)
  }

  /** The summed total_length of converted roads. */
  function TotalLength(cs: seq<Converted>): real
  {
    if cs == [] then 0.0 else TotalLength(cs[..|cs| - 1]) + cs[|cs| - 1].totalLength
  }

  /** _extract_segments_from_lane_surfaces: the first surface's centre segments, [] without surfaces. */
  function ExtractSegmentsFromLaneSurfaces(surfaces: seq<ConversionChain.ConvertedSurface>): seq<Segment>
  {
    if surfaces == [] then [] else surfaces[0].centerSegments
  }

  // -------------------------------------------------------------- lemmas

  /**
   * The constructor's shallow update: a key the user gives reads as the
   * user's value, whole (a user lane_format_settings replaces the default
   * block), and any other key keeps its default.
   */
  lemma ConfigMerge(user: Dict<Value>, k: string)
    requires DistinctKeys(user)
    ensures Get(Update(DefaultConfig(), user), k) == if Get(user, k).Some? then Get(user, k) else Get(DefaultConfig(), k)
  {
    UpdateGet(DefaultConfig(), user, k);
  }

  lemma DefaultLaneSettings()
    ensures Get(DefaultConfig(), "lane_format_settings") == Some(LaneFormatDefaults())
    ensures Get(DefaultConfig(), "geometry_tolerance") == Some(Real(1.0))
  {
    var d := DefaultConfig();
    var k := "lane_format_settings";
    forall j | 0 <= j < 12
      ensures d[j].0 != k
    {
      assert d[j].0[0] != k[0];
    }
    GetFirst(d, 12, k);
  }

  /**
   * The tolerance cap: without a user lane_format_settings the default
   * block enables lane data, so a numeric tolerance t becomes min(t, 0.3)
   * (1.0 becomes 0.3 by default); a user block replaces the default
   * wholesale, so one without 'enabled' turns the cap off.
   */
  lemma ToleranceRule(user: Dict<Value>, t: real)
    requires DistinctKeys(user)
    requires NumberOf(GetOr(Update(DefaultConfig(), user), "geometry_tolerance", Null)) == Some(t)
    ensures Get(user, "lane_format_settings").None? ==>
              GeometryTolerance(Update(DefaultConfig(), user)).Some? &&
              NumberOf(GeometryTolerance(Update(DefaultConfig(), user)).value) == Some(Min(t, ToleranceCap))
    ensures user == [] ==> GeometryTolerance(Update(DefaultConfig(), user)) == Some(Real(ToleranceCap))
    ensures (exists entries :: Get(user, "lane_format_settings") == Some(Nested(entries)) && Get(entries, "enabled").None?) ==>
              GeometryTolerance(Update(DefaultConfig(), user)) == Some(GetOr(Update(DefaultConfig(), user), "geometry_tolerance", Null))
  {
    var config := Update(DefaultConfig(), user);
    ConfigMerge(user, "lane_format_settings");
    ConfigMerge(user, "geometry_tolerance");
    DefaultLaneSettings();
    assert Get(LaneFormatDefaults().entries, "enabled") == Some(Bool(true));
  }

  /**
   * _process_lane_data emits one lane-based record per road, in order,
   * with lane_count the number of lanes, a non-negative length that is
   * the first lane's centre-line length, and the first lane's attributes
   * (mapped only for a non-empty mapping).
   */
  lemma LaneRoadsDataSpec(lib: Libm, config: Dict<Value>, roads: seq<ConversionChain.LaneRoad>, mapping: Option<Dict<string>>)
    requires SqrtNonNegative(lib)
    ensures var data := LaneRoadsData(lib, config, roads, mapping);
            |data| == |roads| &&
            forall i :: 0 <= i < |roads| ==>
              data[i].LaneRecord? && data[i].id == roads[i].roadId && data[i].laneSurfaces == roads[i].laneSurfaces &&
              data[i].laneCount == |roads[i].lanes| && data[i].length >= 0.0 &&
              (roads[i].lanes != [] ==> data[i].length == PathLength(lib, roads[i].lanes[0].centerLine)) &&
              (roads[i].lanes != [] && (mapping.None? || mapping.value == []) ==> data[i].attributes == roads[i].lanes[0].attributes)
  {
    forall i | 0 <= i < |roads|
      ensures LaneLength(lib, roads[i].lanes) >= 0.0
    {
      if roads[i].lanes != [] {
        PathLengthNonNegative(lib, roads[i].lanes[0].centerLine);
      }
    }
  }

  /**
   * _convert_geometries keeps exactly the roads whose conversion returned
   * a record, never more than it was given; a kept plain road has segments
   * from the configured routine and their summed length, a kept lane road
   * the length of the segments the generator will use.
   */
  lemma ConvertedRoadsSpec(config: Dict<Value>, f: Fitters, roads: seq<RoadRecord>)
    ensures var out := ConvertedRoads(config, f, roads);
            |out| <= |roads| &&
            (forall c :: c in out ==> exists r :: r in roads && ConvertRecord(config, f, r) == Ok(c)) &&
            (forall r :: r in roads && ConvertRecord(config, f, r).Ok? ==> ConvertRecord(config, f, r).value in out)
    ensures forall c :: c in ConvertedRoads(config, f, roads) ==>
              (c.ConvertedPlain? ==> c.segments != [] && c.totalLength == RoadLength(c.segments)) &&
              (c.ConvertedLane? ==> c.surfaces != [] &&
                                    c.totalLength == RoadLength(ExtractSegmentsFromLaneSurfaces(c.surfaces)))
  {
    var g := (r: RoadRecord) => ConvertRecord(config, f, r);
    ConversionChain.SuccessesSpec(g, roads);
  }

  /** With the default flags plain roads go through convert_road_geometry. */
  lemma DefaultRoutine(f: Fitters)
    ensures Routine(DefaultConfig(), f) == f.smooth
  {
    DefaultSmoothFlag();
    SmoothRoutine(DefaultConfig(), f);
  }

  lemma SmoothRoutine(config: Dict<Value>, f: Fitters)
    requires Get(config, "use_smooth_curves") == Some(Bool(true))
    ensures Routine(config, f) == f.smooth
  {
  }

  lemma DefaultSmoothFlag()
    ensures Get(DefaultConfig(), "use_smooth_curves") == Some(Bool(true))
  {
    var d := DefaultConfig();
    var k := "use_smooth_curves";
    forall j | 0 <= j < 7
      ensures d[j].0 != k
    {
      if j == 5 {
        assert d[j].0[4] != k[4];
      } else {
        assert d[j].0[0] != k[0];
      }
    }
    GetFirst(d, 7, k);
  }

  lemma TotalLengthSnoc(cs: seq<Converted>, c: Converted)
    ensures TotalLength(cs + [c]) == TotalLength(cs) + c.totalLength
  {
    assert (cs + [c])[..|cs|] == cs;
  }

  // ------------------------------------------------------------ converter

  class ShpToOpenDriveConverter {
    const config: Dict<Value>
    /** The GeometryConverter's tolerance; None when construction raises. */
    const tolerance: Option<Value>
    var stats: Stats

    constructor(user: Dict<Value>)
      ensures config == Update(DefaultConfig(), user)
      ensures tolerance == GeometryTolerance(config)
      ensures stats == InitialStats()
    {
      var merged := DefaultConfig();
      if user != [] {
        merged := Update(merged, user);
      }
      config := merged;
      tolerance := GeometryTolerance(merged);
      stats := InitialStats();
    }

    /** _calculate_line_length: 0 for fewer than two points, else the summed distances. */
    method CalculateLineLength(lib: Libm, coords: seq<Point>) returns (total: real)
      ensures total == PathLength(lib, coords)
      ensures |coords| < 2 ==> total == 0.0
    {
      if |coords| < 2 {
        return 0.0;
      }
      total := 0.0;
      for i := 0 to |coords| - 1
        invariant total == PathLength(lib, coords[..i + 1])
      {
        PathLengthSnoc(lib, coords, i);
        total := total + Dist(lib, coords[i], coords[i + 1]);
      }
      assert coords[..|coords|] == coords;
    }

    /** _extract_lane_attributes. */
    method ExtractLaneAttributes(lanes: seq<LaneSurface>, mapping: Option<Dict<string>>) returns (attrs: Dict<Value>)
      ensures attrs == LaneAttributesOf(config, lanes, mapping)
    {
      if lanes == [] {
        return [];
      }
      if mapping.Some? && mapping.value != [] {
        attrs := AttributeValues.MapAttributes(config, lanes[0].attributes, mapping.value);
      } else {
        attrs := lanes[0].attributes;
      }
    }

    /** _process_lane_data. */
    method ProcessLaneData(lib: Libm, roads: seq<ConversionChain.LaneRoad>, mapping: Option<Dict<string>>)
      returns (data: seq<RoadRecord>)
      ensures data == LaneRoadsData(lib, config, roads, mapping)
    {
      data := [];
      for i := 0 to |roads|
        invariant data == LaneRoadsData(lib, config, roads[..i], mapping)
      {
        var road := roads[i];
        var total := 0.0;
        if road.lanes != [] && road.lanes[0].centerLine != [] {
          total := CalculateLineLength(lib, road.lanes[0].centerLine);
        }
        var attrs := ExtractLaneAttributes(road.lanes, mapping);
        data := data + [LaneRecord(road.roadId, road.lanes, road.laneSurfaces, |road.lanes|, total, attrs)];
      }
      assert roads[..|roads|] == roads;
    }

    /** _convert_lane_based_geometry and _convert_traditional_geometry for one record. */
    method ConvertRoad(f: Fitters, r: RoadRecord) returns (c: Result<Converted>)
      ensures c == ConvertRecord(config, f, r)
    {
      if r.LaneRecord? {
        var converted := ConversionChain.ConvertLaneSurfaceGeometry(f.surface, r.laneSurfaces);
        if converted == [] {
          return Err("no surface converted");
        }
        var total := RoadLength(converted[0].centerSegments);
        return Ok(ConvertedLane(r.id, converted, r.lanes, r.laneCount, r.attributes, total));
      }
      var segments := Routine(config, f)(r.coordinates);
      if segments.Err? {
        return Err(segments.error);
      }
      if segments.value == [] {
        return Err("no segments");
      }
      // validate_geometry_continuity always holds, so no warning is recorded.
      return Ok(ConvertedPlain(r.rowId, segments.value, r.attributes, RoadLength(segments.value)));
    }

    /**
     * _convert_geometries: keeps the roads that converted, in order, and
     * adds their lengths to the total_length statistic.
     */
    method ConvertGeometries(f: Fitters, roads: seq<RoadRecord>) returns (converted: seq<Converted>)
      modifies this
      ensures converted == ConvertedRoads(config, f, roads)
      ensures stats == old(stats).(totalLength := old(stats.totalLength) + TotalLength(converted))
    {
      converted := [];
      for i := 0 to |roads|
        invariant converted == ConvertedRoads(config, f, roads[..i])
        invariant stats == old(stats).(totalLength := old(stats.totalLength) + TotalLength(converted))
      {
        assert roads[..i + 1][..i] == roads[..i];
        var c := ConvertRoad(f, roads[i]);
        if c.Ok? {
          TotalLengthSnoc(converted, c.value);
          converted := converted + [c.value];
          stats := stats.(totalLength := stats.totalLength + c.value.totalLength);
        }
      }
      assert roads[..|roads|] == roads;
    }
  }
}
