// ShpToOpenDriveConverter of src/main.py: the configuration merge, the four
// stages of convert (load and prepare the shapefile, build the roads_data
// records, convert their geometry, build the road network) and the
// statistics each stage records.
//
// As written, the constructor hands GeometryConverter two keyword arguments
// its constructor does not accept, so every construction raises TypeError;
// the converter below passes the tolerance alone, which is evidently what
// was meant.
//
// Reading the file, to_crs, the clock, the xodr objects and writing the
// output file are parameters.

module MainConverter {
  import opened Common
  import opened Dicts
  import opened PlanView
  import opened ShapefileReading
  import opened AttributeValues
  import opened ConversionStats
  import Arcs
  import LegacyGeometry
  import Simplify
  import ConversionChain
  import RoadAssembly

  /** The configuration a converter starts from. */
  function DefaultConfig(): Dict<Value>
  {
    [("geometry_tolerance", Real(1.0)), ("min_road_length", Real(10.0)), ("default_lane_width", Real(3.5)),
     ("default_num_lanes", Int(1)), ("default_speed_limit", Int(50)), ("use_arc_fitting", Bool(false)),
     ("coordinate_precision", Int(3))]
  }

  // --------------------------------------------- constructing the converter

  /** The keyword parameters of src/geometry_converter.py's GeometryConverter. */
  const GeometryConverterParameters: seq<string> := ["tolerance"]

  /** The keywords the constructor passes as written. */
  const AsWrittenKeywords: seq<string> := ["tolerance", "smooth_curves", "preserve_detail"]

  /** The keywords the corrected constructor passes. */
  const CorrectedKeywords: seq<string> := ["tolerance"]

  /**
   * Calling GeometryConverter with the given keywords: an unexpected
   * keyword raises TypeError; otherwise the converter keeps the tolerance.
   */
  function NewGeometryConverter(keywords: seq<string>, tolerance: Value): Result<Value>
  {
    if forall k :: k in keywords ==> k in GeometryConverterParameters then Ok(tolerance)
    else Err("TypeError: unexpected keyword argument")
  }

  /** As written, building the converter raises whatever the configuration. */
  lemma AsWrittenConstructorRaises(tolerance: Value)
    ensures NewGeometryConverter(AsWrittenKeywords, tolerance).Err?
  {
    assert AsWrittenKeywords[1] in AsWrittenKeywords;
    assert AsWrittenKeywords[1] !in GeometryConverterParameters;
  }

  /** Passing the tolerance alone builds a converter that keeps it. */
  lemma CorrectedConstructorBuilds(tolerance: Value)
    ensures NewGeometryConverter(CorrectedKeywords, tolerance) == Ok(tolerance)
  {
  }

  /** The tolerance the corrected constructor gives its GeometryConverter. */
  function ConverterTolerance(config: Dict<Value>): Value
  {
    CorrectedConstructorBuilds(GetOr(config, "geometry_tolerance", Null));
    NewGeometryConverter(CorrectedKeywords, GetOr(config, "geometry_tolerance", Null)).value
  }

  /** The defaults, as the tests read them after a construction without arguments. */
  lemma DefaultConfigValues()
    ensures Get(DefaultConfig(), "geometry_tolerance") == Some(Real(1.0))
    ensures Get(DefaultConfig(), "min_road_length") == Some(Real(10.0))
    ensures Get(DefaultConfig(), "default_lane_width") == Some(Real(3.5))
    ensures Get(DefaultConfig(), "use_arc_fitting") == Some(Bool(false))
    ensures Get(DefaultConfig(), "coordinate_precision") == Some(Int(3))
    ensures Get(DefaultConfig(), "use_smooth_curves") == None
  {
    var d := DefaultConfig();
    GetFirst(d, 0, "geometry_tolerance");
    assert d[0].0[0] != 'm';
    GetFirst(d, 1, "min_road_length");
    assert d[0].0[0] != 'd' && d[1].0[0] != 'd';
    GetFirst(d, 2, "default_lane_width");
    forall j | 0 <= j < 5
      ensures d[j].0 != "use_arc_fitting"
    {
      assert d[j].0[0] != 'u';
    }
    GetFirst(d, 5, "use_arc_fitting");
    forall j | 0 <= j < 6
      ensures d[j].0 != "coordinate_precision"
    {
      assert d[j].0[0] != 'c';
    }
    GetFirst(d, 6, "coordinate_precision");
    forall j | 0 <= j < 7
      ensures d[j].0 != "use_smooth_curves"
    {
      assert d[j].0[0] != 'u' || d[j].0[4] != 's';
    }
    GetMissing(d, "use_smooth_curves");
  }

  /**
   * A user configuration replaces the keys it names and keeps the other
   * defaults; the converter is given the merged tolerance.
   */
  lemma CustomConfigOverrides(user: Dict<Value>, k: string)
    requires DistinctKeys(user)
    ensures Get(Update(DefaultConfig(), user), k) == if Get(user, k).Some? then Get(user, k) else Get(DefaultConfig(), k)
    ensures Get(user, "geometry_tolerance").Some? ==>
              ConverterTolerance(Update(DefaultConfig(), user)) == Get(user, "geometry_tolerance").value
  {
    UpdateGet(DefaultConfig(), user, k);
    UpdateGet(DefaultConfig(), user, "geometry_tolerance");
  }

  // ------------------------------------------------------------- records

  /** A roads_data record. */
  datatype RoadData = RoadData(id: int, coordinates: seq<Point>, length: real, attributes: Dict<Value>)

  /** A converted_roads record. */
  datatype ConvertedRoad = ConvertedRoad(id: int, segments: seq<Segment>, attributes: Dict<Value>, totalLength: real)

  /**
   * The pipeline's outside world: reading the file (None when it raises),
   * to_crs, whether the xodr objects accept a road, and whether writing the
   * output file succeeds.
   */
  datatype Environment = Environment(
    lib: Libm,
    read: Option<Table>,
    project: Projection,
    accepts: RoadAssembly.Road -> bool,
    written: bool)

  // ------------------------------------------------------------ stage specs

  /** min_road_length as a number; None when the length comparison would raise. */
  function MinRoadLength(config: Dict<Value>): Option<real>
  {
    NumberOf(GetOr(config, "min_road_length", Null))
  }

  /** _extract_roads_data's mapping: the given one, else the reader's suggestions. */
  function MappingFor(columns: seq<string>, mapping: Option<Dict<string>>): Dict<string>
  {
    if mapping.Some? then mapping.value else AttributesMapping(columns)
  }

  function RoadDataOf(config: Dict<Value>, info: RoadInfo, mapping: Dict<string>): RoadData
  {
    RoadData(info.id, info.coordinates, info.length, MappedAttributes(InitialAttributes(config), info.attributes, mapping))
  }

  /** _extract_roads_data on the reader's table: [] without a table or when extraction raises. */
  function RoadsData(config: Dict<Value>, lib: Libm, gdf: Option<Table>, mapping: Option<Dict<string>>): seq<RoadData>
  {
    if gdf.None? then []
    else match Extracted(lib, gdf.value.columns, gdf.value.rows)
      case Err(_) => []
      case Ok(infos) =>
        var m := MappingFor(gdf.value.columns, mapping);
        seq(|infos|, i requires 0 <= i < |infos| => RoadDataOf(config, infos[i], m))
  }

  /**
   * The routine _convert_geometries uses: convert_road_geometry when
   * use_smooth_curves is unset or truthy, else fit_arc_segments when
   * use_arc_fitting is truthy, else fit_line_segments with the converter's
   * tolerance, the only one of the three that can raise.
   */
  function Routine(config: Dict<Value>, lib: Libm, tolerance: Value): seq<Point> -> Result<seq<Segment>>
  {
    if Truthy(GetOr(config, "use_smooth_curves", Bool(true))) then coords => Ok(LinesFrom(lib, coords, 0.0))
    else if Truthy(GetOr(config, "use_arc_fitting", Null)) then coords => Ok(Arcs.ArcFit(lib, coords))
    else coords => LegacyGeometry.LineFitOf(lib, coords, tolerance)
  }

  /** The segments of a routine that did not raise ([] otherwise, which is never used). */
  function Unwrapped(routine: seq<Point> -> Result<seq<Segment>>): seq<Point> -> seq<Segment>
  {
    coords => if routine(coords).Ok? then routine(coords).value else []
  }

  /** The position of the first road whose routine raises, |roads| when none does. */
  function FirstRaise(routine: seq<Point> -> Result<seq<Segment>>, roads: seq<RoadData>): (k: nat)
    ensures k <= |roads|
    ensures forall j :: 0 <= j < k ==> routine(roads[j].coordinates).Ok?
    ensures k < |roads| ==> routine(roads[k].coordinates).Err?
  {
    if roads == [] || routine(roads[0].coordinates).Err? then 0
    else 1 + FirstRaise(routine, roads[1..])
  }

  /** One road through the routine; an empty result is skipped (Err). */
  function ConvertOne(routine: seq<Point> -> seq<Segment>, r: RoadData): Result<ConvertedRoad>
  {
    var segments := routine(r.coordinates);
    if segments == [] then Err("no segments")
    else Ok(ConvertedRoad(r.id, segments, r.attributes, RoadLength(segments)))
  }

  /** The roads _convert_geometries keeps, in order. */
  function ConvertedRoads(routine: seq<Point> -> seq<Segment>, roads: seq<RoadData>): seq<ConvertedRoad>
  {
    ConversionChain.Successes((r: RoadData) => ConvertOne(routine, r), roads)
  }

  /** The roads _convert_geometries has kept when its loop ends or raises. */
  function Reached(config: Dict<Value>, lib: Libm, tolerance: Value, roads: seq<RoadData>): seq<ConvertedRoad>
  {
    var routine := Routine(config, lib, tolerance);
    ConvertedRoads(Unwrapped(routine), roads[..FirstRaise(routine, roads)])
  }

  /** _convert_geometries' result: the exception handler returns [] once a routine raises. */
  function ConvertedFor(config: Dict<Value>, lib: Libm, tolerance: Value, roads: seq<RoadData>): seq<ConvertedRoad>
  {
    if FirstRaise(Routine(config, lib, tolerance), roads) < |roads| then []
    else Reached(config, lib, tolerance, roads)
  }

  function TotalLength(cs: seq<ConvertedRoad>): real
  {
    if cs == [] then 0.0 else TotalLength(cs[..|cs| - 1]) + cs[|cs| - 1].totalLength
  }

  lemma TotalLengthSnoc(cs: seq<ConvertedRoad>, c: ConvertedRoad)
    ensures TotalLength(cs + [c]) == TotalLength(cs) + c.totalLength
  {
    assert (cs + [c])[..|cs|] == cs;
  }

  /** The generator's id counter after create_road_from_segments on these roads: empty plan views take no id. */
  function Counter(cs: seq<ConvertedRoad>): int
  {
    if cs == [] then 1
    else Counter(cs[..|cs| - 1]) + (if cs[|cs| - 1].segments == [] then 0 else 1)
  }

  /** The road create_road_from_segments adds for one converted road, given the counter: none for an empty plan view or a road that cannot be built. */
  function Made(accepts: RoadAssembly.Road -> bool, counter: int, c: ConvertedRoad): seq<RoadAssembly.Road>
  {
    if c.segments == [] then []
    else match RoadAssembly.NewRoad(counter, c.segments, RoadAssembly.AttributeLaneSection(c.attributes), accepts)
      case Some(road) => [road]
      case None => []
  }

  /** The roads the generator holds after create_road_from_segments on each converted road. */
  function CreatedRoads(accepts: RoadAssembly.Road -> bool, cs: seq<ConvertedRoad>): seq<RoadAssembly.Road>
  {
    if cs == [] then []
    else CreatedRoads(accepts, cs[..|cs| - 1]) + Made(accepts, Counter(cs[..|cs| - 1]), cs[|cs| - 1])
  }

  /** The table _load_shapefile leaves in the reader when it succeeds: loaded, projected, translated, filtered, not empty. */
  function LoadedTable(config: Dict<Value>, env: Environment): Option<Table>
  {
    if env.read.None? || MinRoadLength(config).None? then None
    else
      var t := Prepared(env.lib, env.project, env.read.value, MinRoadLength(config).value);
      if |t.rows| == 0 then None else Some(t)
  }

  /** Whether convert returns True: every stage yields something. */
  predicate Succeeds(config: Dict<Value>, tolerance: Value, env: Environment, mapping: Option<Dict<string>>)
  {
    var t := LoadedTable(config, env);
    t.Some? &&
    var data := RoadsData(config, env.lib, t, mapping);
    data != [] &&
    var converted := ConvertedFor(config, env.lib, tolerance, data);
    converted != [] && CreatedRoads(env.accepts, converted) != [] && env.written
  }

  // ------------------------------------------------------------------ lemmas

  /**
   * _extract_roads_data makes one record per extracted road, in order, with
   * the reader's id, points and length, and attributes that start from the
   * configured defaults and take the mapped columns.
   */
  lemma RoadsDataSpec(config: Dict<Value>, lib: Libm, t: Table, mapping: Option<Dict<string>>)
    requires Extracted(lib, t.columns, t.rows).Ok?
    ensures var infos := Extracted(lib, t.columns, t.rows).value;
            var data := RoadsData(config, lib, Some(t), mapping);
            |data| == |infos| &&
            forall i :: 0 <= i < |infos| ==>
              data[i].id == infos[i].id && data[i].coordinates == infos[i].coordinates &&
              data[i].length == infos[i].length &&
              data[i].attributes == MappedAttributes(InitialAttributes(config), infos[i].attributes,
                                                     MappingFor(t.columns, mapping))
    ensures mapping == Some([]) ==>
              forall r :: r in RoadsData(config, lib, Some(t), mapping) ==> r.attributes == InitialAttributes(config)
  {
  }

  /**
   * _convert_geometries keeps exactly the roads whose routine gave
   * segments, each with the summed length of its segments.
   */
  lemma ConvertedRoadsSpec(routine: seq<Point> -> seq<Segment>, roads: seq<RoadData>)
    ensures var out := ConvertedRoads(routine, roads);
            |out| <= |roads| &&
            (forall c :: c in out ==> c.segments != [] && c.totalLength == RoadLength(c.segments) &&
                                      exists r :: r in roads && c == ConvertedRoad(r.id, routine(r.coordinates), r.attributes, c.totalLength)) &&
            (forall r :: r in roads && routine(r.coordinates) != [] ==> ConvertOne(routine, r).value in out)
    ensures ConvertedRoads(routine, roads) == [] <==> forall r :: r in roads ==> routine(r.coordinates) == []
  {
    var f := (r: RoadData) => ConvertOne(routine, r);
    ConversionChain.SuccessesSpec(f, roads);
    ConversionChain.SuccessesEmpty(f, roads);
  }

  /**
   * The routine choice on the defaults updated by the user's keys:
   * convert_road_geometry unless use_smooth_curves is given falsy, so never
   * fit_line_segments while it is truthy; then fit_arc_segments when
   * use_arc_fitting is given truthy; fit_line_segments otherwise, since the
   * default use_arc_fitting is False.
   */
  lemma RoutineChoice(user: Dict<Value>, lib: Libm, tolerance: Value)
    requires DistinctKeys(user)
    ensures var routine := Routine(Update(DefaultConfig(), user), lib, tolerance);
            var smooth, arcs := Get(user, "use_smooth_curves"), Get(user, "use_arc_fitting");
            && ((smooth.None? || Truthy(smooth.value)) ==>
                  forall coords :: routine(coords) == Ok(LinesFrom(lib, coords, 0.0)))
            && (smooth.Some? && !Truthy(smooth.value) && arcs.Some? && Truthy(arcs.value) ==>
                  forall coords :: routine(coords) == Ok(Arcs.ArcFit(lib, coords)))
            && (smooth.Some? && !Truthy(smooth.value) && (arcs.None? || !Truthy(arcs.value)) ==>
                  forall coords :: routine(coords) == LegacyGeometry.LineFitOf(lib, coords, tolerance))
  {
    UpdateGet(DefaultConfig(), user, "use_smooth_curves");
    UpdateGet(DefaultConfig(), user, "use_arc_fitting");
    DefaultConfigValues();
  }

  /**
   * Once a road's routine raises, _convert_geometries keeps no road; when
   * none raises it keeps exactly the roads whose routine gave segments.
   */
  lemma ConvertedForOutcome(config: Dict<Value>, lib: Libm, tolerance: Value, roads: seq<RoadData>)
    ensures var routine := Routine(config, lib, tolerance);
            && ((exists j :: 0 <= j < |roads| && routine(roads[j].coordinates).Err?) ==>
                  ConvertedFor(config, lib, tolerance, roads) == [])
            && ((forall j :: 0 <= j < |roads| ==> routine(roads[j].coordinates).Ok?) ==>
                  ConvertedFor(config, lib, tolerance, roads) == ConvertedRoads(Unwrapped(routine), roads))
  {
    var routine := Routine(config, lib, tolerance);
    assert roads[..|roads|] == roads;
  }

  /**
   * Line fitting at a tolerance of 0 or less still keeps a road whose three
   * points are in general position: it gets one `line` per step.
   */
  lemma ZeroToleranceKeepsRoad(config: Dict<Value>, lib: Libm, tolerance: Value, r: RoadData, a: Point, b: Point, c: Point)
    requires !Truthy(GetOr(config, "use_smooth_curves", Bool(true))) && !Truthy(GetOr(config, "use_arc_fitting", Null))
    requires NumberOf(tolerance).Some? && NumberOf(tolerance).value <= 0.0
    requires r.coordinates == [a, b, c] && Simplify.ChordDistance(lib)(b, a, c) > 0.0
    ensures var segments := LinesFrom(lib, [a, b, c], 0.0);
            |segments| == 2 &&
            ConvertedFor(config, lib, tolerance, [r]) == [ConvertedRoad(r.id, segments, r.attributes, RoadLength(segments))]
  {
    LegacyGeometry.LineFitOfOffChord(lib, a, b, c, tolerance);
    var routine := Routine(config, lib, tolerance);
    assert routine(r.coordinates) == Ok(LinesFrom(lib, [a, b, c], 0.0));
    ConvertedForOutcome(config, lib, tolerance, [r]);
    ConvertedRoadsSpec(Unwrapped(routine), [r]);
  }

  /**
   * The roads the generator builds: never more than the converted roads,
   * with positive ids below the counter that increase in creation order.
   */
  lemma {:induction false} CreatedRoadsBounds(accepts: RoadAssembly.Road -> bool, cs: seq<ConvertedRoad>)
    ensures |CreatedRoads(accepts, cs)| <= |cs|
    ensures Counter(cs) >= 1 && RoadAssembly.IdsBelow(CreatedRoads(accepts, cs), Counter(cs))
  {
    if cs != [] {
      var init := cs[..|cs| - 1];
      CreatedRoadsBounds(accepts, init);
      var made := Made(accepts, Counter(init), cs[|cs| - 1]);
      assert CreatedRoads(accepts, cs) == CreatedRoads(accepts, init) + made;
      assert made != [] ==> |made| == 1 && made[0].id == Counter(init) && Counter(init) < Counter(cs);
      IdsBelowExtend(CreatedRoads(accepts, init), made, Counter(init), Counter(cs));
    }
  }

  /** Appending at most one road whose id is the old bound keeps the ids positive, increasing and below the new bound. */
  lemma IdsBelowExtend(prev: seq<RoadAssembly.Road>, extra: seq<RoadAssembly.Road>, bound: int, bound': int)
    requires RoadAssembly.IdsBelow(prev, bound) && 1 <= bound <= bound'
    requires extra != [] ==> |extra| == 1 && extra[0].id == bound && bound < bound'
    ensures RoadAssembly.IdsBelow(prev + extra, bound')
  {
    var all := prev + extra;
    if extra == [] {
      assert all == prev;
    } else {
      assert all[|prev|] == extra[0];
      assert forall i :: 0 <= i < |prev| ==> all[i] == prev[i];
      forall i, j | 0 <= i < j < |all|
        ensures all[i].id < all[j].id
      {
        if j == |prev| {
          assert all[i].id < bound;
        }
      }
    }
  }

  /**
   * When every converted road has segments and a lane section that builds,
   * and the xodr objects accept it whatever its id, there is one road per
   * converted road, with ids 1, 2, ... in order.
   */
  lemma {:induction false} CreatedRoadsAll(accepts: RoadAssembly.Road -> bool, cs: seq<ConvertedRoad>)
    requires forall c :: c in cs ==> c.segments != [] && RoadAssembly.AttributeLaneSection(c.attributes).Ok?
    requires forall id: int, c :: c in cs ==>
               accepts(RoadAssembly.Road(id, c.segments, RoadAssembly.AttributeLaneSection(c.attributes).value))
    ensures |CreatedRoads(accepts, cs)| == |cs|
    ensures forall i :: 0 <= i < |cs| ==> CreatedRoads(accepts, cs)[i].id == i + 1
  {
    if cs != [] {
      var init := cs[..|cs| - 1];
      var last := cs[|cs| - 1];
      assert forall c :: c in init ==> c in cs;
      assert last in cs;
      CreatedRoadsAll(accepts, init);
      CounterAllNonEmpty(init);
      var road := RoadAssembly.Road(Counter(init), last.segments, RoadAssembly.AttributeLaneSection(last.attributes).value);
      assert Made(accepts, Counter(init), last) == [road];
      var created := CreatedRoads(accepts, cs);
      assert created == CreatedRoads(accepts, init) + [road];
      forall i | 0 <= i < |cs|
        ensures created[i].id == i + 1
      {
        if i < |init| {
          assert created[i] == CreatedRoads(accepts, init)[i];
        }
      }
    }
  }

  /** With no empty plan view, each road takes one id. */
  lemma {:induction false} CounterAllNonEmpty(cs: seq<ConvertedRoad>)
    requires forall c :: c in cs ==> c.segments != []
    ensures Counter(cs) == |cs| + 1
  {
    if cs != [] {
      assert forall c :: c in cs[..|cs| - 1] ==> c in cs;
      CounterAllNonEmpty(cs[..|cs| - 1]);
      assert cs[|cs| - 1] in cs;
    }
  }

  /** One more converted road: the counter and the road list after it. */
  lemma CreatedRoadsStep(accepts: RoadAssembly.Road -> bool, cs: seq<ConvertedRoad>, i: nat)
    requires i < |cs|
    ensures Counter(cs[..i + 1]) == Counter(cs[..i]) + (if cs[i].segments == [] then 0 else 1)
    ensures CreatedRoads(accepts, cs[..i + 1]) == CreatedRoads(accepts, cs[..i]) + Made(accepts, Counter(cs[..i]), cs[i])
  {
    assert cs[..i + 1][..i] == cs[..i];
  }

  lemma IdsOfAppend(roads: seq<RoadAssembly.Road>, more: seq<RoadAssembly.Road>)
    ensures RoadAssembly.IdsOf(roads + more) == RoadAssembly.IdsOf(roads) + RoadAssembly.IdsOf(more)
  {
  }

  /** The loop of _extract_roads_data: each road's info with its attributes mapped. */
  method MapRoads(config: Dict<Value>, infos: seq<RoadInfo>, m: Dict<string>) returns (data: seq<RoadData>)
    ensures data == seq(|infos|, k requires 0 <= k < |infos| => RoadDataOf(config, infos[k], m))
  {
    data := [];
    for i := 0 to |infos|
      invariant data == seq(i, k requires 0 <= k < i => RoadDataOf(config, infos[k], m))
    {
      var attributes := AttributeValues.MapAttributes(config, infos[i].attributes, m);
      data := data + [RoadData(infos[i].id, infos[i].coordinates, infos[i].length, attributes)];
    }
  }

  /** One call of create_road_from_segments inside _generate_opendrive's loop, on the i-th converted road. */
  method CreateOne(accepts: RoadAssembly.Road -> bool, cs: seq<ConvertedRoad>, i: nat, g: RoadAssembly.OpenDriveGenerator)
    returns (id: int)
    requires i < |cs| && g.Valid()
    requires g.roads == CreatedRoads(accepts, cs[..i]) && g.roadIdCounter == Counter(cs[..i])
    modifies g
    ensures g.Valid()
    ensures g.roads == CreatedRoads(accepts, cs[..i + 1]) && g.roadIdCounter == Counter(cs[..i + 1])
    ensures RoadAssembly.IdsOf(g.roads) == RoadAssembly.IdsOf(old(g.roads)) + (if id > 0 then [id] else [])
  {
    CreatedRoadsStep(accepts, cs, i);
    id := CreateRoadStep(accepts, cs[i], g);
    IdsOfAppend(old(g.roads), Made(accepts, old(g.roadIdCounter), cs[i]));
  }

  /** create_road_from_segments on one converted road, in terms of Made. */
  method CreateRoadStep(accepts: RoadAssembly.Road -> bool, c: ConvertedRoad, g: RoadAssembly.OpenDriveGenerator)
    returns (id: int)
    requires g.Valid()
    modifies g
    ensures g.Valid()
    ensures g.roads == old(g.roads) + Made(accepts, old(g.roadIdCounter), c)
    ensures g.roadIdCounter == old(g.roadIdCounter) + (if c.segments == [] then 0 else 1)
    ensures (if id > 0 then [id] else []) == RoadAssembly.IdsOf(Made(accepts, old(g.roadIdCounter), c))
  {
    id := g.CreateRoadFromSegments(accepts, c.segments, Some(c.attributes));
  }

  // --------------------------------------------------------------- converter

  class ShpToOpenDriveConverter {
    const config: Dict<Value>
    /** The tolerance held by the converter's GeometryConverter. */
    const tolerance: Value
    var stats: Stats
    var reader: ShapefileReader?
    var generator: RoadAssembly.OpenDriveGenerator?

    /** The corrected constructor: defaults, the user's keys over them, the tolerance alone to GeometryConverter. */
    constructor(user: Dict<Value>)
      ensures config == Update(DefaultConfig(), user)
      ensures tolerance == ConverterTolerance(config)
      ensures stats == InitialStats() && reader == null && generator == null
    {
      var merged := DefaultConfig();
      if user != [] {
        merged := Update(merged, user);
      }
      config := merged;
      var built := NewGeometryConverter(CorrectedKeywords, GetOr(merged, "geometry_tolerance", Null));
      CorrectedConstructorBuilds(GetOr(merged, "geometry_tolerance", Null));
      tolerance := built.value;
      stats := InitialStats();
      reader := null;
      generator := null;
    }

    /**
     * _load_shapefile: a fresh reader loads the file, projects it to UTM
     * and to local coordinates (failures there only warn) and drops the
     * roads shorter than min_road_length; it succeeds when a road is left,
     * and then records the count as input_roads.
     */
    method LoadShapefile(path: string, env: Environment) returns (ok: bool)
      modifies this
      ensures reader != null && fresh(reader)
      ensures ok <==> LoadedTable(config, env).Some?
      ensures ok ==> reader.gdf == LoadedTable(config, env)
      ensures stats == if ok then old(stats).(inputRoads := |reader.gdf.value.rows|) else old(stats)
      ensures generator == old(generator)
    {
      var r := new ShapefileReader(path);
      reader := r;
      var loaded := r.LoadShapefile(env.read);
      if !loaded {
        return false;
      }
      var _ := r.ConvertToUtm(env.project);
      var _ := r.ConvertToLocalCoordinates();
      var minLength := MinRoadLength(config);
      if minLength.None? {
        return false;
      }
      var count := r.FilterRoadsByLength(env.lib, minLength.value);
      if count == 0 {
        return false;
      }
      stats := stats.(inputRoads := count);
      return true;
    }

    /** _extract_roads_data: [] without a reader, without roads, or when extraction raises. */
    method ExtractRoadsData(lib: Libm, mapping: Option<Dict<string>>) returns (data: seq<RoadData>)
      modifies reader
      ensures data == if reader == null then [] else RoadsData(config, lib, old(reader.gdf), mapping)
      ensures reader != null ==> reader.gdf == old(reader.gdf)
    {
      if reader == null {
        return [];
      }
      var extracted := reader.ExtractRoadGeometries(lib);
      if extracted.Err? || extracted.value == [] {
        return [];
      }
      var infos := extracted.value;
      var m: Dict<string>;
      if mapping.None? {
        m := reader.GetRoadAttributesMapping();
      } else {
        m := mapping.value;
      }
      data := MapRoads(config, infos, m);
    }

    /**
     * _convert_geometries: the roads whose routine gave segments, in order,
     * with their lengths added to total_length as they are kept; when a
     * routine raises, [] is returned and the lengths already added stay.
     */
    method ConvertGeometries(lib: Libm, roads: seq<RoadData>) returns (converted: seq<ConvertedRoad>)
      modifies this
      ensures converted == ConvertedFor(config, lib, tolerance, roads)
      ensures stats == old(stats).(totalLength := old(stats.totalLength) + TotalLength(Reached(config, lib, tolerance, roads)))
      ensures reader == old(reader) && generator == old(generator)
    {
      converted := ConvertWith(Routine(config, lib, tolerance), roads);
      assert roads[..|roads|] == roads;
    }

    /** The loop of _convert_geometries with its exception handler, for the routine chosen. */
    method ConvertWith(routine: seq<Point> -> Result<seq<Segment>>, roads: seq<RoadData>) returns (converted: seq<ConvertedRoad>)
      modifies this
      ensures var k := FirstRaise(routine, roads);
              converted == (if k < |roads| then [] else ConvertedRoads(Unwrapped(routine), roads))
      ensures stats == old(stats).(totalLength := old(stats.totalLength) +
                                   TotalLength(ConvertedRoads(Unwrapped(routine), roads[..FirstRaise(routine, roads)])))
      ensures reader == old(reader) && generator == old(generator)
    {
      converted := [];
      for i := 0 to |roads|
        invariant i <= FirstRaise(routine, roads)
        invariant converted == ConvertedRoads(Unwrapped(routine), roads[..i])
        invariant stats == old(stats).(totalLength := old(stats.totalLength) + TotalLength(converted))
        invariant reader == old(reader) && generator == old(generator)
      {
        assert roads[..i + 1][..i] == roads[..i];
        var result := routine(roads[i].coordinates);
        if result.Err? {
          // The handler around the loop logs the error and returns [].
          return [];
        }
        var segments := result.value;
        if segments != [] {
          // validate_geometry_continuity always holds, so no warning is recorded.
          var c := ConvertedRoad(roads[i].id, segments, roads[i].attributes, RoadLength(segments));
          TotalLengthSnoc(converted, c);
          converted := converted + [c];
          stats := stats.(totalLength := stats.totalLength + c.totalLength);
        }
      }
      assert roads[..|roads|] == roads;
    }

    /** The loop of _generate_opendrive over a fresh generator. */
    method CreateRoads(accepts: RoadAssembly.Road -> bool, converted: seq<ConvertedRoad>, g: RoadAssembly.OpenDriveGenerator)
      returns (ids: seq<int>)
      requires g.Valid() && g.roads == [] && g.roadIdCounter == 1
      modifies g
      ensures g.Valid()
      ensures g.roads == CreatedRoads(accepts, converted) && ids == RoadAssembly.IdsOf(g.roads)
    {
      ids := [];
      for i := 0 to |converted|
        invariant g.Valid()
        invariant g.roads == CreatedRoads(accepts, converted[..i]) && g.roadIdCounter == Counter(converted[..i])
        invariant ids == RoadAssembly.IdsOf(g.roads)
      {
        var id := CreateOne(accepts, converted, i, g);
        if id > 0 {
          ids := ids + [id];
        }
      }
      assert converted[..|converted|] == converted;
    }

    /**
     * _generate_opendrive: a fresh generator builds one road per converted
     * road it accepts; with none it fails, otherwise validation passes and
     * the file is written, and output_roads becomes the number of roads.
     */
    method GenerateOpenDrive(accepts: RoadAssembly.Road -> bool, converted: seq<ConvertedRoad>, name: string,
                             written: bool) returns (ok: bool)
      modifies this
      ensures generator != null && fresh(generator) && generator.name == name
      ensures generator.roads == CreatedRoads(accepts, converted)
      ensures ok <==> CreatedRoads(accepts, converted) != [] && written
      ensures stats == if ok then old(stats).(outputRoads := |CreatedRoads(accepts, converted)|) else old(stats)
      ensures reader == old(reader)
    {
      var g := new RoadAssembly.OpenDriveGenerator(name);
      generator := g;
      var ids := CreateRoads(accepts, converted, g);
      if ids == [] {
        return false;
      }
      var validation := g.ValidateOpenDrive();
      // validate_opendrive accepts any non-empty road set.
      assert validation.valid;
      if !written {
        return false;
      }
      stats := stats.(outputRoads := |ids|);
      return true;
    }

    /**
     * convert: the stages in order, stopping at the first that fails; on
     * success the elapsed time is recorded. Every stage catches its own
     * exceptions, so no error message is added.
     */
    method Convert(path: string, outputName: string, env: Environment, mapping: Option<Dict<string>>, elapsed: real)
      returns (ok: bool)
      modifies this
      ensures ok <==> Succeeds(config, tolerance, env, mapping)
      ensures ok ==> stats.conversionTime == elapsed && stats.inputRoads > 0 && stats.outputRoads > 0
      ensures stats.errors == old(stats.errors) && stats.warnings == old(stats.warnings)
    {
      var loaded := LoadShapefile(path, env);
      if !loaded {
        return false;
      }
      var data := ExtractRoadsData(env.lib, mapping);
      assert data == RoadsData(config, env.lib, LoadedTable(config, env), mapping);
      if data == [] {
        return false;
      }
      var converted := ConvertGeometries(env.lib, data);
      if converted == [] {
        return false;
      }
      ok := GenerateOpenDrive(env.accepts, converted, outputName, env.written);
      if !ok {
        return false;
      }
      stats := stats.(conversionTime := elapsed);
    }

    /** get_conversion_stats: a copy of the statistics. */
    method GetConversionStats() returns (s: Stats)
      ensures s == stats
    {
      s := stats;
    }
  }
}
