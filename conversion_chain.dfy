// The chain of responsibility that drives a conversion: ConversionHandler and
// its set_next/_handle_next (SoftwareCopyright/shp2opendrive/geometry_converter.py
// and the fallback copy in SoftwareCopyright/shp2opendrive/shp_reader.py),
// ShapefileReadingHandler.handle with its record shaping, and
// GeometryConversionHandler.handle with convert_lane_surface_geometry.
//
// A request dict becomes the Request datatype; a handler updating the dict
// and passing it on becomes a function from the request to the updated one.

module ConversionChain {
  import opened Common
  import opened Dicts
  import opened PlanView
  import opened WidthPolynomials
  import opened ShapefileReading
  import opened LaneShapefile

  const ShapefileLoading: string := "shapefile_loading"
  const GeometryConversion: string := "geometry_conversion"
  const OpenDriveGeneration: string := "opendrive_generation"

  // The handler's error messages (paraphrased).
  const NoPathError: string := "no shapefile path given"
  const LoadError: string := "shapefile failed to load"
  const NothingLeftError: string := "no roads left after filtering"
  const ExtractError: string := "road extraction failed"

  /** One road of the lane format, as extract_lane_geometries shapes it. */
  datatype LaneRoad = LaneRoad(roadId: string, lanes: seq<LaneSurface>, laneCount: int, laneSurfaces: seq<LaneSurface>)

  /** What extract_road_geometries returns: lane roads for a Lane.shp, plain records otherwise. */
  datatype Extraction = LaneRecords(roads: seq<LaneRoad>) | PlainRecords(infos: seq<RoadInfo>)

  /** A roads_data entry: type 'lane_based' or 'traditional'. */
  datatype RoadData =
    | LaneBased(id: string, laneSurfaces: seq<LaneSurface>, attributes: Dict<Value>)
    | Traditional(rowId: int, coordinates: seq<Point>, attributes: Dict<Value>)

  /** One surface as convert_lane_surface_geometry returns it. */
  datatype ConvertedSurface = ConvertedSurface(surfaceId: string, centerSegments: seq<Segment>,
                                               widthProfile: seq<Station>, left: BoundaryRef, right: BoundaryRef)

  /** A converted_roads entry. */
  datatype ConvertedRoad =
    | ConvertedLaneRoad(id: string, surfaces: seq<ConvertedSurface>, attributes: Dict<Value>)
    | ConvertedPlainRoad(rowId: int, segments: seq<Segment>, attributes: Dict<Value>, totalLength: real)

  /**
   * The request dict. An absent key is None (the empty string for the
   * path, the empty dict for the mapping); minRoadLength is the config's
   * min_road_length.
   */
  datatype Request = Request(
    stage: Option<string>,
    shapefilePath: string,
    attributeMapping: Dict<string>,
    minRoadLength: Option<real>,
    success: Option<bool>,
    error: Option<string>,
    roadsData: Option<seq<RoadData>>,
    convertedRoads: Option<seq<ConvertedRoad>>)

  /**
   * What the handlers call outside this model: reading the file (None when
   * it raises), to_crs, the RoadID grouping of a Lane.shp, the per-surface
   * body of convert_lane_surface_geometry and convert_road_geometry (Err
   * when they raise), and the OpenDRIVE generation stage.
   */
  datatype Environment = Environment(
    lib: Libm,
    read: string -> Option<Table>,
    project: Projection,
    laneRoads: Table -> seq<LaneRoad>,
    convertSurface: LaneSurface -> Result<ConvertedSurface>,
    convertRoad: seq<Point> -> Result<seq<Segment>>,
    generate: Request -> Request)

  /** The concrete handlers: ShapefileReadingHandler, GeometryConversionHandler, OpenDriveGenerationHandler. */
  datatype Handler = ShapefileReading | GeometryConverting | OpenDriveGenerating

  /** The stage a handler acts on. */
  function StageOf(h: Handler): string
  {
    match h
    case ShapefileReading => ShapefileLoading
    case GeometryConverting => GeometryConversion
    case OpenDriveGenerating => OpenDriveGeneration
  }

  // ------------------------------------------------------------ the chain

  /**
   * A chain built with set_next: the handlers in the order the request
   * visits them. set_next stores the link and returns its argument, so
   * a.set_next(b).set_next(c) links a -> b -> c.
   */
  class Chain {
    var handlers: seq<Handler>

    constructor(first: Handler)
      ensures handlers == [first]
    {
      handlers := [first];
    }

    /** set_next on the last handler: the new handler becomes the next one visited. */
    method SetNext(h: Handler)
      modifies this
      ensures handlers == old(handlers) + [h]
    {
      handlers := handlers + [h];
    }
  }

  /**
   * handle followed by _handle_next down the chain: every handler does its
   * stage's work and passes the request on; after the last handler the
   * request is returned. An exception a handler does not catch ends the
   * chain as Err.
   */
  function HandleAll(env: Environment, handlers: seq<Handler>, request: Request): Result<Request>
  {
    if handlers == [] then Ok(request)
    else
      match Handle(env, handlers[0], request)
      case Err(e) => Err(e)
      case Ok(next) => HandleAll(env, handlers[1..], next)
  }

  /** One handler's own work on the request, before it forwards it. */
  function Handle(env: Environment, h: Handler, request: Request): Result<Request>
  {
    if request.stage != Some(StageOf(h)) then Ok(request)
    else
      match h
      case ShapefileReading => ReadShapefile(env, request)
      case GeometryConverting => Ok(ConvertGeometries(env, request))
      case OpenDriveGenerating => Ok(env.generate(request))
  }

  /** The chain the converter builds: shapefile -> geometry -> OpenDRIVE. */
  function StandardChain(): seq<Handler>
  {
    [ShapefileReading, GeometryConverting, OpenDriveGenerating]
  }

  /**
   * A request whose stage no handler in the chain acts on travels the whole
   * chain and comes back unchanged; in particular a handler without a next
   * handler returns the request as it is.
   */
  lemma {:induction false} UnclaimedStagePassesThrough(env: Environment, handlers: seq<Handler>, request: Request)
    requires forall k :: 0 <= k < |handlers| ==> request.stage != Some(StageOf(handlers[k]))
    ensures HandleAll(env, handlers, request) == Ok(request)
  {
    if handlers != [] {
      UnclaimedStagePassesThrough(env, handlers[1..], request);
    }
  }

  /** A chain built by set_next visits its handlers in the order they were linked. */
  method BuildStandardChain() returns (chain: Chain)
    ensures fresh(chain)
    ensures chain.handlers == StandardChain()
  {
    chain := new Chain(ShapefileReading);
    chain.SetNext(GeometryConverting);
    chain.SetNext(OpenDriveGenerating);
  }

  // ------------------------------------------------- shapefile reading stage

  /**
   * The records extract_road_geometries returns for a loaded, filtered
   * table. A Lane.shp is recognised by upper-cased column names, but
   * extract_lane_geometries then reads the columns RoadID and Index with
   * their exact spelling: KeyError when RoadID is missing, or when Index is
   * missing and some row forms a group (every row is taken to have a RoadID).
   */
  function Extract(env: Environment, t: Table): Result<Extraction>
  {
    if IsLaneShapefile(t.columns) then
      if "RoadID" !in t.columns || (|t.rows| > 0 && "Index" !in t.columns) then Err("KeyError")
      else Ok(LaneRecords(env.laneRoads(t)))
    else
      match Extracted(env.lib, t.columns, t.rows)
      case Err(e) => Err(e)
      case Ok(infos) => Ok(PlainRecords(infos))
  }

  function Count(x: Extraction): nat
  {
    match x
    case LaneRecords(roads) => |roads|
    case PlainRecords(infos) => |infos|
  }

  /**
   * The keys of each record as a dict: a lane road has road_id, lanes,
   * lane_count and lane_surfaces; a plain record has id, geometry,
   * coordinates, length, start_point, end_point and attributes.
   */
  function KeyDicts(x: Extraction): seq<Dict<bool>>
  {
    match x
    case LaneRecords(roads) =>
      seq(|roads|, i => [("road_id", true), ("lanes", true), ("lane_count", true), ("lane_surfaces", true)])
    case PlainRecords(infos) =>
      seq(|infos|, i => [("id", true), ("geometry", true), ("coordinates", true), ("length", true),
                         ("start_point", true), ("end_point", true), ("attributes", true)])
  }

  /** _is_lane_format holds exactly for a non-empty list of lane roads. */
  lemma IsLaneFormatOfExtraction(x: Extraction)
    ensures IsLaneFormat(KeyDicts(x)) <==> x.LaneRecords? && |x.roads| > 0
  {
    if x.PlainRecords? && |x.infos| > 0 {
      assert Get(KeyDicts(x)[0], "road_id").None?;
    }
  }

  /** _extract_lane_attributes: the first lane's attributes renamed through the mapping, {} without lanes. */
  function LaneAttributes(lanes: seq<LaneSurface>, mapping: Dict<string>): Dict<Value>
  {
    if lanes == [] then [] else Renamed(lanes[0].attributes, mapping)
  }

  /** _process_lane_data. */
  function ProcessLaneData(roads: seq<LaneRoad>, mapping: Dict<string>): (data: seq<RoadData>)
  {
    seq(|roads|, i requires 0 <= i < |roads| =>
      LaneBased(roads[i].roadId, roads[i].laneSurfaces, LaneAttributes(roads[i].lanes, mapping)))
  }

  /** _process_traditional_data. */
  function ProcessTraditionalData(infos: seq<RoadInfo>, mapping: Dict<string>): (data: seq<RoadData>)
  {
    seq(|infos|, i requires 0 <= i < |infos| =>
      Traditional(infos[i].id, infos[i].coordinates, Renamed(infos[i].attributes, mapping)))
  }

  /** The roads_data the handler stores for a successful extraction. */
  function RoadsDataOf(x: Extraction, mapping: Dict<string>): seq<RoadData>
  {
    match x
    case LaneRecords(roads) => ProcessLaneData(roads, mapping)
    case PlainRecords(infos) => ProcessTraditionalData(infos, mapping)
  }

  /** The request with success False and the given error. */
  function Failed(request: Request, message: string): Request
  {
    request.(success := Some(false), error := Some(message))
  }

  /**
   * ShapefileReadingHandler.handle at stage shapefile_loading. A failed
   * UTM or local conversion only logs and keeps the table; tables here
   * hold 2-D, non-null geometries, on which the local conversion does not
   * fail. An IndexError raised while extracting is not caught and ends the
   * chain.
   */
  function ReadShapefile(env: Environment, request: Request): Result<Request>
  {
    if request.shapefilePath == "" then Ok(Failed(request, NoPathError))
    else
      match env.read(request.shapefilePath)
      case None => Ok(Failed(request, LoadError))
      case Some(loaded) =>
        var minLength := match request.minRoadLength case Some(m) => m case None => 1.0;
        var t := Prepared(env.lib, env.project, loaded, minLength);
        if |t.rows| == 0 then Ok(Failed(request, NothingLeftError))
        else
          match Extract(env, t)
          case Err(e) => Err(e)
          case Ok(x) =>
            if Count(x) == 0 then Ok(Failed(request, ExtractError))
            else Ok(request.(roadsData := Some(RoadsDataOf(x, request.attributeMapping)),
                             stage := Some(GeometryConversion)))
  }

  /**
   * The shapefile stage either fails, setting success False and an error
   * and leaving the stage and everything else as they were, or hands the
   * request on to geometry conversion with one roads_data entry per
   * extracted record; a missing path fails without reading anything.
   */
  lemma ReadShapefileOutcome(env: Environment, request: Request)
    requires ReadShapefile(env, request).Ok?
    ensures var r := ReadShapefile(env, request).value;
            (r.stage == request.stage && r.success == Some(false) && r.error.Some? &&
             r == request.(success := r.success, error := r.error))
            || (r.stage == Some(GeometryConversion) && r.roadsData.Some? && |r.roadsData.value| > 0 &&
                r == request.(stage := r.stage, roadsData := r.roadsData))
    ensures request.shapefilePath == "" ==> ReadShapefile(env, request) == Ok(Failed(request, NoPathError))
  {
  }

  /**
   * A table recognised as a Lane.shp extracts exactly when its RoadID and
   * Index columns are spelt as the extraction reads them; columns named
   * roadid and index are recognised and then raise KeyError.
   */
  lemma LaneColumnsExact(env: Environment, t: Table)
    ensures IsLaneShapefile(t.columns) ==>
              (Extract(env, t).Ok? <==> "RoadID" in t.columns && (|t.rows| == 0 || "Index" in t.columns))
    ensures t.columns == ["roadid", "index"] ==> IsLaneShapefile(t.columns) && Extract(env, t) == Err("KeyError")
  {
    if t.columns == ["roadid", "index"] {
      var upper := seq(|t.columns|, i requires 0 <= i < |t.columns| => Upper(t.columns[i]));
      assert upper[0] == "ROADID" && upper[1] == "INDEX";
      assert IsLaneShapefile(t.columns);
      assert "RoadID"[0] != t.columns[0][0] && "RoadID"[0] != t.columns[1][0];
      assert "RoadID" !in t.columns;
    }
  }

  /**
   * handle has no exception handler: an error raised while the shapefile
   * stage extracts leaves the whole chain, and the request never reaches
   * geometry conversion.
   */
  lemma ExtractionErrorLeavesChain(env: Environment, request: Request)
    requires request.stage == Some(ShapefileLoading) && ReadShapefile(env, request).Err?
    ensures HandleAll(env, StandardChain(), request) == Err(ReadShapefile(env, request).error)
  {
    assert Handle(env, StandardChain()[0], request) == ReadShapefile(env, request);
  }

  /**
   * The converter's chain on a loading request without a path: the reader
   * marks it failed and, its stage being unchanged, the later handlers
   * pass it through.
   */
  lemma {:induction false} MissingPathThroughChain(env: Environment, request: Request)
    requires request.stage == Some(ShapefileLoading) && request.shapefilePath == ""
    ensures HandleAll(env, StandardChain(), request) == Ok(Failed(request, NoPathError))
  {
    var failed := Failed(request, NoPathError);
    assert Handle(env, ShapefileReading, request) == Ok(failed);
    var rest := StandardChain()[1..];
    assert rest == [GeometryConverting, OpenDriveGenerating];
    UnclaimedStagePassesThrough(env, rest, failed);
  }

  /** _process_lane_data emits one lane-based record per road, carrying its id, surfaces and mapped attributes. */
  lemma ProcessLaneDataSpec(roads: seq<LaneRoad>, mapping: Dict<string>, i: nat)
    requires i < |roads|
    ensures |ProcessLaneData(roads, mapping)| == |roads|
    ensures ProcessLaneData(roads, mapping)[i].LaneBased?
    ensures ProcessLaneData(roads, mapping)[i].id == roads[i].roadId
    ensures ProcessLaneData(roads, mapping)[i].laneSurfaces == roads[i].laneSurfaces
    ensures roads[i].lanes == [] ==> ProcessLaneData(roads, mapping)[i].attributes == []
  {
  }

  // ------------------------------------------------ geometry conversion stage

  /** The values of the successful results, in order. */
  function Successes<A, B>(f: A -> Result<B>, xs: seq<A>): seq<B>
  {
    if xs == [] then []
    else if f(xs[|xs| - 1]).Ok? then Successes(f, xs[..|xs| - 1]) + [f(xs[|xs| - 1]).value]
    else Successes(f, xs[..|xs| - 1])
  }

  /**
   * Successes keeps every successful result and nothing else: each kept
   * value is the result of some input, each input that succeeds has its
   * value kept, and there are never more values than inputs.
   */
  lemma {:induction false} SuccessesSpec<A, B>(f: A -> Result<B>, xs: seq<A>)
    ensures |Successes(f, xs)| <= |xs|
    ensures forall y :: y in Successes(f, xs) ==> exists x :: x in xs && f(x) == Ok(y)
    ensures forall x :: x in xs && f(x).Ok? ==> f(x).value in Successes(f, xs)
  {
    if xs != [] {
      var init := xs[..|xs| - 1];
      SuccessesSpec(f, init);
      assert xs == init + [xs[|xs| - 1]];
      forall y | y in Successes(f, xs)
        ensures exists x :: x in xs && f(x) == Ok(y)
      {
        if y in Successes(f, init) {
          var x :| x in init && f(x) == Ok(y);
          assert x in xs;
        } else {
          assert f(xs[|xs| - 1]) == Ok(y);
        }
      }
    }
  }

  /** Every input fails exactly when nothing is kept. */
  lemma {:induction false} SuccessesEmpty<A, B>(f: A -> Result<B>, xs: seq<A>)
    ensures Successes(f, xs) == [] <==> forall k :: 0 <= k < |xs| ==> f(xs[k]).Err?
  {
    if xs != [] {
      SuccessesEmpty(f, xs[..|xs| - 1]);
    }
  }

  /**
   * convert_lane_surface_geometry: each surface whose conversion raises is
   * logged and skipped; the others are kept in order.
   */
  method ConvertLaneSurfaceGeometry(convert: LaneSurface -> Result<ConvertedSurface>, surfaces: seq<LaneSurface>)
    returns (converted: seq<ConvertedSurface>)
    ensures converted == Successes(convert, surfaces)
  {
    converted := [];
    for i := 0 to |surfaces|
      invariant converted == Successes(convert, surfaces[..i])
    {
      assert surfaces[..i + 1][..i] == surfaces[..i];
      var r := convert(surfaces[i]);
      if r.Ok? {
        converted := converted + [r.value];
      }
    }
    assert surfaces[..|surfaces|] == surfaces;
  }

  /**
   * _convert_lane_based_geometry and _convert_traditional_geometry: Err
   * stands for the None they return (no surfaces, nothing converted, no
   * segments, or an exception).
   */
  function ConvertRoad(env: Environment, road: RoadData): Result<ConvertedRoad>
  {
    match road
    case LaneBased(id, surfaces, attributes) =>
      if surfaces == [] then Err("no lane surfaces")
      else
        var converted := Successes(env.convertSurface, surfaces);
        if converted == [] then Err("no surface converted")
        else Ok(ConvertedLaneRoad(id, converted, attributes))
    case Traditional(rowId, coordinates, attributes) =>
      match env.convertRoad(coordinates)
      case Err(e) => Err(e)
      case Ok(segments) =>
        if segments == [] then Err("no segments")
        else Ok(ConvertedPlainRoad(rowId, segments, attributes, RoadLength(segments)))
  }

  /** GeometryConversionHandler.handle at stage geometry_conversion. */
  function ConvertGeometries(env: Environment, request: Request): Request
  {
    var roads := match request.roadsData case Some(rs) => rs case None => [];
    request.(convertedRoads := Some(Successes(r => ConvertRoad(env, r), roads)),
             stage := Some(OpenDriveGeneration))
  }

  /**
   * A converted lane road keeps its id and attributes and holds exactly the
   * surfaces whose conversion succeeded; a converted plain road carries the
   * summed length of its non-empty segment list.
   */
  lemma ConvertRoadSpec(env: Environment, road: RoadData)
    ensures road.LaneBased? ==>
              (ConvertRoad(env, road).Ok? <==>
                 exists k :: 0 <= k < |road.laneSurfaces| && env.convertSurface(road.laneSurfaces[k]).Ok?)
    ensures road.LaneBased? && ConvertRoad(env, road).Ok? ==>
              ConvertRoad(env, road).value ==
                ConvertedLaneRoad(road.id, Successes(env.convertSurface, road.laneSurfaces), road.attributes)
    ensures road.Traditional? && ConvertRoad(env, road).Ok? ==>
              var c := ConvertRoad(env, road).value;
              c.ConvertedPlainRoad? && c.rowId == road.rowId && c.segments != [] &&
              env.convertRoad(road.coordinates) == Ok(c.segments) && c.totalLength == RoadLength(c.segments)
  {
    if road.LaneBased? {
      SuccessesEmpty(env.convertSurface, road.laneSurfaces);
    }
  }

  /**
   * The geometry stage moves the request on to OpenDRIVE generation and
   * keeps exactly the roads that converted: every kept road is the
   * conversion of some input road and every road that converts is kept.
   */
  lemma ConvertGeometriesSpec(env: Environment, request: Request)
    ensures var r := ConvertGeometries(env, request);
            var roads := if request.roadsData.Some? then request.roadsData.value else [];
            var f := (x: RoadData) => ConvertRoad(env, x);
            && r.stage == Some(OpenDriveGeneration)
            && r.convertedRoads.Some?
            && |r.convertedRoads.value| <= |roads|
            && (forall c :: c in r.convertedRoads.value ==> exists x :: x in roads && f(x) == Ok(c))
            && (forall x :: x in roads && f(x).Ok? ==> f(x).value in r.convertedRoads.value)
            && r == request.(stage := r.stage, convertedRoads := r.convertedRoads)
  {
    var roads := if request.roadsData.Some? then request.roadsData.value else [];
    SuccessesSpec((x: RoadData) => ConvertRoad(env, x), roads);
  }
}
