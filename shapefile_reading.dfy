// ShapefileReader of src/shp_reader.py over an in-memory table: the
// loaded shapefile is a list of rows (an index label, a geometry and the attribute
// cells), and the reader's `gdf` field is replaced by each step. Reading the
// file and the CRS projection are parameters; the filtering, translation,
// zone arithmetic, record extraction and column suggestions are modelled.

module ShapefileReading {
  import opened Common
  import opened Seqs
  import opened Dicts

  // ------------------------------------------------------------------ table

  /** A shapely geometry: a line, a multi-line, or anything else (points, polygons). */
  datatype Geometry =
    | LineString(coords: seq<Point>)
    | MultiLineString(lines: seq<seq<Point>>)
    | OtherGeometry(points: seq<Point>)

  /** One row of the GeoDataFrame: its index label, geometry and attribute cells. */
  datatype Row = Row(rowLabel: int, geometry: Geometry, cells: map<string, Value>)

  /** The coordinate reference system of a loaded shapefile: none (no .prj file), geographic, or projected. */
  datatype CrsKind = NoCrs | Geographic | Projected

  /**
   * to_crs towards an EPSG code: `accepts(code)` says whether it completes
   * (pyproj raises for a CRS it cannot build or a transformation it cannot
   * run), and `apply(code, p)` is where it sends each vertex.
   */
  datatype Projection = Projection(accepts: int -> bool, apply: (int, Point) -> Point)

  /** A loaded shapefile: the column names (including "geometry"), the rows, and the kind of its CRS. */
  datatype Table = Table(columns: seq<string>, rows: seq<Row>, crs: CrsKind)

  /** One record of extract_road_geometries. */
  datatype RoadInfo = RoadInfo(id: int, coordinates: seq<Point>, length: real,
                               startPoint: Point, endPoint: Point, attributes: Dict<Value>)

  /** row[col]; a missing cell reads as None. */
  function Cell(row: Row, col: string): Value
  {
    if col in row.cells then row.cells[col] else Null
  }

  /** Every vertex of a geometry. */
  function GeometryPoints(g: Geometry): seq<Point>
  {
    match g
    case LineString(c) => c
    case MultiLineString(ls) => Flatten(ls)
    case OtherGeometry(p) => p
  }

  /** geometry.length: the summed polyline length of its parts. */
  function GeometryLength(lib: Libm, g: Geometry): real
  {
    match g
    case LineString(c) => PathLength(lib, c)
    case MultiLineString(ls) => LinesLength(lib, ls)
    case OtherGeometry(p) => PathLength(lib, p)
  }

  function LinesLength(lib: Libm, ls: seq<seq<Point>>): real
  {
    if ls == [] then 0.0 else LinesLength(lib, ls[..|ls| - 1]) + PathLength(lib, ls[|ls| - 1])
  }

  /** Every vertex of every row, in row order. */
  function AllPoints(rows: seq<Row>): seq<Point>
  {
    if rows == [] then [] else AllPoints(rows[..|rows| - 1]) + GeometryPoints(rows[|rows| - 1].geometry)
  }

  lemma {:induction false} AllPointsHas(rows: seq<Row>, k: nat, p: Point)
    requires k < |rows| && p in GeometryPoints(rows[k].geometry)
    ensures p in AllPoints(rows)
  {
    if k < |rows| - 1 {
      AllPointsHas(rows[..|rows| - 1], k, p);
    }
  }

  // ----------------------------------------------------------------- bounds

  function Lo(xs: seq<real>): real
    requires |xs| > 0
  {
    if |xs| == 1 then xs[0] else Min(Lo(xs[..|xs| - 1]), xs[|xs| - 1])
  }

  function Hi(xs: seq<real>): real
    requires |xs| > 0
  {
    if |xs| == 1 then xs[0] else Max(Hi(xs[..|xs| - 1]), xs[|xs| - 1])
  }

  /** Lo is a lower bound of the values and one of them. */
  lemma {:induction false} LoSpec(xs: seq<real>)
    requires |xs| > 0
    ensures forall i :: 0 <= i < |xs| ==> Lo(xs) <= xs[i]
    ensures Lo(xs) in xs
  {
    if |xs| > 1 {
      LoSpec(xs[..|xs| - 1]);
      assert forall i :: 0 <= i < |xs| - 1 ==> xs[..|xs| - 1][i] == xs[i];
    }
  }

  /** Hi is an upper bound of the values and one of them. */
  lemma {:induction false} HiSpec(xs: seq<real>)
    requires |xs| > 0
    ensures forall i :: 0 <= i < |xs| ==> xs[i] <= Hi(xs)
    ensures Hi(xs) in xs
  {
    if |xs| > 1 {
      HiSpec(xs[..|xs| - 1]);
      assert forall i :: 0 <= i < |xs| - 1 ==> xs[..|xs| - 1][i] == xs[i];
    }
  }

  function Xs(pts: seq<Point>): seq<real>
  {
    seq(|pts|, i requires 0 <= i < |pts| => pts[i].x)
  }

  function Ys(pts: seq<Point>): seq<real>
  {
    seq(|pts|, i requires 0 <= i < |pts| => pts[i].y)
  }

  /** total_bounds: (min x, min y, max x, max y) over every vertex. */
  datatype Bounds = Bounds(minX: real, minY: real, maxX: real, maxY: real)

  /** The total bounds of the rows; None when there is no vertex at all (geopandas gives NaN). */
  function TotalBounds(rows: seq<Row>): Option<Bounds>
  {
    var pts := AllPoints(rows);
    if pts == [] then None
    else Some(Bounds(Lo(Xs(pts)), Lo(Ys(pts)), Hi(Xs(pts)), Hi(Ys(pts))))
  }

  /** Every vertex lies inside the total bounds. */
  lemma TotalBoundsContain(rows: seq<Row>, k: nat, p: Point)
    requires k < |rows| && p in GeometryPoints(rows[k].geometry)
    ensures TotalBounds(rows).Some?
    ensures var b := TotalBounds(rows).value; b.minX <= p.x <= b.maxX && b.minY <= p.y <= b.maxY
  {
    AllPointsHas(rows, k, p);
    var pts := AllPoints(rows);
    var i :| 0 <= i < |pts| && pts[i] == p;
    LoSpec(Xs(pts));
    LoSpec(Ys(pts));
    HiSpec(Xs(pts));
    HiSpec(Ys(pts));
    assert Xs(pts)[i] == p.x && Ys(pts)[i] == p.y;
  }

  // ------------------------------------------------------------ UTM zone

  /** int((center_lon + 180) / 6) + 1. */
  function UtmZone(centerLon: real): int
  {
    Trunc((centerLon + 180.0) / 6.0) + 1
  }

  /** The EPSG code of the UTM zone: 326zz north of the equator (latitude >= 0), 327zz south. */
  function UtmEpsg(centerLon: real, centerLat: real): int
  {
    (if centerLat >= 0.0 then 32600 else 32700) + UtmZone(centerLon)
  }

  /**
   * A centre longitude in [-180, 180) gives a zone in 1 .. 60, so the code is
   * 32601 .. 32660 in the north and 32701 .. 32760 in the south.
   */
  lemma UtmEpsgRange(centerLon: real, centerLat: real)
    requires -180.0 <= centerLon < 180.0
    ensures 1 <= UtmZone(centerLon) <= 60
    ensures centerLat >= 0.0 ==> 32601 <= UtmEpsg(centerLon, centerLat) <= 32660
    ensures centerLat < 0.0 ==> 32701 <= UtmEpsg(centerLon, centerLat) <= 32760
  {
    var v := (centerLon + 180.0) / 6.0;
    assert 0.0 <= v < 60.0;
  }

  /** Zones are six degrees wide: moving six degrees east moves one zone up. */
  lemma UtmZoneStep(centerLon: real)
    requires centerLon >= -180.0
    ensures UtmZone(centerLon + 6.0) == UtmZone(centerLon) + 1
  {
    var v := (centerLon + 180.0) / 6.0;
    assert (centerLon + 6.0 + 180.0) / 6.0 == v + 1.0;
  }

  /** A centre longitude of exactly 180 degrees gives zone 61, one past the last UTM zone. */
  lemma UtmZoneAtAntimeridian()
    ensures UtmZone(180.0) == 61
  {
  }

  /** The geographic centre of the bounds. */
  function Centre(b: Bounds): (real, real)
  {
    ((b.minX + b.maxX) / 2.0, (b.minY + b.maxY) / 2.0)
  }

  function ProjectGeometry(g: Geometry, project: Point -> Point): Geometry
  {
    match g
    case LineString(c) => LineString(MapPoints(c, project))
    case MultiLineString(ls) => MultiLineString(seq(|ls|, i requires 0 <= i < |ls| => MapPoints(ls[i], project)))
    case OtherGeometry(p) => OtherGeometry(MapPoints(p, project))
  }

  function MapPoints(pts: seq<Point>, f: Point -> Point): (r: seq<Point>)
    ensures |r| == |pts| && forall i :: 0 <= i < |pts| ==> r[i] == f(pts[i])
  {
    seq(|pts|, i requires 0 <= i < |pts| => f(pts[i]))
  }

  function ProjectRows(rows: seq<Row>, project: Point -> Point): seq<Row>
  {
    seq(|rows|, i requires 0 <= i < |rows| => rows[i].(geometry := ProjectGeometry(rows[i].geometry, project)))
  }

  // ------------------------------------------------------ local coordinates

  function Shift(p: Point, dx: real, dy: real): Point
  {
    Point(p.x - dx, p.y - dy)
  }

  /** translate_geometry: lines and multi-lines move by (-dx, -dy); other geometries are returned as they are. */
  function TranslateGeometry(g: Geometry, dx: real, dy: real): Geometry
  {
    match g
    case LineString(c) => LineString(MapPoints(c, p => Shift(p, dx, dy)))
    case MultiLineString(ls) => MultiLineString(seq(|ls|, i requires 0 <= i < |ls| => MapPoints(ls[i], p => Shift(p, dx, dy))))
    case OtherGeometry(_) => g
  }

  /** convert_to_local_coordinates: every line moved so that the total bounds' minimum becomes the origin. */
  function Translated(rows: seq<Row>): seq<Row>
  {
    match TotalBounds(rows)
    case None => rows
    case Some(b) =>
      seq(|rows|, i requires 0 <= i < |rows| => rows[i].(geometry := TranslateGeometry(rows[i].geometry, b.minX, b.minY)))
  }

  /** A shift keeps every distance, so it keeps a polyline's length. */
  lemma {:induction false} ShiftKeepsLength(lib: Libm, pts: seq<Point>, dx: real, dy: real)
    ensures PathLength(lib, MapPoints(pts, p => Shift(p, dx, dy))) == PathLength(lib, pts)
  {
    if |pts| >= 2 {
      var f := p => Shift(p, dx, dy);
      var n := |pts|;
      ShiftKeepsLength(lib, pts[..n - 1], dx, dy);
      assert MapPoints(pts, f)[..n - 1] == MapPoints(pts[..n - 1], f);
      var a := pts[n - 2];
      var b := pts[n - 1];
      assert Shift(b, dx, dy).x - Shift(a, dx, dy).x == b.x - a.x;
      assert Shift(b, dx, dy).y - Shift(a, dx, dy).y == b.y - a.y;
      assert Dist2(Shift(a, dx, dy), Shift(b, dx, dy)) == Dist2(a, b);
    }
  }

  /**
   * After the translation every vertex of a line or multi-line lies in the
   * quadrant x >= 0, y >= 0, and every line keeps its length.
   */
  lemma TranslatedProperties(lib: Libm, rows: seq<Row>, k: nat)
    requires k < |rows| && rows[k].geometry.LineString?
    ensures |Translated(rows)| == |rows|
    ensures Translated(rows)[k].geometry.LineString?
    ensures forall p :: p in Translated(rows)[k].geometry.coords ==> p.x >= 0.0 && p.y >= 0.0
    ensures GeometryLength(lib, Translated(rows)[k].geometry) == GeometryLength(lib, rows[k].geometry)
  {
    var c := rows[k].geometry.coords;
    if TotalBounds(rows).Some? {
      var b := TotalBounds(rows).value;
      ShiftKeepsLength(lib, c, b.minX, b.minY);
      forall p | p in Translated(rows)[k].geometry.coords
        ensures p.x >= 0.0 && p.y >= 0.0
      {
        var t := Translated(rows)[k].geometry.coords;
        var i :| 0 <= i < |t| && t[i] == p;
        TotalBoundsContain(rows, k, c[i]);
      }
    } else if c != [] {
      TotalBoundsContain(rows, k, c[0]);
    }
  }

  // -------------------------------------------------------------- filtering

  /** The rows whose geometry is at least minLength long, in their order (labels kept). */
  function LongRows(lib: Libm, rows: seq<Row>, minLength: real): seq<Row>
  {
    if rows == [] then []
    else
      var prev := LongRows(lib, rows[..|rows| - 1], minLength);
      if GeometryLength(lib, rows[|rows| - 1].geometry) >= minLength then prev + [rows[|rows| - 1]] else prev
  }

  /** The filter keeps exactly the long enough rows, in their order. */
  lemma {:induction false} LongRowsSpec(lib: Libm, rows: seq<Row>, minLength: real)
    ensures Subseq(LongRows(lib, rows, minLength), rows)
    ensures forall r :: r in LongRows(lib, rows, minLength) <==> r in rows && GeometryLength(lib, r.geometry) >= minLength
  {
    if rows != [] {
      var n := |rows|;
      LongRowsSpec(lib, rows[..n - 1], minLength);
      assert rows == rows[..n - 1] + [rows[n - 1]];
      var prev := LongRows(lib, rows[..n - 1], minLength);
      if GeometryLength(lib, rows[n - 1].geometry) >= minLength {
        SubseqSnoc(prev, rows[..n - 1], rows[n - 1]);
      } else {
        SubseqExtend(prev, rows[..n - 1], [rows[n - 1]]);
      }
    }
  }

  // ------------------------------------------------------------- extraction

  /** attributes[col] = row[col] for every column other than "geometry", in column order. */
  function AttributesOf(columns: seq<string>, row: Row): Dict<Value>
  {
    if columns == [] then []
    else
      var prev := AttributesOf(columns[..|columns| - 1], row);
      var col := columns[|columns| - 1];
      if col == "geometry" then prev else Put(prev, col, Cell(row, col))
  }

  /** The attributes hold exactly the non-geometry columns, each with the row's cell. */
  lemma {:induction false} AttributesOfSpec(columns: seq<string>, row: Row, col: string)
    ensures Get(AttributesOf(columns, row), col) == if col in columns && col != "geometry" then Some(Cell(row, col)) else None
  {
    if columns != [] {
      var n := |columns|;
      AttributesOfSpec(columns[..n - 1], row, col);
      assert columns == columns[..n - 1] + [columns[n - 1]];
      if columns[n - 1] != "geometry" {
        PutGet(AttributesOf(columns[..n - 1], row), columns[n - 1], Cell(row, columns[n - 1]), col);
      }
    }
  }

  /**
   * One row of the extraction loop: a LineString gives a record keyed by the
   * row's index label; anything else is skipped (None); a LineString without
   * vertices fails on coords[0].
   */
  function RoadOf(lib: Libm, columns: seq<string>, row: Row): Result<Option<RoadInfo>>
  {
    match row.geometry
    case LineString(c) => if c == [] then Err(IndexError) else Ok(Some(Record(lib, columns, row)))
    case _ => Ok(None)
  }

  /** The record of a row holding a LineString with at least one vertex. */
  function Record(lib: Libm, columns: seq<string>, row: Row): RoadInfo
    requires row.geometry.LineString? && row.geometry.coords != []
  {
    var c := row.geometry.coords;
    RoadInfo(row.rowLabel, c, PathLength(lib, c), c[0], c[|c| - 1], AttributesOf(columns, row))
  }

  /** extract_road_geometries over the rows: the records in row order, or the first error. */
  function Extracted(lib: Libm, columns: seq<string>, rows: seq<Row>): Result<seq<RoadInfo>>
  {
    if rows == [] then Ok([])
    else
      var prev := Extracted(lib, columns, rows[..|rows| - 1]);
      if prev.Err? then prev
      else
        match RoadOf(lib, columns, rows[|rows| - 1])
        case Err(e) => Err(e)
        case Ok(None) => prev
        case Ok(Some(info)) => Ok(prev.value + [info])
  }

  /** Once a prefix of the rows fails, the whole extraction fails with the same error. */
  lemma {:induction false} ExtractedErrSticks(lib: Libm, columns: seq<string>, rows: seq<Row>, i: nat)
    requires i <= |rows| && Extracted(lib, columns, rows[..i]).Err?
    ensures Extracted(lib, columns, rows) == Extracted(lib, columns, rows[..i])
    decreases |rows| - i
  {
    if i < |rows| {
      assert rows[..i + 1][..i] == rows[..i];
      ExtractedErrSticks(lib, columns, rows, i + 1);
    } else {
      assert rows[..i] == rows;
    }
  }

  /** The rows holding a LineString, in order. */
  function LineRows(rows: seq<Row>): seq<Row>
  {
    if rows == [] then []
    else
      var prev := LineRows(rows[..|rows| - 1]);
      if rows[|rows| - 1].geometry.LineString? then prev + [rows[|rows| - 1]] else prev
  }

  /**
   * Extraction fails exactly when some LineString has no vertex; otherwise
   * it gives one record per LineString row, in order, each with the row's
   * index label, its vertices, their polyline length, its first and last vertex
   * and the row's attributes.
   */
  lemma {:induction false} ExtractedSpec(lib: Libm, columns: seq<string>, rows: seq<Row>)
    ensures Extracted(lib, columns, rows).Err? <==>
              exists i :: 0 <= i < |rows| && rows[i].geometry.LineString? && rows[i].geometry.coords == []
    ensures Extracted(lib, columns, rows).Err? ==> Extracted(lib, columns, rows).error == IndexError
    ensures Extracted(lib, columns, rows).Ok? ==>
              var roads := Extracted(lib, columns, rows).value;
              var lines := LineRows(rows);
              && |roads| == |lines|
              && forall j :: 0 <= j < |roads| ==>
                   && lines[j].geometry.LineString? && lines[j].geometry.coords != []
                   && roads[j] == Record(lib, columns, lines[j])
  {
    if rows != [] {
      var n := |rows|;
      ExtractedSpec(lib, columns, rows[..n - 1]);
      assert forall i :: 0 <= i < n - 1 ==> rows[..n - 1][i] == rows[i];
      var prev := Extracted(lib, columns, rows[..n - 1]);
      if prev.Err? {
        var i :| 0 <= i < n - 1 && rows[..n - 1][i].geometry.LineString? && rows[..n - 1][i].geometry.coords == [];
        assert rows[i] == rows[..n - 1][i];
      }
    }
  }

  // ------------------------------------------------------- column suggestions

  function StartsWith(s: string, prefix: string): bool
  {
    |prefix| <= |s| && s[..|prefix|] == prefix
  }

  /** `sub in s` for strings. */
  function Contains(s: string, sub: string): bool
  {
    StartsWith(s, sub) || (|s| > 0 && Contains(s[1..], sub))
  }

  /** `any(keyword in col for keyword in keywords)`. */
  function AnyIn(keywords: seq<string>, col: string): bool
  {
    exists k :: k in keywords && Contains(col, k)
  }

  /** The first keyword group a lower-cased column name matches, and the attribute it suggests. */
  function Suggestion(col: string): Option<string>
  {
    if AnyIn(["type", "class", "category"], col) then Some("road_type")
    else if AnyIn(["width", "lane"], col) then Some("lane_width")
    else if AnyIn(["speed", "limit"], col) then Some("speed_limit")
    else if AnyIn(["name", "id"], col) then Some("road_name")
    else None
  }

  /** get_road_attributes_mapping over the column names. */
  function AttributesMapping(columns: seq<string>): Dict<string>
  {
    if columns == [] then []
    else
      var prev := AttributesMapping(columns[..|columns| - 1]);
      var col := columns[|columns| - 1];
      if col == "geometry" then prev
      else
        match Suggestion(Lower(col))
        case None => prev
        case Some(target) => Put(prev, Lower(col), target)
  }

  /**
   * A key is suggested exactly when it is the lower-cased name of a
   * non-geometry column, and its target is the first keyword group that name
   * matches.
   */
  lemma {:induction false} AttributesMappingSpec(columns: seq<string>, key: string)
    ensures Get(AttributesMapping(columns), key) ==
              if exists c :: c in columns && c != "geometry" && Lower(c) == key then Suggestion(key) else None
  {
    if columns != [] {
      var n := |columns|;
      var col := columns[n - 1];
      AttributesMappingSpec(columns[..n - 1], key);
      assert columns == columns[..n - 1] + [col];
      if col != "geometry" && Suggestion(Lower(col)).Some? {
        PutGet(AttributesMapping(columns[..n - 1]), Lower(col), Suggestion(Lower(col)).value, key);
      }
    }
  }

  /** A name matching two groups takes the earlier one: "speed_type" suggests road_type, not speed_limit. */
  lemma SuggestionPriority()
    ensures Suggestion("speed_type") == Some("road_type")
  {
    assert Contains("speed_type", "type") by {
      assert "speed_type"[6..][..4] == "type";
    }
  }

  // ------------------------------------------------------ loading pipeline

  /**
   * convert_to_utm on a loaded table: a projected table is kept; a
   * geographic one is projected to the UTM zone of its centre. Without a
   * CRS (reading crs.is_geographic raises), without any vertex, or when
   * to_crs raises, the conversion fails (None) and the table stays as it was.
   */
  function UtmConverted(t: Table, project: Projection): Option<Table>
  {
    match t.crs
    case NoCrs => None
    case Projected => Some(t)
    case Geographic =>
      match TotalBounds(t.rows)
      case None => None
      case Some(b) =>
        var (lon, lat) := Centre(b);
        var code := UtmEpsg(lon, lat);
        if !project.accepts(code) then None
        else Some(Table(t.columns, ProjectRows(t.rows, p => project.apply(code, p)), Projected))
  }

  /** The table the reader holds after loading, converting and filtering. */
  function Prepared(lib: Libm, project: Projection, loaded: Table, minLength: real): Table
  {
    var projected := match UtmConverted(loaded, project)
                     case Some(u) => u
                     case None => loaded;
    var local := projected.(rows := Translated(projected.rows));
    local.(rows := LongRows(lib, local.rows, minLength))
  }

  // ----------------------------------------------------------------- reader

  /** ShapefileReader: the loaded table (None before loading) and the last extracted records. */
  class ShapefileReader {
    const shapefilePath: string
    var gdf: Option<Table>
    var roadsData: seq<RoadInfo>

    constructor(path: string)
      ensures shapefilePath == path && gdf == None && roadsData == []
    {
      shapefilePath := path;
      gdf := None;
      roadsData := [];
    }

    /** load_shapefile: `read` is what reading the file gives, None when it raises. */
    method LoadShapefile(read: Option<Table>) returns (ok: bool)
      modifies this
      ensures ok <==> read.Some?
      ensures gdf == if ok then read else old(gdf)
      ensures roadsData == old(roadsData)
    {
      if read.None? {
        return false;
      }
      gdf := read;
      return true;
    }

    /**
     * convert_to_utm: a geographic table is projected to the UTM zone of its
     * centre; `project` stands for to_crs. A table without a CRS fails on
     * crs.is_geographic; without any vertex the bounds are NaN, int() raises
     * and the conversion fails; and it fails when to_crs raises.
     */
    method ConvertToUtm(project: Projection) returns (ok: bool)
      modifies this
      ensures ok <==> old(gdf).Some? && old(gdf).value.crs != NoCrs
                      && (old(gdf).value.crs == Geographic ==>
                            && TotalBounds(old(gdf).value.rows).Some?
                            && var (lon, lat) := Centre(TotalBounds(old(gdf).value.rows).value);
                               project.accepts(UtmEpsg(lon, lat)))
      ensures ok && old(gdf).value.crs == Geographic ==>
                var t := old(gdf).value;
                var (lon, lat) := Centre(TotalBounds(t.rows).value);
                var code := UtmEpsg(lon, lat);
                gdf == Some(Table(t.columns, ProjectRows(t.rows, p => project.apply(code, p)), Projected))
      ensures !(ok && old(gdf).value.crs == Geographic) ==> gdf == old(gdf)
      ensures ok <==> old(gdf).Some? && UtmConverted(old(gdf).value, project).Some?
      ensures ok ==> gdf == UtmConverted(old(gdf).value, project)
      ensures roadsData == old(roadsData)
    {
      if gdf.None? {
        return false;
      }
      var t := gdf.value;
      if t.crs == NoCrs {
        return false;
      }
      if t.crs == Geographic {
        var bounds := TotalBounds(t.rows);
        if bounds.None? {
          return false;
        }
        var (lon, lat) := Centre(bounds.value);
        var code := UtmEpsg(lon, lat);
        if !project.accepts(code) {
          return false;
        }
        gdf := Some(Table(t.columns, ProjectRows(t.rows, p => project.apply(code, p)), Projected));
      }
      return true;
    }

    /**
     * convert_to_local_coordinates. The geometries modelled are 2-D and
     * non-null, so the translation fails only when no table is loaded.
     */
    method ConvertToLocalCoordinates() returns (ok: bool)
      modifies this
      ensures ok <==> old(gdf).Some?
      ensures gdf == if ok then Some(old(gdf).value.(rows := Translated(old(gdf).value.rows))) else old(gdf)
      ensures roadsData == old(roadsData)
    {
      if gdf.None? {
        return false;
      }
      gdf := Some(gdf.value.(rows := Translated(gdf.value.rows)));
      return true;
    }

    /** filter_roads_by_length: keeps the rows at least minLength long and returns how many remain (0 before loading). */
    method FilterRoadsByLength(lib: Libm, minLength: real) returns (count: int)
      modifies this
      ensures gdf == if old(gdf).None? then None else Some(old(gdf).value.(rows := LongRows(lib, old(gdf).value.rows, minLength)))
      ensures count == if gdf.None? then 0 else |gdf.value.rows|
      ensures roadsData == old(roadsData)
    {
      if gdf.None? {
        return 0;
      }
      gdf := Some(gdf.value.(rows := LongRows(lib, gdf.value.rows, minLength)));
      count := |gdf.value.rows|;
    }

    /** get_road_attributes_mapping: {} before loading. */
    method GetRoadAttributesMapping() returns (m: Dict<string>)
      ensures m == if gdf.None? then [] else AttributesMapping(gdf.value.columns)
    {
      if gdf.None? {
        return [];
      }
      var columns := gdf.value.columns;
      m := [];
      for i := 0 to |columns|
        invariant m == AttributesMapping(columns[..i])
      {
        assert columns[..i + 1][..i] == columns[..i];
        var col := columns[i];
        if col != "geometry" {
          var suggestion := Suggestion(Lower(col));
          if suggestion.Some? {
            m := Put(m, Lower(col), suggestion.value);
          }
        }
      }
      assert columns[..|columns|] == columns;
    }

    /** extract_road_geometries: [] before loading; the records are also kept in roadsData. */
    method ExtractRoadGeometries(lib: Libm) returns (roads: Result<seq<RoadInfo>>)
      modifies this
      ensures gdf == old(gdf)
      ensures roads == if gdf.None? then Ok([]) else Extracted(lib, gdf.value.columns, gdf.value.rows)
      ensures roads.Ok? && gdf.Some? ==> roadsData == roads.value
      ensures !(roads.Ok? && gdf.Some?) ==> roadsData == old(roadsData)
    {
      if gdf.None? {
        return Ok([]);
      }
      var columns := gdf.value.columns;
      var rows := gdf.value.rows;
      var found: seq<RoadInfo> := [];
      for i := 0 to |rows|
        invariant Extracted(lib, columns, rows[..i]) == Ok(found)
      {
        assert rows[..i + 1][..i] == rows[..i];
        var road := RoadOf(lib, columns, rows[i]);
        if road.Err? {
          ExtractedErrSticks(lib, columns, rows, i + 1);
          return Err(road.error);
        }
        if road.value.Some? {
          found := found + [road.value.value];
        }
      }
      assert rows[..|rows|] == rows;
      roadsData := found;
      return Ok(found);
    }
  }
}
