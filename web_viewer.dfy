// The pure helpers of Web3DServer in web/web_server.py: the total road
// length reported after a shapefile load, the GeoJSON built from the
// parser's centre lines, the quality mode of the OBJ export, the
// coordinate offset of the SHP-to-OBJ route, and that route's upload check.
// As written the route raises TypeError at ShapefileReader() (line 991,
// whose constructor needs a path) before the offset is computed; the
// offset here is computed on the features a reader would return.
// The routes themselves (requests, temporary directories, file saving and
// sending) are not modelled.

module WebViewer {
  import opened Common
  import opened Dicts
  import opened XodrParser
  import opened WebCommon
  import ShapefileReading

  // ---------------------------------------------------------- total length

  /** A lane of a lane-format road: its left boundary's geometry length, None without left_boundary or geometry. */
  datatype LaneEntry = LaneEntry(leftGeometryLength: Option<real>)

  /** A roads_data entry: its 'length' value and its 'lanes' list, each None when the key is absent. */
  datatype RoadEntry = RoadEntry(length: Option<Value>, lanes: Option<seq<LaneEntry>>)

  /** The left-boundary lengths of the lanes that have one. */
  function LaneLengths(lanes: seq<LaneEntry>): real
  {
    if lanes == [] then 0.0
    else
      var last := lanes[|lanes| - 1];
      LaneLengths(lanes[..|lanes| - 1]) + (if last.leftGeometryLength.Some? then last.leftGeometryLength.value else 0.0)
  }

  /**
   * What one road adds: its length when it has one (None when adding it
   * raises), else its lanes' left-boundary lengths, else nothing.
   */
  function Contribution(r: RoadEntry): Option<real>
  {
    if r.length.Some? then NumberOf(r.length.value)
    else if r.lanes.Some? then Some(LaneLengths(r.lanes.value))
    else Some(0.0)
  }

  /** Every road's contribution, None when one of them raises. */
  function Contributions(roads: seq<RoadEntry>): Option<seq<real>>
  {
    if roads == [] then Some([])
    else
      match (Contributions(roads[..|roads| - 1]), Contribution(roads[|roads| - 1]))
      case (Some(xs), Some(x)) => Some(xs + [x])
      case _ => None
  }

  /** _calculate_total_length: the sum of the contributions, 0 when adding one raises. */
  function TotalLengthOf(roads: seq<RoadEntry>): real
  {
    match Contributions(roads)
    case None => 0.0
    case Some(xs) => Sum(xs)
  }

  /** A failure in a prefix is a failure of the whole list. */
  lemma {:induction false} ContributionsPrefixFails(roads: seq<RoadEntry>, k: nat)
    requires k <= |roads| && Contributions(roads[..k]).None?
    ensures Contributions(roads).None?
  {
    if k < |roads| {
      var init := roads[..|roads| - 1];
      assert init[..k] == roads[..k];
      ContributionsPrefixFails(init, k);
    } else {
      assert roads[..k] == roads;
    }
  }

  /** The contributions of a concatenation, when neither half raises, are the halves' contributions. */
  lemma {:induction false} ContributionsConcat(a: seq<RoadEntry>, b: seq<RoadEntry>)
    requires Contributions(a).Some? && Contributions(b).Some?
    ensures Contributions(a + b) == Some(Contributions(a).value + Contributions(b).value)
  {
    if b != [] {
      var init := b[..|b| - 1];
      assert (a + b)[..|a + b| - 1] == a + init;
      assert (a + b)[|a + b| - 1] == b[|b| - 1];
      ContributionsConcat(a, init);
      var x := Contribution(b[|b| - 1]).value;
      assert Contributions(a).value + Contributions(init).value + [x] ==
             Contributions(a).value + (Contributions(init).value + [x]);
    } else {
      assert a + b == a;
      assert Contributions(a).value + Contributions(b).value == Contributions(a).value;
    }
  }

  lemma {:induction false} SumConcat(xs: seq<real>, ys: seq<real>)
    ensures Sum(xs + ys) == Sum(xs) + Sum(ys)
  {
    if ys != [] {
      assert (xs + ys)[..|xs + ys| - 1] == xs + ys[..|ys| - 1];
      SumConcat(xs, ys[..|ys| - 1]);
    } else {
      assert xs + ys == xs;
    }
  }

  /** Without a failing road the total is additive over a split of the list. */
  lemma TotalLengthAdditive(a: seq<RoadEntry>, b: seq<RoadEntry>)
    requires Contributions(a).Some? && Contributions(b).Some?
    ensures TotalLengthOf(a + b) == TotalLengthOf(a) + TotalLengthOf(b)
  {
    ContributionsConcat(a, b);
    SumConcat(Contributions(a).value, Contributions(b).value);
  }

  /** One road whose length cannot be added makes the whole total 0. */
  lemma TotalLengthFails(roads: seq<RoadEntry>, i: nat)
    requires i < |roads| && Contribution(roads[i]).None?
    ensures TotalLengthOf(roads) == 0.0
  {
    var pre := roads[..i + 1];
    assert pre[..|pre| - 1] == roads[..i];
    ContributionsPrefixFails(roads, i + 1);
  }

  /** The inner loop over a lane-format road's lanes. */
  method AddLaneLengths(lanes: seq<LaneEntry>, total0: real) returns (total: real)
    ensures total == total0 + LaneLengths(lanes)
  {
    total := total0;
    var j := 0;
    while j < |lanes|
      invariant 0 <= j <= |lanes|
      invariant total == total0 + LaneLengths(lanes[..j])
    {
      assert lanes[..j + 1][..j] == lanes[..j];
      if lanes[j].leftGeometryLength.Some? {
        total := total + lanes[j].leftGeometryLength.value;
      }
      j := j + 1;
    }
    assert lanes[..j] == lanes;
  }

  /** _calculate_total_length as the loop it is. */
  method CalculateTotalLength(roads: seq<RoadEntry>) returns (total: real)
    ensures total == TotalLengthOf(roads)
  {
    total := 0.0;
    var i := 0;
    while i < |roads|
      invariant 0 <= i <= |roads|
      invariant Contributions(roads[..i]).Some? && total == Sum(Contributions(roads[..i]).value)
    {
      var r := roads[i];
      assert roads[..i + 1][..i] == roads[..i];
      if r.length.Some? {
        var n := NumberOf(r.length.value);
        if n.None? {
          ContributionsPrefixFails(roads, i + 1);
          return 0.0;
        }
        total := total + n.value;
      } else if r.lanes.Some? {
        total := AddLaneLengths(r.lanes.value, total);
      }
      i := i + 1;
    }
    assert roads[..i] == roads;
  }

  // --------------------------------------------------------------- GeoJSON

  /** The features of the roads that have coordinates, in dict order. */
  function ViewerFeatures(lines: CenterLines, c: Point3): seq<Feature>
  {
    if lines == [] then []
    else
      var init := ViewerFeatures(lines[..|lines| - 1], c);
      var last := lines[|lines| - 1];
      if last.1.coordinates == [] then init
      else init + [Feature(last.0, last.1.length, Normalised(last.1.coordinates, c))]
  }

  /**
   * xodr_to_geojson: None for an empty dict or one without coordinates;
   * otherwise one feature per road with coordinates, centred on the
   * bounding box of all of them.
   */
  function XodrToGeoJson(lines: CenterLines): Option<Collection>
  {
    if lines == [] then None
    else
      var all := AllCoordinates(lines);
      if all == [] then None
      else
        var c := Center(all);
        var fs := ViewerFeatures(lines, c);
        Some(Collection(fs, c, BoundsOf(all), |fs|))
  }

  /**
   * Every feature has coordinates, and the features' coordinates joined
   * are all the centre-line coordinates, centred: no road with
   * coordinates is dropped and no coordinate is lost or reordered.
   */
  lemma {:induction false} ViewerFeaturesSpec(lines: CenterLines, c: Point3)
    ensures forall k :: 0 <= k < |ViewerFeatures(lines, c)| ==> ViewerFeatures(lines, c)[k].coordinates != []
    ensures FeatureCoordinates(ViewerFeatures(lines, c)) == Normalised(AllCoordinates(lines), c)
  {
    if lines != [] {
      var init := lines[..|lines| - 1];
      var last := lines[|lines| - 1];
      ViewerFeaturesSpec(init, c);
      NormalisedConcat(AllCoordinates(init), last.1.coordinates, c);
      if last.1.coordinates != [] {
        var fs := ViewerFeatures(lines, c);
        assert fs[..|fs| - 1] == ViewerFeatures(init, c);
      } else {
        assert AllCoordinates(lines) == AllCoordinates(init);
      }
    }
  }

  /** The GeoJSON is None exactly when no road has a coordinate. */
  lemma XodrToGeoJsonNone(lines: CenterLines)
    ensures XodrToGeoJson(lines).None? <==> forall i :: 0 <= i < |lines| ==> lines[i].1.coordinates == []
  {
    AllCoordinatesEmpty(lines);
  }

  /**
   * A built collection counts its features, its features carry every
   * coordinate centred, and the centred extents are symmetric about 0.
   */
  lemma XodrToGeoJsonCentred(lines: CenterLines)
    requires XodrToGeoJson(lines).Some?
    ensures var col := XodrToGeoJson(lines).value;
            var n := FeatureCoordinates(col.features);
            col.featureCount == |col.features| &&
            n == Normalised(AllCoordinates(lines), col.center) &&
            n != [] &&
            ShapefileReading.Lo(XsOf(n)) == -ShapefileReading.Hi(XsOf(n)) &&
            ShapefileReading.Lo(YsOf(n)) == -ShapefileReading.Hi(YsOf(n)) &&
            ShapefileReading.Lo(ZsOf(n)) == -ShapefileReading.Hi(ZsOf(n))
  {
    var all := AllCoordinates(lines);
    ViewerFeaturesSpec(lines, Center(all));
    NormalisedIsSymmetric(all);
  }

  // ------------------------------------------------------------ quality mode

  /**
   * The export's resolution and lane-height flag after its qualityMode:
   * 'high' forces 0.1 with lane height, 'low' 0.5 without, any other mode
   * keeps the requested values.
   */
  function QualitySettings(mode: Value, resolution: Value, laneHeight: Value): (Value, Value)
  {
    if mode == Str("high") then (Real(0.1), Bool(true))
    else if mode == Str("low") then (Real(0.5), Bool(false))
    else (resolution, laneHeight)
  }

  /** The request's values with their defaults (0.2, no lane height, 'medium'), then the quality mode. */
  function ExportSettings(request: Dict<Value>): (Value, Value)
  {
    QualitySettings(GetOr(request, "qualityMode", Str("medium")), GetOr(request, "resolution", Real(0.2)),
                    GetOr(request, "includeLaneHeight", Bool(false)))
  }

  /**
   * The requested values stand exactly when the mode is neither 'high'
   * nor 'low' or already asks for what that mode forces; applying the mode
   * twice changes nothing more; and under 'high' or 'low' the requested
   * values do not matter.
   */
  lemma QualitySettingsSpec(mode: Value, resolution: Value, laneHeight: Value, resolution': Value, laneHeight': Value)
    ensures QualitySettings(mode, resolution, laneHeight) == (resolution, laneHeight) <==>
              (mode != Str("high") || (resolution, laneHeight) == (Real(0.1), Bool(true))) &&
              (mode != Str("low") || (resolution, laneHeight) == (Real(0.5), Bool(false)))
    ensures var s := QualitySettings(mode, resolution, laneHeight);
            QualitySettings(mode, s.0, s.1) == s
    ensures mode == Str("high") || mode == Str("low") ==>
              QualitySettings(mode, resolution, laneHeight) == QualitySettings(mode, resolution', laneHeight')
  {
  }

  /** An export request without settings gets resolution 0.2 and no lane height. */
  lemma ExportSettingsDefaults(request: Dict<Value>)
    requires Get(request, "qualityMode").None? && Get(request, "resolution").None? &&
             Get(request, "includeLaneHeight").None?
    ensures ExportSettings(request) == (Real(0.2), Bool(false))
  {
  }

  // ---------------------------------------------------- coordinate offset

  /** A feature of the shapefile data: its geometry's coordinate list, None when 'geometry' or 'coordinates' is absent. */
  datatype ShpFeature = ShpFeature(coordinates: Option<seq<Node>>)

  /** (float(a), float(b)); None when either raises. */
  function PairOf(a: Node, b: Node): Option<Point>
  {
    match (FloatOf(a), FloatOf(b))
    case (Some(x), Some(y)) => Some(Point(x, y))
    case _ => None
  }

  /** What one entry of a line's coordinate list gives: a list of two or more values its first two, anything else nothing. */
  function VertexPoints(coord: Node): Option<seq<Point>>
  {
    if coord.List? && |coord.items| >= 2 then
      match PairOf(coord.items[0], coord.items[1])
      case None => None
      case Some(p) => Some([p])
    else Some([])
  }

  /** The parts joined, None when one of them is None. */
  function JoinAll<T>(parts: seq<Option<seq<T>>>): Option<seq<T>>
  {
    if parts == [] then Some([])
    else
      match (JoinAll(parts[..|parts| - 1]), parts[|parts| - 1])
      case (Some(xs), Some(ys)) => Some(xs + ys)
      case _ => None
  }

  lemma {:induction false} JoinAllPrefixFails<T>(parts: seq<Option<seq<T>>>, k: nat)
    requires k <= |parts| && JoinAll(parts[..k]).None?
    ensures JoinAll(parts).None?
  {
    if k < |parts| {
      var init := parts[..|parts| - 1];
      assert init[..k] == parts[..k];
      JoinAllPrefixFails(init, k);
    } else {
      assert parts[..k] == parts;
    }
  }

  lemma JoinAllSnoc<T>(parts: seq<Option<seq<T>>>, j: nat)
    requires j < |parts|
    ensures JoinAll(parts[..j + 1]) ==
              match (JoinAll(parts[..j]), parts[j])
              case (Some(xs), Some(ys)) => Some(xs + ys)
              case _ => None
  {
    assert parts[..j + 1][..j] == parts[..j];
  }

  function VertexParts(coords: seq<Node>): (r: seq<Option<seq<Point>>>)
    ensures |r| == |coords| && forall i :: 0 <= i < |coords| ==> r[i] == VertexPoints(coords[i])
  {
    seq(|coords|, i requires 0 <= i < |coords| => VertexPoints(coords[i]))
  }

  /**
   * The points one feature gives: every vertex of a list of lists, the
   * first two values of a flat list of two or more, nothing otherwise;
   * None where float raises.
   */
  function FeaturePoints(f: ShpFeature): Option<seq<Point>>
  {
    if f.coordinates.None? || f.coordinates.value == [] then Some([])
    else
      var coords := f.coordinates.value;
      if coords[0].List? then JoinAll(VertexParts(coords))
      else if |coords| >= 2 then
        match PairOf(coords[0], coords[1])
        case None => None
        case Some(p) => Some([p])
      else Some([])
  }

  function FeatureParts(features: seq<ShpFeature>): (r: seq<Option<seq<Point>>>)
    ensures |r| == |features| && forall i :: 0 <= i < |features| ==> r[i] == FeaturePoints(features[i])
  {
    seq(|features|, i requires 0 <= i < |features| => FeaturePoints(features[i]))
  }

  /** The running minimum after one more point; None stands for the initial infinity. */
  function Lower(lowest: Option<Point>, p: Point): Point
  {
    if lowest.None? then p else Point(Min(lowest.value.x, p.x), Min(lowest.value.y, p.y))
  }

  /** The running minimum after the points. */
  function LowerAll(lowest: Option<Point>, ps: seq<Point>): Option<Point>
  {
    if ps == [] then lowest else Some(Lower(LowerAll(lowest, ps[..|ps| - 1]), ps[|ps| - 1]))
  }

  lemma {:induction false} LowerAllConcat(lowest: Option<Point>, a: seq<Point>, b: seq<Point>)
    ensures LowerAll(lowest, a + b) == LowerAll(LowerAll(lowest, a), b)
  {
    if b != [] {
      assert (a + b)[..|a + b| - 1] == a + b[..|b| - 1];
      LowerAllConcat(lowest, a, b[..|b| - 1]);
    } else {
      assert a + b == a;
    }
  }

  /** Starting from infinity, the running minimum is the smallest x and the smallest y. */
  lemma {:induction false} LowerAllIsLowest(ps: seq<Point>)
    requires ps != []
    ensures LowerAll(None, ps) == Some(Point(ShapefileReading.Lo(ShapefileReading.Xs(ps)),
                                             ShapefileReading.Lo(ShapefileReading.Ys(ps))))
  {
    var init := ps[..|ps| - 1];
    assert ShapefileReading.Xs(ps)[..|ps| - 1] == ShapefileReading.Xs(init);
    assert ShapefileReading.Ys(ps)[..|ps| - 1] == ShapefileReading.Ys(init);
    if init != [] {
      LowerAllIsLowest(init);
    }
  }

  /**
   * The offset of convert_shp_to_obj: the smallest x and the smallest y
   * over every point (possibly of different points), (0, 0) when there is
   * none; None where float raises, which the route turns into an error.
   */
  function CoordinateOffset(features: seq<ShpFeature>): Option<Point>
  {
    match JoinAll(FeatureParts(features))
    case None => None
    case Some(ps) => Some(if ps == [] then Point(0.0, 0.0) else LowerAll(None, ps).value)
  }

  /** The offset is a lower bound of every point's x and y and is attained; without points it is the origin. */
  lemma CoordinateOffsetIsMinimum(features: seq<ShpFeature>)
    requires JoinAll(FeatureParts(features)).Some?
    ensures var ps := JoinAll(FeatureParts(features)).value;
            var o := CoordinateOffset(features).value;
            (ps == [] ==> o == Point(0.0, 0.0)) &&
            (ps != [] ==> (forall i :: 0 <= i < |ps| ==> o.x <= ps[i].x && o.y <= ps[i].y) &&
                          (exists i :: 0 <= i < |ps| && o.x == ps[i].x) &&
                          (exists i :: 0 <= i < |ps| && o.y == ps[i].y))
  {
    var ps := JoinAll(FeatureParts(features)).value;
    if ps != [] {
      LowerAllIsLowest(ps);
      assert forall i :: 0 <= i < |ps| ==> ShapefileReading.Xs(ps)[i] == ps[i].x && ShapefileReading.Ys(ps)[i] == ps[i].y;
      ShapefileReading.LoSpec(ShapefileReading.Xs(ps));
      ShapefileReading.LoSpec(ShapefileReading.Ys(ps));
      var ix :| 0 <= ix < |ps| && ShapefileReading.Xs(ps)[ix] == ShapefileReading.Lo(ShapefileReading.Xs(ps));
      var iy :| 0 <= iy < |ps| && ShapefileReading.Ys(ps)[iy] == ShapefileReading.Lo(ShapefileReading.Ys(ps));
    }
  }

  /** The vertex loop over a list of lists. */
  method AddLine(coords: seq<Node>, lowest: Option<Point>) returns (r: Option<Option<Point>>)
    ensures r == match JoinAll(VertexParts(coords)) case None => None case Some(ps) => Some(LowerAll(lowest, ps))
  {
    var parts := VertexParts(coords);
    var acc := lowest;
    var j := 0;
    while j < |coords|
      invariant 0 <= j <= |coords|
      invariant JoinAll(parts[..j]).Some? && acc == LowerAll(lowest, JoinAll(parts[..j]).value)
    {
      JoinAllSnoc(parts, j);
      var done := JoinAll(parts[..j]).value;
      var c := coords[j];
      if c.List? && |c.items| >= 2 {
        var p := PairOf(c.items[0], c.items[1]);
        if p.None? {
          JoinAllPrefixFails(parts, j + 1);
          return None;
        }
        LowerAllConcat(lowest, done, [p.value]);
        acc := Some(Lower(acc, p.value));
      } else {
        assert done + [] == done;
      }
      j := j + 1;
    }
    assert parts[..j] == parts;
    r := Some(acc);
  }

  /** One feature of the offset loop. */
  method AddFeature(f: ShpFeature, lowest: Option<Point>) returns (r: Option<Option<Point>>)
    ensures r == match FeaturePoints(f) case None => None case Some(ps) => Some(LowerAll(lowest, ps))
  {
    if f.coordinates.None? || f.coordinates.value == [] {
      return Some(lowest);
    }
    var coords := f.coordinates.value;
    if coords[0].List? {
      r := AddLine(coords, lowest);
    } else if |coords| >= 2 {
      var p := PairOf(coords[0], coords[1]);
      if p.None? {
        return None;
      }
      r := Some(Some(Lower(lowest, p.value)));
      assert [p.value][..0] == [];
    } else {
      r := Some(lowest);
    }
  }

  /** The offset computation of convert_shp_to_obj as its loop. */
  method ComputeCoordinateOffset(features: seq<ShpFeature>) returns (offset: Option<Point>)
    ensures offset == CoordinateOffset(features)
  {
    var parts := FeatureParts(features);
    var lowest: Option<Point> := None;
    var i := 0;
    while i < |features|
      invariant 0 <= i <= |features|
      invariant JoinAll(parts[..i]).Some? && lowest == LowerAll(None, JoinAll(parts[..i]).value)
    {
      JoinAllSnoc(parts, i);
      var done := JoinAll(parts[..i]).value;
      var r := AddFeature(features[i], lowest);
      if r.None? {
        JoinAllPrefixFails(parts, i + 1);
        return None;
      }
      LowerAllConcat(None, done, FeaturePoints(features[i]).value);
      lowest := r.value;
      i := i + 1;
    }
    assert parts[..i] == parts;
    if lowest.None? {
      offset := Some(Point(0.0, 0.0));
    } else {
      offset := Some(lowest.value);
    }
  }

  // ----------------------------------------------------- upload guard

  /** Python's truth value of a tuple of this many items: true when it has any. */
  predicate TupleTruthy(size: nat)
  {
    size > 0
  }

  /**
   * The guard of convert_shp_to_obj as written: `not validate_uploaded_files(files)`
   * negates the two-item (ok, message) tuple itself, whatever the verdict.
   */
  function ShpToObjRejectsAsWritten(names: seq<string>): bool
  {
    !TupleTruthy(|[ValidateUploadedFiles(names).Complete?, true]|)
  }

  /** The guard as evidently intended: reject exactly when the validation fails. */
  function ShpToObjRejects(names: seq<string>): bool
  {
    !ValidateUploadedFiles(names).Complete?
  }

  /** An upload of a lone .shp passes the written guard although validation reports the missing .shx. */
  lemma ShpToObjGuardMisses()
    ensures ValidateUploadedFiles(["roads.shp"]) == Missing(".shx")
    ensures !ShpToObjRejectsAsWritten(["roads.shp"])
    ensures ShpToObjRejects(["roads.shp"])
  {
    SplitExtJoin("roads", "shp");
    assert "roads" + "." + "shp" == "roads.shp";
    assert forall i :: 0 <= i < 4 ==> LowerChar(".shp"[i]) == ".shp"[i];
    assert Extension("roads.shp") == ".shp";
    ValidateUploadedFilesSpec(["roads.shp"]);
    assert Extensions(["roads.shp"]) == [".shp"];
  }

  /** The intended guard rejects exactly the uploads lacking one of .shp, .shx and .dbf. */
  lemma ShpToObjRejectsSpec(names: seq<string>)
    ensures ShpToObjRejects(names) <==>
              !Uploaded(names, ".shp") || !Uploaded(names, ".shx") || !Uploaded(names, ".dbf")
  {
    ValidateUploadedFilesSpec(names);
  }
}
