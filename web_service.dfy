// Web3DServer of web_server.py: the upload dict that save_uploaded_files
// fills, the GeoJSON built from the parser's centre lines, the CRS choice
// of the XODR export route, and the roads _create_basic_xodr writes for
// the loaded features. Temporary directories, secure_filename and
// file.save are parameters; the XML text itself is not modelled, only the
// header numbers and the road records it carries.

module WebService {
  import opened Common
  import opened Dicts
  import opened XodrParser
  import opened WebCommon
  import WebViewer
  import ShapefileReading

  // ----------------------------------------------------------------- paths

  /** app.config['UPLOAD_EXTENSIONS']: the file kinds an upload may store. */
  const UploadExtensions: seq<string> := [".shp", ".shx", ".dbf", ".prj", ".cpg", ".sbn", ".sbx", ".xodr"]

  /** os.path.join(dir, name) on POSIX paths: an absolute name wins, otherwise one slash separates them. */
  function Join(dir: string, name: string): string
  {
    if name != [] && name[0] == '/' then name
    else if dir == [] || dir[|dir| - 1] == '/' then dir + name
    else dir + "/" + name
  }

  /** A file save_uploaded_files stores under ext: a non-empty name whose secured form has that allowed extension. */
  predicate KeptAs(name: string, secure: string -> string, ext: string)
  {
    name != "" && Extension(secure(name)) == ext && ext in UploadExtensions
  }

  /** A file save_uploaded_files stores at all. */
  predicate Kept(name: string, secure: string -> string)
  {
    name != "" && Extension(secure(name)) in UploadExtensions
  }

  /** The dict save_uploaded_files builds: each stored extension maps to its file's path, a later file replacing an earlier one. */
  function SavedFiles(dir: string, names: seq<string>, secure: string -> string): Dict<string>
  {
    if names == [] then []
    else
      var saved := SavedFiles(dir, names[..|names| - 1], secure);
      var name := names[|names| - 1];
      if Kept(name, secure) then Put(saved, Extension(secure(name)), Join(dir, secure(name))) else saved
  }

  /** Some stored file fails to save, which makes save_uploaded_files return None. */
  predicate SaveFails(dir: string, names: seq<string>, secure: string -> string, saves: string -> bool)
  {
    exists i :: 0 <= i < |names| && Kept(names[i], secure) && !saves(Join(dir, secure(names[i])))
  }

  /** The dict holds each allowed extension at most once and nothing else. */
  lemma {:induction false} SavedFilesKeys(dir: string, names: seq<string>, secure: string -> string)
    ensures DistinctKeys(SavedFiles(dir, names, secure))
    ensures forall k :: k in Keys(SavedFiles(dir, names, secure)) ==> k in UploadExtensions
  {
    if names != [] {
      var init := names[..|names| - 1];
      var name := names[|names| - 1];
      var saved := SavedFiles(dir, init, secure);
      SavedFilesKeys(dir, init, secure);
      if Kept(name, secure) {
        PutKeys(saved, Extension(secure(name)), Join(dir, secure(name)));
      }
    }
  }

  /** One more name either stores its file under its extension or leaves the dict as it was. */
  lemma SavedFilesSnoc(dir: string, names: seq<string>, secure: string -> string, i: nat)
    requires i < |names|
    ensures SavedFiles(dir, names[..i + 1], secure) ==
              if Kept(names[i], secure) then Put(SavedFiles(dir, names[..i], secure), Extension(secure(names[i])), Join(dir, secure(names[i])))
              else SavedFiles(dir, names[..i], secure)
  {
    assert names[..i + 1][..i] == names[..i];
  }

  /** An extension is present exactly when some stored file has it. */
  lemma {:induction false} SavedFilesPresent(dir: string, names: seq<string>, secure: string -> string, ext: string)
    ensures Get(SavedFiles(dir, names, secure), ext).None? <==> forall i :: 0 <= i < |names| ==> !KeptAs(names[i], secure, ext)
  {
    if names != [] {
      var n := |names|;
      var init := names[..n - 1];
      var name := names[n - 1];
      SavedFilesPresent(dir, init, secure, ext);
      assert forall i :: 0 <= i < n - 1 ==> init[i] == names[i];
      if Kept(name, secure) {
        PutGet(SavedFiles(dir, init, secure), Extension(secure(name)), Join(dir, secure(name)), ext);
      }
    }
  }

  /** A last name not stored under ext leaves ext's entry as it was. */
  lemma SavedFilesOtherExtension(dir: string, names: seq<string>, secure: string -> string, ext: string)
    requires names != [] && !KeptAs(names[|names| - 1], secure, ext)
    ensures Get(SavedFiles(dir, names, secure), ext) == Get(SavedFiles(dir, names[..|names| - 1], secure), ext)
  {
    var name := names[|names| - 1];
    if Kept(name, secure) {
      PutGet(SavedFiles(dir, names[..|names| - 1], secure), Extension(secure(name)), Join(dir, secure(name)), ext);
    }
  }

  /** The last name, when stored, is what its extension maps to. */
  lemma SavedFilesLastStored(dir: string, names: seq<string>, secure: string -> string)
    requires names != [] && Kept(names[|names| - 1], secure)
    ensures Get(SavedFiles(dir, names, secure), Extension(secure(names[|names| - 1])))
         == Some(Join(dir, secure(names[|names| - 1])))
  {
    var name := names[|names| - 1];
    var e := Extension(secure(name));
    PutGet(SavedFiles(dir, names[..|names| - 1], secure), e, Join(dir, secure(name)), e);
  }

  /** Last one wins: a present extension maps to the path of the last stored file with it. */
  lemma {:induction false} SavedFilesLastWins(dir: string, names: seq<string>, secure: string -> string, ext: string, i: nat)
    requires i < |names| && KeptAs(names[i], secure, ext)
    requires forall j :: i < j < |names| ==> !KeptAs(names[j], secure, ext)
    ensures Get(SavedFiles(dir, names, secure), ext) == Some(Join(dir, secure(names[i])))
  {
    var n := |names|;
    var init := names[..n - 1];
    if i < n - 1 {
      assert init[i] == names[i];
      forall j | i < j < n - 1
        ensures !KeptAs(init[j], secure, ext)
      {
        assert init[j] == names[j];
      }
      SavedFilesLastWins(dir, init, secure, ext, i);
      SavedFilesOtherExtension(dir, names, secure, ext);
    } else {
      SavedFilesLastStored(dir, names, secure);
    }
  }

  /** The stored .shp path the method returns is the dict's .shp entry. */
  lemma ShpEntryAfterPut(saved: Dict<string>, ext: string, path: string, shp: Option<string>)
    requires shp == Get(saved, ".shp")
    ensures Get(Put(saved, ext, path), ".shp") == if ext == ".shp" then Some(path) else shp
  {
    PutGet(saved, ext, path, ".shp");
  }

  /** A failing save among the first k names is a failing save. */
  lemma PrefixSaveFails(dir: string, names: seq<string>, secure: string -> string, saves: string -> bool, k: nat)
    requires k <= |names| && SaveFails(dir, names[..k], secure, saves)
    ensures SaveFails(dir, names, secure, saves)
  {
    var i :| 0 <= i < k && Kept(names[..k][i], secure) && !saves(Join(dir, secure(names[..k][i])));
    assert names[..k][i] == names[i];
  }

  /** One more name adds a failing save exactly when it is stored and its save fails. */
  lemma SaveFailsSnoc(dir: string, names: seq<string>, secure: string -> string, saves: string -> bool, i: nat)
    requires i < |names|
    ensures SaveFails(dir, names[..i + 1], secure, saves) <==>
              SaveFails(dir, names[..i], secure, saves) || (Kept(names[i], secure) && !saves(Join(dir, secure(names[i]))))
  {
    var pre := names[..i + 1];
    assert forall k :: 0 <= k < i ==> pre[k] == names[..i][k];
    assert pre[i] == names[i];
  }

  // ---------------------------------------------------------------- GeoJSON

  /** One feature per road, in dict order, coordinates centred. */
  function ServiceFeatures(lines: CenterLines, c: Point3): (fs: seq<Feature>)
    ensures |fs| == |lines|
  {
    seq(|lines|, i requires 0 <= i < |lines| => Feature(lines[i].0, lines[i].1.length, Normalised(lines[i].1.coordinates, c)))
  }

  /**
   * xodr_to_geojson of web_server.py: None when no road has a coordinate;
   * otherwise a feature for every road, even one without coordinates.
   */
  function XodrToGeoJson(lines: CenterLines): Option<Collection>
  {
    var all := AllCoordinates(lines);
    if all == [] then None
    else
      var c := Center(all);
      var fs := ServiceFeatures(lines, c);
      Some(Collection(fs, c, BoundsOf(all), |fs|))
  }

  /** The features' coordinates joined are all the coordinates, centred. */
  lemma {:induction false} ServiceFeaturesCoordinates(lines: CenterLines, c: Point3)
    ensures FeatureCoordinates(ServiceFeatures(lines, c)) == Normalised(AllCoordinates(lines), c)
  {
    if lines != [] {
      var init := lines[..|lines| - 1];
      ServiceFeaturesCoordinates(init, c);
      assert ServiceFeatures(lines, c)[..|lines| - 1] == ServiceFeatures(init, c);
      NormalisedConcat(AllCoordinates(init), lines[|lines| - 1].1.coordinates, c);
    }
  }

  /**
   * None exactly when no road has a coordinate; a built collection has one
   * feature per road carrying that road's id, length and centred
   * coordinates, counts them, and its centred extents are symmetric about 0.
   */
  lemma XodrToGeoJsonSpec(lines: CenterLines)
    ensures XodrToGeoJson(lines).None? <==> forall i :: 0 <= i < |lines| ==> lines[i].1.coordinates == []
    ensures XodrToGeoJson(lines).Some? ==>
              var col := XodrToGeoJson(lines).value;
              var n := FeatureCoordinates(col.features);
              |col.features| == col.featureCount == |lines| &&
              (forall i :: 0 <= i < |lines| ==>
                 col.features[i] == Feature(lines[i].0, lines[i].1.length, Normalised(lines[i].1.coordinates, col.center))) &&
              n == Normalised(AllCoordinates(lines), col.center) &&
              ShapefileReading.Lo(XsOf(n)) == -ShapefileReading.Hi(XsOf(n)) &&
              ShapefileReading.Lo(YsOf(n)) == -ShapefileReading.Hi(YsOf(n)) &&
              ShapefileReading.Lo(ZsOf(n)) == -ShapefileReading.Hi(ZsOf(n))
  {
    AllCoordinatesEmpty(lines);
    var all := AllCoordinates(lines);
    if all != [] {
      ServiceFeaturesCoordinates(lines, Center(all));
      NormalisedIsSymmetric(all);
    }
  }

  /** When every road has coordinates the two servers' GeoJSON features agree. */
  lemma {:induction false} FeaturesAgree(lines: CenterLines, c: Point3)
    requires forall i :: 0 <= i < |lines| ==> lines[i].1.coordinates != []
    ensures WebViewer.ViewerFeatures(lines, c) == ServiceFeatures(lines, c)
  {
    if lines != [] {
      var init := lines[..|lines| - 1];
      FeaturesAgree(init, c);
      assert ServiceFeatures(lines, c) == ServiceFeatures(init, c) + [ServiceFeatures(lines, c)[|lines| - 1]];
    }
  }

  /**
   * The two xodr_to_geojson helpers build the same collection when every
   * road has coordinates; they differ only in whether a road without
   * coordinates gets a feature.
   */
  lemma GeoJsonServersAgree(lines: CenterLines)
    requires forall i :: 0 <= i < |lines| ==> lines[i].1.coordinates != []
    ensures WebViewer.XodrToGeoJson(lines) == XodrToGeoJson(lines)
  {
    AllCoordinatesEmpty(lines);
    var all := AllCoordinates(lines);
    if all != [] {
      FeaturesAgree(lines, Center(all));
    }
  }

  // --------------------------------------------------------------------- CRS

  /** The export route's CRS: the request's crs (default EPSG:4326), replaced by customCRS when crs is 'custom' and customCRS is non-empty. */
  function SelectCrs(request: Dict<Value>): Value
  {
    var crs := GetOr(request, "crs", Str("EPSG:4326"));
    var custom := GetOr(request, "customCRS", Str(""));
    if crs == Str("custom") && Truthy(custom) then custom else crs
  }

  /**
   * The chosen CRS differs from the requested one exactly when the request
   * says 'custom' with a non-empty customCRS other than 'custom'; it is
   * always one of the two; and a request naming no CRS gets EPSG:4326.
   */
  lemma SelectCrsSpec(request: Dict<Value>)
    ensures var crs := GetOr(request, "crs", Str("EPSG:4326"));
            var custom := GetOr(request, "customCRS", Str(""));
            (SelectCrs(request) != crs <==> crs == Str("custom") && Truthy(custom) && custom != Str("custom")) &&
            (SelectCrs(request) == crs || SelectCrs(request) == custom)
    ensures Get(request, "crs").None? ==> SelectCrs(request) == Str("EPSG:4326")
  {
  }

  // ------------------------------------------------------------ basic XODR

  /** A loaded GeoJSON feature as _create_basic_xodr reads it: its coordinate list, [] when 'geometry' or 'coordinates' is absent. */
  datatype ExportFeature = ExportFeature(coordinates: seq<Node>)

  /** One road the basic document holds. */
  datatype BasicRoad = BasicRoad(id: int, length: int, startX: Node, startY: Node, laneIds: seq<int>, laneWidth: Value)

  /** The basic document: the header's revMajor and revMinor, then the roads. */
  datatype BasicDocument = BasicDocument(revMajor: string, revMinor: string, roads: seq<BasicRoad>)

  /** The index of the first c in s, |s| when there is none. */
  function FindChar(s: string, c: char): (k: nat)
    ensures k <= |s| && (k < |s| ==> s[k] == c) && forall i :: 0 <= i < k ==> s[i] != c
  {
    if s == [] then 0 else if s[0] == c then 0 else 1 + FindChar(s[1..], c)
  }

  /** version.split('.')[0] and [1]; None when there is no dot, where [1] raises. */
  function VersionParts(version: string): Option<(string, string)>
  {
    var k := FindChar(version, '.');
    if k == |version| then None
    else
      var rest := version[k + 1..];
      Some((version[..k], rest[..FindChar(rest, '.')]))
  }

  /** The first dot of a + rest, where a has none and rest is empty or starts with one, is at |a|. */
  lemma FindCharAfter(a: string, rest: string)
    requires '.' !in a && (rest == [] || rest[0] == '.')
    ensures FindChar(a + rest, '.') == |a|
  {
    assert forall i :: 0 <= i < |a| ==> (a + rest)[i] == a[i];
    if rest != [] {
      assert (a + rest)[|a|] == rest[0];
    }
  }

  /** The inverse of VersionParts: major, a dot, minor and any further dotted part split back into major and minor. */
  lemma VersionPartsJoin(major: string, minor: string, rest: string)
    requires '.' !in major && '.' !in minor && (rest == [] || rest[0] == '.')
    ensures VersionParts(major + "." + minor + rest) == Some((major, minor))
  {
    var v := major + "." + minor + rest;
    assert v == major + ("." + minor + rest);
    FindCharAfter(major, "." + minor + rest);
    var tail := v[|major| + 1..];
    assert tail == minor + rest;
    FindCharAfter(minor, rest);
    assert v[..|major|] == major;
    assert tail[..|minor|] == minor;
  }

  /** A version without a dot has no minor part. */
  lemma VersionPartsFails(version: string)
    ensures VersionParts(version).None? <==> '.' !in version
  {
  }

  /** coordinates[0][:2] unpacked into two names; None when the slice has fewer than two items or a number is sliced. */
  function StartOf(first: Node): Option<(Node, Node)>
  {
    match first
    case List(items) => if |items| >= 2 then Some((items[0], items[1])) else None
    case Text(s) => if |s| >= 2 then Some((Text([s[0]]), Text([s[1]]))) else None
    case Num(_) => None
  }

  /** The right lanes -1 .. -laneCount of range(1, lane_count + 1). */
  function LaneIds(laneCount: int): (ids: seq<int>)
    ensures |ids| == if laneCount > 0 then laneCount else 0
    ensures forall k :: 0 <= k < |ids| ==> ids[k] == -(k + 1)
  {
    seq(if laneCount > 0 then laneCount else 0, k requires 0 <= k => -(k + 1))
  }

  /** The road of feature i (0-based) with coordinates; None when its start cannot be unpacked. */
  function RoadOf(i: int, coords: seq<Node>, roadWidth: Value, laneCount: int): Option<BasicRoad>
    requires coords != []
  {
    match StartOf(coords[0])
    case None => None
    case Some(st) => Some(BasicRoad(i + 1, |coords| * 10, st.0, st.1, LaneIds(laneCount), roadWidth))
  }

  /** The roads of the features, None when one raises. */
  function BasicRoads(features: seq<ExportFeature>, roadWidth: Value, laneCount: int): Option<seq<BasicRoad>>
  {
    if features == [] then Some([])
    else
      var n := |features|;
      var init := BasicRoads(features[..n - 1], roadWidth, laneCount);
      var coords := features[n - 1].coordinates;
      if init.None? || coords == [] then init
      else match RoadOf(n - 1, coords, roadWidth, laneCount)
        case None => None
        case Some(road) => Some(init.value + [road])
  }

  /**
   * What _create_basic_xodr writes: None when nothing is loaded, the
   * version has no dot, or a feature's start cannot be unpacked.
   */
  function BasicXodr(current: Option<seq<ExportFeature>>, version: string, roadWidth: Value, laneCount: int)
    : Option<BasicDocument>
  {
    if current.None? then None
    else match (VersionParts(version), BasicRoads(current.value, roadWidth, laneCount))
      case (Some(v), Some(roads)) => Some(BasicDocument(v.0, v.1, roads))
      case _ => None
  }

  /** A feature with coordinates whose start cannot be unpacked. */
  predicate BadStart(f: ExportFeature)
  {
    f.coordinates != [] && StartOf(f.coordinates[0]).None?
  }

  /** The roads fail exactly when some feature has a bad start. */
  lemma {:induction false} BasicRoadsFails(features: seq<ExportFeature>, roadWidth: Value, laneCount: int)
    ensures BasicRoads(features, roadWidth, laneCount).None? <==> exists i :: 0 <= i < |features| && BadStart(features[i])
  {
    if features != [] {
      var n := |features|;
      var init := features[..n - 1];
      BasicRoadsFails(init, roadWidth, laneCount);
      assert forall i :: 0 <= i < n - 1 ==> init[i] == features[i];
    }
  }

  /**
   * Road k belongs to feature id - 1, which has coordinates; its length is
   * 10 per coordinate, its right lanes are -1 .. -laneCount and its lane
   * width is roadWidth.
   */
  lemma {:induction false} BasicRoadsShape(features: seq<ExportFeature>, roadWidth: Value, laneCount: int)
    requires BasicRoads(features, roadWidth, laneCount).Some?
    ensures var rs := BasicRoads(features, roadWidth, laneCount).value;
            forall k :: 0 <= k < |rs| ==>
              1 <= rs[k].id <= |features| && features[rs[k].id - 1].coordinates != [] &&
              rs[k].length == 10 * |features[rs[k].id - 1].coordinates| &&
              rs[k].laneIds == LaneIds(laneCount) && rs[k].laneWidth == roadWidth
  {
    if features != [] {
      var n := |features|;
      var init := features[..n - 1];
      var r := BasicRoads(init, roadWidth, laneCount);
      BasicRoadsShape(init, roadWidth, laneCount);
      var rs := BasicRoads(features, roadWidth, laneCount).value;
      forall k | 0 <= k < |r.value|
        ensures features[r.value[k].id - 1] == init[r.value[k].id - 1]
      {
      }
      if rs != r.value {
        assert rs[..|rs| - 1] == r.value;
        assert rs[|rs| - 1].id == n;
      }
    }
  }

  /** The road ids increase and stay within 1 .. the feature count. */
  lemma {:induction false} BasicRoadsIncrease(features: seq<ExportFeature>, roadWidth: Value, laneCount: int)
    requires BasicRoads(features, roadWidth, laneCount).Some?
    ensures var rs := BasicRoads(features, roadWidth, laneCount).value;
            (forall k :: 0 <= k < |rs| ==> 1 <= rs[k].id <= |features|) &&
            (forall k, l :: 0 <= k < l < |rs| ==> rs[k].id < rs[l].id)
  {
    if features != [] {
      var n := |features|;
      var init := features[..n - 1];
      var r := BasicRoads(init, roadWidth, laneCount);
      BasicRoadsIncrease(init, roadWidth, laneCount);
      var rs := BasicRoads(features, roadWidth, laneCount).value;
      if rs != r.value {
        assert rs[..|rs| - 1] == r.value;
        assert rs[|rs| - 1].id == n;
      }
    }
  }

  /** A failure among the first k features is a failure of all of them. */
  lemma {:induction false} BasicRoadsPrefixFails(features: seq<ExportFeature>, roadWidth: Value, laneCount: int, k: nat)
    requires k <= |features| && BasicRoads(features[..k], roadWidth, laneCount).None?
    ensures BasicRoads(features, roadWidth, laneCount).None?
  {
    if k < |features| {
      var init := features[..|features| - 1];
      assert init[..k] == features[..k];
      BasicRoadsPrefixFails(init, roadWidth, laneCount, k);
    } else {
      assert features[..k] == features;
    }
  }

  /** Every feature with coordinates has its road. */
  lemma {:induction false} BasicRoadsCover(features: seq<ExportFeature>, roadWidth: Value, laneCount: int, i: nat)
    requires BasicRoads(features, roadWidth, laneCount).Some?
    requires i < |features| && features[i].coordinates != []
    ensures var rs := BasicRoads(features, roadWidth, laneCount).value;
            exists k :: 0 <= k < |rs| && rs[k].id == i + 1
  {
    var n := |features|;
    var init := features[..n - 1];
    var r := BasicRoads(init, roadWidth, laneCount);
    var rs := BasicRoads(features, roadWidth, laneCount).value;
    if i == n - 1 {
      assert rs[|rs| - 1].id == i + 1;
    } else {
      assert init[i] == features[i];
      BasicRoadsCover(init, roadWidth, laneCount, i);
      var k :| 0 <= k < |r.value| && r.value[k].id == i + 1;
      assert rs[k] == r.value[k];
    }
  }

  /** The document fails exactly when nothing is loaded, the version has no dot or some feature has a bad start. */
  lemma BasicXodrFails(current: Option<seq<ExportFeature>>, version: string, roadWidth: Value, laneCount: int)
    ensures BasicXodr(current, version, roadWidth, laneCount).None? <==>
              current.None? || '.' !in version || exists i :: 0 <= i < |current.value| && BadStart(current.value[i])
  {
    if current.Some? {
      BasicRoadsFails(current.value, roadWidth, laneCount);
    }
  }

  /**
   * The loop of save_uploaded_files: the dict it fills and the last stored
   * .shp path, or None when a save fails.
   */
  method StoreFiles(uploadDir: string, names: seq<string>, secure: string -> string, saves: string -> bool)
    returns (r: Option<(Dict<string>, Option<string>)>)
    ensures r.None? <==> SaveFails(uploadDir, names, secure, saves)
    ensures r.Some? ==> r.value.0 == SavedFiles(uploadDir, names, secure) && r.value.1 == Get(r.value.0, ".shp")
  {
    var saved: Dict<string> := [];
    var shp: Option<string> := None;
    var i := 0;
    while i < |names|
      invariant 0 <= i <= |names|
      invariant saved == SavedFiles(uploadDir, names[..i], secure)
      invariant shp == Get(saved, ".shp")
      invariant !SaveFails(uploadDir, names[..i], secure, saves)
    {
      SavedFilesSnoc(uploadDir, names, secure, i);
      SaveFailsSnoc(uploadDir, names, secure, saves, i);
      var name := names[i];
      if name != "" {
        var safe := secure(name);
        var ext := Extension(safe);
        if ext in UploadExtensions {
          var path := Join(uploadDir, safe);
          if !saves(path) {
            PrefixSaveFails(uploadDir, names, secure, saves, i + 1);
            return None;
          }
          ShpEntryAfterPut(saved, ext, path, shp);
          saved := Put(saved, ext, path);
          if ext == ".shp" {
            shp := Some(path);
          }
        }
      }
      i := i + 1;
    }
    assert names[..i] == names;
    r := Some((saved, shp));
  }

  // ----------------------------------------------------------------- server

  class Web3DServer {
    /** uploaded_files: extension to stored path. */
    var uploadedFiles: Dict<string>
    /** The features of current_data; None while nothing is loaded. */
    var currentFeatures: Option<seq<ExportFeature>>

    constructor()
      ensures uploadedFiles == [] && currentFeatures == None
    {
      uploadedFiles := [];
      currentFeatures := None;
    }

    /**
     * save_uploaded_files into the fresh directory uploadDir: secure is
     * secure_filename and saves says whether file.save succeeds on a path.
     * On success the dict is replaced and the last stored .shp path is
     * returned with the directory; a failing save returns None and leaves
     * the dict alone.
     */
    method SaveUploadedFiles(uploadDir: string, names: seq<string>, secure: string -> string, saves: string -> bool)
      returns (r: Option<(Option<string>, string)>)
      modifies this
      ensures r.None? <==> SaveFails(uploadDir, names, secure, saves)
      ensures r.Some? ==> uploadedFiles == SavedFiles(uploadDir, names, secure) &&
                          r.value == (Get(uploadedFiles, ".shp"), uploadDir)
      ensures r.None? ==> uploadedFiles == old(uploadedFiles)
      ensures currentFeatures == old(currentFeatures)
    {
      var stored := StoreFiles(uploadDir, names, secure, saves);
      if stored.None? {
        return None;
      }
      uploadedFiles := stored.value.0;
      r := Some((stored.value.1, uploadDir));
    }

    /** The right lanes one road receives, as the inner loop appends them. */
    static method RightLaneIds(laneCount: int) returns (ids: seq<int>)
      ensures ids == LaneIds(laneCount)
    {
      ids := [];
      var laneId := 1;
      while laneId < laneCount + 1
        invariant 1 <= laneId <= (if laneCount > 0 then laneCount + 1 else 1)
        invariant ids == LaneIds(laneId - 1)
      {
        assert LaneIds(laneId) == LaneIds(laneId - 1) + [-laneId];
        ids := ids + [-laneId];
        laneId := laneId + 1;
      }
      assert |LaneIds(laneId - 1)| == |LaneIds(laneCount)|;
    }

    /**
     * _create_basic_xodr: writes when the output can be written; the
     * returned flag says whether it did.
     */
    method CreateBasicXodr(version: string, roadWidth: Value, laneCount: int, writes: bool)
      returns (ok: bool, written: Option<BasicDocument>)
      ensures written == (if writes then BasicXodr(currentFeatures, version, roadWidth, laneCount) else None)
      ensures ok <==> written.Some?
    {
      if currentFeatures.None? {
        return false, None;
      }
      var features := currentFeatures.value;
      var parts := VersionParts(version);
      if parts.None? {
        return false, None;
      }
      var roads: seq<BasicRoad> := [];
      var i := 0;
      while i < |features|
        invariant 0 <= i <= |features|
        invariant BasicRoads(features[..i], roadWidth, laneCount) == Some(roads)
      {
        var pre := features[..i + 1];
        assert pre[..i] == features[..i];
        var coords := features[i].coordinates;
        if coords != [] {
          var start := StartOf(coords[0]);
          if start.None? {
            assert BadStart(pre[i]);
            assert BasicRoads(pre, roadWidth, laneCount).None?;
            BasicRoadsPrefixFails(features, roadWidth, laneCount, i + 1);
            return false, None;
          }
          var lanes := RightLaneIds(laneCount);
          roads := roads + [BasicRoad(i + 1, |coords| * 10, start.value.0, start.value.1, lanes, roadWidth)];
        }
        i := i + 1;
      }
      assert features[..i] == features;
      if !writes {
        return false, None;
      }
      return true, Some(BasicDocument(parts.value.0, parts.value.1, roads));
    }
  }
}
