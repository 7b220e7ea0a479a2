// What the two Flask servers (web/web_server.py and web_server.py) share:
// posixpath.splitext on uploaded file names, the validate_uploaded_files
// check both define word for word, the JSON values a feature's coordinate
// list holds, and the centring both xodr_to_geojson helpers apply to the
// centre lines that XODRParser.get_road_center_lines returns.

module WebCommon {
  import opened Common
  import opened AttributeValues
  import opened XodrParser
  import ShapefileReading

  // ------------------------------------------------------------ file names

  /** The index of the last c in s, -1 when there is none. */
  function RFind(s: string, c: char): (k: int)
    ensures -1 <= k < |s|
    ensures k >= 0 ==> s[k] == c
    ensures forall i :: k < i < |s| ==> s[i] != c
  {
    if s == [] then -1
    else if s[|s| - 1] == c then |s| - 1
    else
      var k := RFind(s[..|s| - 1], c);
      assert forall i :: k < i < |s| - 1 ==> s[..|s| - 1][i] == s[i];
      k
  }

  /** Some character of s at an index in [lo, hi) is not a dot. */
  predicate HasNonDot(s: string, lo: int, hi: int)
  {
    exists i :: lo <= i < hi && 0 <= i < |s| && s[i] != '.'
  }

  /**
   * posixpath.splitext: the extension runs from the last dot of the last
   * path component, unless only dots precede that dot in the component
   * (".shp" has no extension).
   */
  function SplitExt(p: string): (string, string)
  {
    var sep := RFind(p, '/');
    var dot := RFind(p, '.');
    if dot > sep && HasNonDot(p, sep + 1, dot) then (p[..dot], p[dot..]) else (p, "")
  }

  /** The two parts give back the name, and an extension is a dot followed by neither a dot nor a slash. */
  lemma SplitExtParts(p: string)
    ensures SplitExt(p).0 + SplitExt(p).1 == p
    ensures var e := SplitExt(p).1;
            e == [] || (e[0] == '.' && forall i :: 1 <= i < |e| ==> e[i] != '.' && e[i] != '/')
  {
    var sep := RFind(p, '/');
    var dot := RFind(p, '.');
    if dot > sep && HasNonDot(p, sep + 1, dot) {
      assert p[..dot] + p[dot..] == p;
    }
  }

  /** Appending text without c leaves the last c where it was. */
  lemma {:induction false} RFindAppend(s: string, t: string, c: char)
    requires c !in t
    ensures RFind(s + t, c) == RFind(s, c)
  {
    if t != [] {
      var u := s + t;
      assert u[..|u| - 1] == s + t[..|t| - 1];
      assert u[|u| - 1] == t[|t| - 1];
      RFindAppend(s, t[..|t| - 1], c);
    } else {
      assert s + t == s;
    }
  }

  /**
   * The inverse of SplitExt: a base whose last character is neither a dot
   * nor a slash, a dot and a tail with neither, split back into base and
   * "." + tail.
   */
  lemma SplitExtJoin(base: string, tail: string)
    requires base != [] && base[|base| - 1] != '.' && base[|base| - 1] != '/'
    requires '.' !in tail && '/' !in tail
    ensures SplitExt(base + "." + tail) == (base, "." + tail)
  {
    var p := base + "." + tail;
    var q := base + ".";
    assert p == q + tail;
    RFindAppend(q, tail, '.');
    RFindAppend(q, tail, '/');
    RFindAppend(base, ".", '/');
    assert q[..|q| - 1] == base;
    var sep := RFind(p, '/');
    var dot := RFind(p, '.');
    assert dot == |base|;
    assert sep < |base| - 1;
    assert p[|base| - 1] == base[|base| - 1];
    assert HasNonDot(p, sep + 1, dot);
    assert p[..dot] == base;
    assert p[dot..] == "." + tail;
  }

  /** A name that is only a dot and a suffix, such as ".shp", has no extension. */
  lemma HiddenNameHasNoExtension(tail: string)
    requires '.' !in tail && '/' !in tail
    ensures SplitExt("." + tail) == ("." + tail, "")
  {
    var p := "." + tail;
    RFindAppend(".", tail, '.');
    RFindAppend(".", tail, '/');
    assert RFind(p, '.') == 0;
    assert RFind(p, '/') == -1;
    assert !HasNonDot(p, 0, 0);
  }

  /** os.path.splitext(name)[1].lower(). */
  function Extension(name: string): string
  {
    Lower(SplitExt(name).1)
  }

  // ----------------------------------------------------------- upload check

  /** The shapefile parts an upload must contain, in the order they are checked. */
  const RequiredExtensions: seq<string> := [".shp", ".shx", ".dbf"]

  /** validate_uploaded_files' verdict; Missing names the extension its message reports. */
  datatype UploadCheck = Complete | Missing(ext: string)

  /** The lowercased extension of each uploaded name. */
  function Extensions(names: seq<string>): (exts: seq<string>)
    ensures |exts| == |names| && forall i :: 0 <= i < |names| ==> exts[i] == Extension(names[i])
  {
    seq(|names|, i requires 0 <= i < |names| => Extension(names[i]))
  }

  /** The first required extension absent from present. */
  function FirstMissing(required: seq<string>, present: seq<string>): UploadCheck
  {
    if required == [] then Complete
    else if required[0] !in present then Missing(required[0])
    else FirstMissing(required[1..], present)
  }

  /** validate_uploaded_files on the uploaded file names. */
  function ValidateUploadedFiles(names: seq<string>): UploadCheck
  {
    FirstMissing(RequiredExtensions, Extensions(names))
  }

  /** Complete exactly when every required extension is present; otherwise the first absent one is reported. */
  lemma {:induction false} FirstMissingSpec(required: seq<string>, present: seq<string>)
    ensures FirstMissing(required, present).Complete? <==> forall e :: e in required ==> e in present
    ensures FirstMissing(required, present).Missing? ==>
              exists k :: 0 <= k < |required| && required[k] == FirstMissing(required, present).ext &&
                          required[k] !in present && forall j :: 0 <= j < k ==> required[j] in present
  {
    if required != [] && required[0] in present {
      var r := FirstMissing(required[1..], present);
      FirstMissingSpec(required[1..], present);
      assert forall e :: e in required ==> e == required[0] || e in required[1..];
      if r.Missing? {
        var k :| 0 <= k < |required[1..]| && required[1..][k] == r.ext &&
                 required[1..][k] !in present && forall j :: 0 <= j < k ==> required[1..][j] in present;
        assert required[k + 1] == r.ext;
        assert forall j :: 0 <= j < k + 1 ==> required[j] in present by {
          forall j | 0 <= j < k + 1 ensures required[j] in present {
            if j > 0 {
              assert required[j] == required[1..][j - 1];
            }
          }
        }
      }
    }
  }

  /** Some uploaded name has this lowercased extension. */
  predicate Uploaded(names: seq<string>, ext: string)
  {
    exists i :: 0 <= i < |names| && Extension(names[i]) == ext
  }

  /**
   * The upload passes exactly when .shp, .shx and .dbf each appear (compared
   * after lowercasing); a failing upload names the first of them, in that
   * order, that is absent.
   */
  lemma ValidateUploadedFilesSpec(names: seq<string>)
    ensures ValidateUploadedFiles(names).Complete? <==>
              Uploaded(names, ".shp") && Uploaded(names, ".shx") && Uploaded(names, ".dbf")
    ensures ValidateUploadedFiles(names) == Missing(".shp") <==> !Uploaded(names, ".shp")
    ensures ValidateUploadedFiles(names) == Missing(".shx") <==> Uploaded(names, ".shp") && !Uploaded(names, ".shx")
    ensures ValidateUploadedFiles(names) == Missing(".dbf") <==>
              Uploaded(names, ".shp") && Uploaded(names, ".shx") && !Uploaded(names, ".dbf")
  {
    var exts := Extensions(names);
    FirstMissingSpec(RequiredExtensions, exts);
    forall e ensures e in exts <==> Uploaded(names, e) {
      if e in exts {
        var i :| 0 <= i < |exts| && exts[i] == e;
      }
    }
  }

  // ------------------------------------------------------ JSON coordinates

  /** A JSON value inside a feature's coordinate list: a number, a string or a list. */
  datatype Node = Num(n: real) | Text(s: string) | List(items: seq<Node>)

  /** float(v); None where float raises (a list, or a string float rejects). */
  function FloatOf(v: Node): Option<real>
  {
    match v
    case Num(n) => Some(n)
    case Text(s) => ParseFloatString(s)
    case List(_) => None
  }

  // ----------------------------------------------- centring for GeoJSON

  /** A GeoJSON feature: the road id, the road length and its centred coordinates. */
  datatype Feature = Feature(id: Option<string>, length: real, coordinates: seq<Point3>)

  /**
   * The FeatureCollection with its metadata: the centre, the bounds and
   * feature_count. The coordinates from get_road_center_lines always carry
   * z, so the centre has three entries and the bounds include z.
   */
  datatype Collection = Collection(features: seq<Feature>, center: Point3, bounds: Bounds3, featureCount: int)

  /** The coordinates of the features, joined in order. */
  function FeatureCoordinates(fs: seq<Feature>): seq<Point3>
  {
    if fs == [] then [] else FeatureCoordinates(fs[..|fs| - 1]) + fs[|fs| - 1].coordinates
  }

  /** Every coordinate of the centre lines, road by road. */
  function AllCoordinates(lines: CenterLines): seq<Point3>
  {
    if lines == [] then [] else AllCoordinates(lines[..|lines| - 1]) + lines[|lines| - 1].1.coordinates
  }

  /** No road of the dict has a coordinate exactly when the joined list is empty. */
  lemma {:induction false} AllCoordinatesEmpty(lines: CenterLines)
    ensures AllCoordinates(lines) == [] <==> forall i :: 0 <= i < |lines| ==> lines[i].1.coordinates == []
  {
    if lines != [] {
      var init := lines[..|lines| - 1];
      AllCoordinatesEmpty(init);
      assert forall i :: 0 <= i < |init| ==> init[i] == lines[i];
    }
  }

  function XsOf(pts: seq<Point3>): (xs: seq<real>)
    ensures |xs| == |pts| && forall i :: 0 <= i < |pts| ==> xs[i] == pts[i].x
  {
    seq(|pts|, i requires 0 <= i < |pts| => pts[i].x)
  }

  function YsOf(pts: seq<Point3>): (ys: seq<real>)
    ensures |ys| == |pts| && forall i :: 0 <= i < |pts| ==> ys[i] == pts[i].y
  {
    seq(|pts|, i requires 0 <= i < |pts| => pts[i].y)
  }

  function ZsOf(pts: seq<Point3>): (zs: seq<real>)
    ensures |zs| == |pts| && forall i :: 0 <= i < |pts| ==> zs[i] == pts[i].z
  {
    seq(|pts|, i requires 0 <= i < |pts| => pts[i].z)
  }

  /** The midpoint of a coordinate's smallest and largest value. */
  function MidRange(xs: seq<real>): real
    requires xs != []
  {
    (ShapefileReading.Lo(xs) + ShapefileReading.Hi(xs)) / 2.0
  }

  /** The bounding-box centre of the coordinates. */
  function Center(pts: seq<Point3>): Point3
    requires pts != []
  {
    Point3(MidRange(XsOf(pts)), MidRange(YsOf(pts)), MidRange(ZsOf(pts)))
  }

  /** The metadata bounds: smallest and largest x, y and z. */
  datatype Bounds3 = Bounds3(minX: real, maxX: real, minY: real, maxY: real, minZ: real, maxZ: real)

  function BoundsOf(pts: seq<Point3>): Bounds3
    requires pts != []
  {
    Bounds3(ShapefileReading.Lo(XsOf(pts)), ShapefileReading.Hi(XsOf(pts)),
            ShapefileReading.Lo(YsOf(pts)), ShapefileReading.Hi(YsOf(pts)),
            ShapefileReading.Lo(ZsOf(pts)), ShapefileReading.Hi(ZsOf(pts)))
  }

  /** Each coordinate minus the centre. */
  function Normalised(pts: seq<Point3>, c: Point3): (r: seq<Point3>)
    ensures |r| == |pts| && forall i :: 0 <= i < |pts| ==> r[i] == Point3(pts[i].x - c.x, pts[i].y - c.y, pts[i].z - c.z)
  {
    seq(|pts|, i requires 0 <= i < |pts| => Point3(pts[i].x - c.x, pts[i].y - c.y, pts[i].z - c.z))
  }

  lemma NormalisedConcat(a: seq<Point3>, b: seq<Point3>, c: Point3)
    ensures Normalised(a + b, c) == Normalised(a, c) + Normalised(b, c)
  {
  }

  /** Every value minus c. */
  function Minus(xs: seq<real>, c: real): (r: seq<real>)
    ensures |r| == |xs| && forall i :: 0 <= i < |xs| ==> r[i] == xs[i] - c
  {
    seq(|xs|, i requires 0 <= i < |xs| => xs[i] - c)
  }

  /** Shifting every value shifts the smallest and the largest by the same amount. */
  lemma {:induction false} MinusBounds(xs: seq<real>, c: real)
    requires xs != []
    ensures ShapefileReading.Lo(Minus(xs, c)) == ShapefileReading.Lo(xs) - c
    ensures ShapefileReading.Hi(Minus(xs, c)) == ShapefileReading.Hi(xs) - c
  {
    if |xs| > 1 {
      var init := xs[..|xs| - 1];
      MinusBounds(init, c);
      assert Minus(xs, c)[..|xs| - 1] == Minus(init, c);
    }
  }

  /** Values minus their mid-range reach as far below 0 as above it. */
  lemma CentredIsSymmetric(xs: seq<real>)
    requires xs != []
    ensures ShapefileReading.Lo(Minus(xs, MidRange(xs))) == -ShapefileReading.Hi(Minus(xs, MidRange(xs)))
  {
    MinusBounds(xs, MidRange(xs));
  }

  /**
   * The normalised coordinates of a non-empty list have x, y and z
   * extents symmetric about 0.
   */
  lemma NormalisedIsSymmetric(pts: seq<Point3>)
    requires pts != []
    ensures var n := Normalised(pts, Center(pts));
            ShapefileReading.Lo(XsOf(n)) == -ShapefileReading.Hi(XsOf(n)) &&
            ShapefileReading.Lo(YsOf(n)) == -ShapefileReading.Hi(YsOf(n)) &&
            ShapefileReading.Lo(ZsOf(n)) == -ShapefileReading.Hi(ZsOf(n))
  {
    var c := Center(pts);
    var n := Normalised(pts, c);
    assert XsOf(n) == Minus(XsOf(pts), c.x);
    assert YsOf(n) == Minus(YsOf(pts), c.y);
    assert ZsOf(n) == Minus(ZsOf(pts), c.z);
    CentredIsSymmetric(XsOf(pts));
    CentredIsSymmetric(YsOf(pts));
    CentredIsSymmetric(ZsOf(pts));
  }
}
