// validate_xodr.py: the structural checks run on a written OpenDRIVE file.
// validate_xodr_file collects errors and warnings about the file, its root,
// its header (ASAM OpenDRIVE 1.7 section 5, the header record) and each of
// its roads, and gathers statistics; the file is valid exactly when no
// error was found. check_opendrive_compliance adds a few looser checks.

module XodrValidation {
  import opened Common
  import opened Dicts
  import opened XmlTree
  import AttributeValues

  /** What the file system and ElementTree give back for a path. */
  datatype SourceFile = Missing | Present(size: nat, doc: Document)

  /** road.get('id', f'road_{i}'): the road's id, or its position when it has none. */
  datatype RoadLabel = RoadId(id: string) | RoadIndex(index: nat)

  /** The messages validate_xodr_file appends, one constructor per message template. */
  datatype Finding =
    | FileMissing
    | FileEmpty
    | XmlError
    | ValidationFailed
    | WrongRoot(tag: string)
    | NoHeader
    | HeaderAttributeMissing(attr: string)
    | HeaderRecommendedMissing(attrs: seq<string>)
    | NoRoads
    | RoadAttributeMissing(road: RoadLabel, attr: string)
    | RoadLengthFormat(road: RoadLabel)
    | NoPlanView(road: RoadLabel)
    | UnknownGeometry(road: RoadLabel)
    | NoLanes(road: RoadLabel)

  datatype ValidationStats = ValidationStats(roadCount: nat, totalLength: real, geometryTypes: Dict<int>, laneCount: nat)

  /** The result dict: valid, errors, warnings, the info entries and the statistics ({} before the roads are read). */
  datatype Report = Report(valid: bool, errors: seq<Finding>, warnings: seq<Finding>,
                           fileSize: Option<nat>, version: Option<string>, header: Option<Dict<string>>,
                           statistics: Option<ValidationStats>)

  const RequiredHeader: seq<string> := ["revMajor", "revMinor", "name"]
  const RecommendedHeader: seq<string> := ["version", "date"]
  const RecognisedGeometry: seq<string> := ["line", "arc", "spiral", "poly3", "paramPoly3"]

  /** attr in element.attrib. */
  predicate HasAttribute(e: Element, name: string)
  {
    Get(e.attributes, name).Some?
  }

  // ----------------------------------------------------------- the header

  /** [attr for attr in names if attr not in e.attrib]. */
  function MissingAttributes(e: Element, names: seq<string>): seq<string>
  {
    if names == [] then []
    else MissingAttributes(e, names[..|names| - 1])
         + (if HasAttribute(e, names[|names| - 1]) then [] else [names[|names| - 1]])
  }

  function MissingFindings(attrs: seq<string>): (r: seq<Finding>)
    ensures |r| == |attrs|
  {
    seq(|attrs|, k requires 0 <= k < |attrs| => HeaderAttributeMissing(attrs[k]))
  }

  /** A missing header, or one error per missing required header attribute. */
  function HeaderErrors(root: Element): seq<Finding>
  {
    match Find(root, "header")
    case None => [NoHeader]
    case Some(h) => MissingFindings(MissingAttributes(h, RequiredHeader))
  }

  /** One warning naming every missing recommended header attribute, if any is missing. */
  function HeaderWarnings(root: Element): seq<Finding>
  {
    match Find(root, "header")
    case None => []
    case Some(h) =>
      var missing := MissingAttributes(h, RecommendedHeader);
      if missing == [] then [] else [HeaderRecommendedMissing(missing)]
  }

  /** info['version']: "revMajor.revMinor", each part "N/A" when absent, and "N/A.N/A" without a header. */
  function VersionOf(root: Element): string
  {
    match Find(root, "header")
    case None => "N/A.N/A"
    case Some(h) => AttributeOr(h, "revMajor", "N/A") + "." + AttributeOr(h, "revMinor", "N/A")
  }

  function HeaderInfo(root: Element): Option<Dict<string>>
  {
    match Find(root, "header")
    case None => None
    case Some(h) => Some(h.attributes)
  }

  // ------------------------------------------------------------ the roads

  function Label(road: Element, i: nat): RoadLabel
  {
    match Attribute(road, "id")
    case Some(id) => RoadId(id)
    case None => RoadIndex(i)
  }

  /** float(road.get('length', 0)): 0 without the attribute, None where float() raises. */
  function RoadLength(road: Element): Option<real>
  {
    match Attribute(road, "length")
    case Some(v) => AttributeValues.ParseFloatString(v)
    case None => Some(0.0)
  }

  /** The tag of the first child that is a line, arc, spiral, poly3 or paramPoly3. */
  function FirstRecognised(children: seq<Element>): Option<string>
  {
    if children == [] then None
    else if children[0].tag in RecognisedGeometry then Some(children[0].tag)
    else FirstRecognised(children[1..])
  }

  /** What the road adds to total_length: its length, or nothing when it does not parse. */
  function LengthOrZero(road: Element): real
  {
    match RoadLength(road)
    case Some(l) => l
    case None => 0.0
  }

  function Geometries(road: Element): seq<Element>
  {
    match Find(road, "planView")
    case None => []
    case Some(pv) => FindAll(pv, "geometry")
  }

  /** The type of each geometry, None where none is recognised. */
  function KindsOf(geometries: seq<Element>): (r: seq<Option<string>>)
    ensures |r| == |geometries|
    ensures forall k :: 0 <= k < |geometries| ==> r[k] == FirstRecognised(geometries[k].children)
  {
    seq(|geometries|, k requires 0 <= k < |geometries| => FirstRecognised(geometries[k].children))
  }

  /** The type of each geometry of the road's plan view. */
  function GeometryKinds(road: Element): seq<Option<string>>
  {
    KindsOf(Geometries(road))
  }

  /** The recognised types, in order. */
  function Known(kinds: seq<Option<string>>): seq<string>
  {
    if kinds == [] then []
    else Known(kinds[..|kinds| - 1]) + (if kinds[|kinds| - 1].Some? then [kinds[|kinds| - 1].value] else [])
  }

  /** One warning per geometry without a recognised type. */
  function UnknownWarnings(roadLabel: RoadLabel, kinds: seq<Option<string>>): seq<Finding>
  {
    if kinds == [] then []
    else UnknownWarnings(roadLabel, kinds[..|kinds| - 1]) + (if kinds[|kinds| - 1].None? then [UnknownGeometry(roadLabel)] else [])
  }

  /** The errors about road i: a missing id, a missing length, a missing planView, in that order. */
  function RoadErrors(i: nat, road: Element): seq<Finding>
  {
    var roadLabel := Label(road, i);
    AttributeErrors(roadLabel, road) + PlanViewErrors(roadLabel, road)
  }

  function AttributeErrors(roadLabel: RoadLabel, road: Element): seq<Finding>
  {
    (if HasAttribute(road, "id") then [] else [RoadAttributeMissing(roadLabel, "id")])
    + (if HasAttribute(road, "length") then [] else [RoadAttributeMissing(roadLabel, "length")])
  }

  function PlanViewErrors(roadLabel: RoadLabel, road: Element): seq<Finding>
  {
    if Find(road, "planView").None? then [NoPlanView(roadLabel)] else []
  }

  /** The warnings about road i: a malformed length, each unknown geometry, missing lanes, in that order. */
  function RoadWarnings(i: nat, road: Element): seq<Finding>
  {
    var roadLabel := Label(road, i);
    LengthWarnings(roadLabel, road) + UnknownWarnings(roadLabel, GeometryKinds(road)) + LanesWarnings(roadLabel, road)
  }

  function LengthWarnings(roadLabel: RoadLabel, road: Element): seq<Finding>
  {
    if RoadLength(road).None? then [RoadLengthFormat(roadLabel)] else []
  }

  function LanesWarnings(roadLabel: RoadLabel, road: Element): seq<Finding>
  {
    if Find(road, "lanes").None? then [NoLanes(roadLabel)] else []
  }

  /** The lanes of one lane section: left, right and center together. */
  function SectionLanes(section: Element): nat
  {
    (match Find(section, "left") case Some(l) => |FindAll(l, "lane")| case None => 0)
    + (match Find(section, "right") case Some(r) => |FindAll(r, "lane")| case None => 0)
    + (match Find(section, "center") case Some(c) => |FindAll(c, "lane")| case None => 0)
  }

  function SectionsLanes(sections: seq<Element>): nat
  {
    if sections == [] then 0 else SectionsLanes(sections[..|sections| - 1]) + SectionLanes(sections[|sections| - 1])
  }

  function RoadLanes(road: Element): nat
  {
    match Find(road, "lanes")
    case None => 0
    case Some(lanes) => SectionsLanes(FindAll(lanes, "laneSection"))
  }

  // Over the roads read so far; road i of the list is labelled with i.

  function RoadsErrors(roads: seq<Element>): seq<Finding>
  {
    if roads == [] then [] else RoadsErrors(roads[..|roads| - 1]) + RoadErrors(|roads| - 1, roads[|roads| - 1])
  }

  function RoadsWarnings(roads: seq<Element>): seq<Finding>
  {
    if roads == [] then [] else RoadsWarnings(roads[..|roads| - 1]) + RoadWarnings(|roads| - 1, roads[|roads| - 1])
  }

  /** The summed lengths of the roads whose length parses. */
  function TotalLength(roads: seq<Element>): real
  {
    if roads == [] then 0.0
    else TotalLength(roads[..|roads| - 1])
         + LengthOrZero(roads[|roads| - 1])
  }

  function RoadsKinds(roads: seq<Element>): seq<string>
  {
    if roads == [] then [] else RoadsKinds(roads[..|roads| - 1]) + Known(GeometryKinds(roads[|roads| - 1]))
  }

  function LaneCount(roads: seq<Element>): nat
  {
    if roads == [] then 0 else LaneCount(roads[..|roads| - 1]) + RoadLanes(roads[|roads| - 1])
  }

  // ------------------------------------------------------- the whole file

  function EarlyExit(error: Finding, size: Option<nat>): Report
  {
    Report(false, [error], [], size, None, None, None)
  }

  /** validate_xodr_file on an OpenDRIVE root. */
  function ValidateRoot(root: Element, size: nat): Report
  {
    var roads := FindAll(root, "road");
    var errors := HeaderErrors(root) + RoadsErrors(roads);
    var warnings := HeaderWarnings(root) + (if roads == [] then [NoRoads] else []) + RoadsWarnings(roads);
    Report(errors == [], errors, warnings, Some(size), Some(VersionOf(root)), HeaderInfo(root),
           Some(ValidationStats(|roads|, TotalLength(roads), Histogram(RoadsKinds(roads)), LaneCount(roads))))
  }

  /**
   * validate_xodr_file: a missing file, an empty file, XML that does not
   * parse, a read failure and a wrong root tag each end the check with one
   * error; otherwise the header and every road are checked.
   */
  function Validate(f: SourceFile): Report
  {
    match f
    case Missing => EarlyExit(FileMissing, None)
    case Present(size, doc) =>
      if size == 0 then EarlyExit(FileEmpty, None)
      else match doc
        case Malformed => EarlyExit(XmlError, Some(size))
        case Unreadable => EarlyExit(ValidationFailed, Some(size))
        case Parsed(root) =>
          if root.tag != "OpenDRIVE" then EarlyExit(WrongRoot(root.tag), Some(size))
          else ValidateRoot(root, size)
  }

  // ----------------------------------------------------------- properties

  /** A file is valid exactly when no error was recorded. */
  lemma ValidIffNoErrors(f: SourceFile)
    ensures Validate(f).valid <==> Validate(f).errors == []
  {
  }

  /**
   * The statistics are left empty exactly when the check stopped early,
   * and then it recorded one error, no warning, and the file is invalid.
   */
  lemma EarlyExits(f: SourceFile)
    ensures Validate(f).statistics.None? <==>
              !(f.Present? && f.size > 0 && f.doc.Parsed? && f.doc.root.tag == "OpenDRIVE")
    ensures Validate(f).statistics.None? ==>
              |Validate(f).errors| == 1 && Validate(f).warnings == [] && !Validate(f).valid
  {
  }

  /** MissingAttributes keeps, in order, exactly the names the element lacks. */
  lemma {:induction false} MissingAttributesSpec(e: Element, names: seq<string>)
    ensures forall a :: a in MissingAttributes(e, names) <==> a in names && !HasAttribute(e, a)
    ensures MissingAttributes(e, names) == [] <==> forall k :: 0 <= k < |names| ==> HasAttribute(e, names[k])
  {
    if names != [] {
      var init := names[..|names| - 1];
      MissingAttributesSpec(e, init);
      assert names == init + [names[|names| - 1]];
    }
  }

  /**
   * Header rules: without a header there is one NoHeader error and the
   * version reads "N/A.N/A"; with one, there is an error for each missing
   * revMajor, revMinor or name, and a single warning when version or date
   * is missing.
   */
  lemma HeaderRules(root: Element, a: string)
    ensures Find(root, "header").None? ==> HeaderErrors(root) == [NoHeader] && VersionOf(root) == "N/A.N/A"
                                            && HeaderWarnings(root) == []
    ensures Find(root, "header").Some? ==>
              (HeaderAttributeMissing(a) in HeaderErrors(root) <==>
                 a in RequiredHeader && !HasAttribute(Find(root, "header").value, a))
              && |HeaderWarnings(root)| <= 1
              && (HeaderWarnings(root) == [] <==>
                    HasAttribute(Find(root, "header").value, "version") && HasAttribute(Find(root, "header").value, "date"))
  {
    match Find(root, "header")
    case None =>
    case Some(h) =>
      MissingAttributesSpec(h, RequiredHeader);
      MissingAttributesSpec(h, RecommendedHeader);
      var m := MissingAttributes(h, RequiredHeader);
      assert HeaderErrors(root) == MissingFindings(m);
      assert HeaderAttributeMissing(a) in MissingFindings(m) <==> a in m by {
        if a in m {
          var k :| 0 <= k < |m| && m[k] == a;
          assert MissingFindings(m)[k] == HeaderAttributeMissing(a);
        }
      }
  }

  /** A road the validator accepts: it has an id, a length and a planView. */
  predicate Complete(road: Element)
  {
    HasAttribute(road, "id") && HasAttribute(road, "length") && Find(road, "planView").Some?
  }

  lemma RoadErrorsEmpty(i: nat, road: Element)
    ensures RoadErrors(i, road) == [] <==> Complete(road)
  {
    assert |RoadErrors(i, road)| == |AttributeErrors(Label(road, i), road)| + |PlanViewErrors(Label(road, i), road)|;
  }

  predicate AllComplete(roads: seq<Element>)
  {
    forall i :: 0 <= i < |roads| ==> Complete(roads[i])
  }

  lemma ErrorsSnoc(roads: seq<Element>)
    requires roads != []
    ensures RoadsErrors(roads) == [] <==>
              RoadsErrors(roads[..|roads| - 1]) == [] && Complete(roads[|roads| - 1])
  {
    RoadErrorsEmpty(|roads| - 1, roads[|roads| - 1]);
    assert |RoadsErrors(roads)| == |RoadsErrors(roads[..|roads| - 1])| + |RoadErrors(|roads| - 1, roads[|roads| - 1])|;
  }

  lemma AllCompleteSnoc(roads: seq<Element>)
    requires roads != []
    ensures AllComplete(roads) <==> AllComplete(roads[..|roads| - 1]) && Complete(roads[|roads| - 1])
  {
    var init := roads[..|roads| - 1];
    assert forall i :: 0 <= i < |init| ==> init[i] == roads[i];
  }

  /** The roads contribute no error exactly when every one of them is complete. */
  lemma {:induction false} RoadsErrorsEmpty(roads: seq<Element>)
    ensures RoadsErrors(roads) == [] <==> AllComplete(roads)
  {
    if roads != [] {
      RoadsErrorsEmpty(roads[..|roads| - 1]);
      ErrorsSnoc(roads);
      AllCompleteSnoc(roads);
    }
  }

  /**
   * An OpenDRIVE file is valid exactly when its header has revMajor,
   * revMinor and name and every road has an id, a length and a planView.
   */
  lemma ValidIff(root: Element, size: nat)
    requires size > 0 && root.tag == "OpenDRIVE"
    ensures Validate(Present(size, Parsed(root))).valid <==>
              Find(root, "header").Some?
              && (forall k :: 0 <= k < |RequiredHeader| ==> HasAttribute(Find(root, "header").value, RequiredHeader[k]))
              && (forall i :: 0 <= i < |FindAll(root, "road")| ==> Complete(FindAll(root, "road")[i]))
  {
    RoadsErrorsEmpty(FindAll(root, "road"));
    if Find(root, "header").Some? {
      MissingAttributesSpec(Find(root, "header").value, RequiredHeader);
    }
  }

  /** Each geometry of a road is either counted under its type or warned about. */
  lemma {:induction false} KnownOrWarned(roadLabel: RoadLabel, kinds: seq<Option<string>>)
    ensures |Known(kinds)| + |UnknownWarnings(roadLabel, kinds)| == |kinds|
  {
    if kinds != [] {
      KnownOrWarned(roadLabel, kinds[..|kinds| - 1]);
    }
  }

  /**
   * The geometry type counts add up to the number of recognised geometries,
   * and each type's count is its number of occurrences.
   */
  lemma GeometryTypeCounts(roads: seq<Element>, t: string)
    ensures TotalCount(Histogram(RoadsKinds(roads))) == |RoadsKinds(roads)|
    ensures GetOr(Histogram(RoadsKinds(roads)), t, 0) == Occurrences(RoadsKinds(roads), t)
  {
    HistogramTotal(RoadsKinds(roads));
    HistogramCounts(RoadsKinds(roads), t);
  }

  // -------------------------------------------------------------- methods

  /** The child loop with its break: the first recognised geometry type. */
  method FindGeometryType(geometry: Element) returns (kind: Option<string>)
    ensures kind == FirstRecognised(geometry.children)
  {
    var j := 0;
    kind := None;
    while j < |geometry.children|
      invariant 0 <= j <= |geometry.children|
      invariant FirstRecognised(geometry.children) == FirstRecognised(geometry.children[j..])
    {
      var child := geometry.children[j];
      if child.tag in RecognisedGeometry {
        kind := Some(child.tag);
        break;
      }
      assert geometry.children[j..][1..] == geometry.children[j + 1..];
      j := j + 1;
    }
  }

  /** The geometry loop of one road: count each recognised type, warn about the others. */
  method CountGeometries(roadLabel: RoadLabel, geometries: seq<Element>, ghost counted: seq<string>,
                         types0: Dict<int>, warnings0: seq<Finding>)
    returns (types: Dict<int>, warnings: seq<Finding>)
    requires types0 == Histogram(counted)
    ensures types == Histogram(counted + Known(KindsOf(geometries)))
    ensures warnings == warnings0 + UnknownWarnings(roadLabel, KindsOf(geometries))
  {
    ghost var kinds := KindsOf(geometries);
    types, warnings := types0, warnings0;
    assert counted + Known(kinds[..0]) == counted;
    for j := 0 to |geometries|
      invariant types == Histogram(counted + Known(kinds[..j]))
      invariant warnings == warnings0 + UnknownWarnings(roadLabel, kinds[..j])
    {
      var kind := FindGeometryType(geometries[j]);
      CountStep(roadLabel, counted, kinds, j, warnings0);
      if kind.Some? {
        types := Put(types, kind.value, GetOr(types, kind.value, 0) + 1);
      } else {
        warnings := warnings + [UnknownGeometry(roadLabel)];
      }
    }
    assert kinds[..|geometries|] == kinds;
  }

  /** The lane-section loop of one road. */
  method CountLanes(sections: seq<Element>, count0: nat) returns (count: nat)
    ensures count == count0 + SectionsLanes(sections)
  {
    count := count0;
    for j := 0 to |sections|
      invariant count == count0 + SectionsLanes(sections[..j])
    {
      assert sections[..j + 1][..j] == sections[..j];
      var left := Find(sections[j], "left");
      var right := Find(sections[j], "right");
      var center := Find(sections[j], "center");
      if left.Some? {
        count := count + |FindAll(left.value, "lane")|;
      }
      if right.Some? {
        count := count + |FindAll(right.value, "lane")|;
      }
      if center.Some? {
        count := count + |FindAll(center.value, "lane")|;
      }
    }
    assert sections[..|sections|] == sections;
  }

  lemma Concat2<T>(a: seq<T>, b: seq<T>, c: seq<T>)
    ensures a + b + c == a + (b + c)
  {
  }

  lemma Concat3<T>(a: seq<T>, b: seq<T>, c: seq<T>, d: seq<T>)
    ensures a + b + c + d == a + (b + c + d)
  {
  }

  /** The id and length attribute checks of one road. */
  method CheckAttributes(roadLabel: RoadLabel, road: Element, errors0: seq<Finding>) returns (errors: seq<Finding>)
    ensures errors == errors0 + AttributeErrors(roadLabel, road)
  {
    errors := errors0;
    if !HasAttribute(road, "id") {
      errors := errors + [RoadAttributeMissing(roadLabel, "id")];
    }
    if !HasAttribute(road, "length") {
      errors := errors + [RoadAttributeMissing(roadLabel, "length")];
    }
  }

  /** The length of one road: summed when it parses, warned about when it does not. */
  method CheckLength(roadLabel: RoadLabel, road: Element, length0: real, warnings0: seq<Finding>)
    returns (length: real, warnings: seq<Finding>)
    ensures length == length0 + LengthOrZero(road)
    ensures warnings == warnings0 + LengthWarnings(roadLabel, road)
  {
    var roadLength := RoadLength(road);
    if roadLength.Some? {
      length, warnings := length0 + roadLength.value, warnings0;
    } else {
      length, warnings := length0, warnings0 + [RoadLengthFormat(roadLabel)];
    }
  }

  /** The plan view of one road: an error when it is missing, else its geometries are counted. */
  method CheckPlanView(roadLabel: RoadLabel, road: Element, ghost counted: seq<string>,
                       errors0: seq<Finding>, types0: Dict<int>, warnings0: seq<Finding>)
    returns (errors: seq<Finding>, types: Dict<int>, warnings: seq<Finding>)
    requires types0 == Histogram(counted)
    ensures errors == errors0 + PlanViewErrors(roadLabel, road)
    ensures types == Histogram(counted + Known(GeometryKinds(road)))
    ensures warnings == warnings0 + UnknownWarnings(roadLabel, GeometryKinds(road))
  {
    var planView := Find(road, "planView");
    if planView.None? {
      assert counted + Known(GeometryKinds(road)) == counted;
      assert warnings0 + UnknownWarnings(roadLabel, GeometryKinds(road)) == warnings0;
      errors, types, warnings := errors0 + [NoPlanView(roadLabel)], types0, warnings0;
    } else {
      errors := errors0;
      types, warnings := CountGeometries(roadLabel, FindAll(planView.value, "geometry"), counted, types0, warnings0);
    }
  }

  /** The lanes of one road: a warning when they are missing, else their lanes are counted. */
  method CheckLanes(roadLabel: RoadLabel, road: Element, warnings0: seq<Finding>, lanes0: nat)
    returns (warnings: seq<Finding>, lanes: nat)
    ensures warnings == warnings0 + LanesWarnings(roadLabel, road)
    ensures lanes == lanes0 + RoadLanes(road)
  {
    var laneElement := Find(road, "lanes");
    if laneElement.None? {
      warnings, lanes := warnings0 + [NoLanes(roadLabel)], lanes0;
    } else {
      warnings := warnings0;
      lanes := CountLanes(FindAll(laneElement.value, "laneSection"), lanes0);
    }
  }

  /** The body of the road loop for road i. */
  method CheckRoad(i: nat, road: Element, ghost counted: seq<string>,
                   errors0: seq<Finding>, warnings0: seq<Finding>, length0: real, types0: Dict<int>, lanes0: nat)
    returns (errors: seq<Finding>, warnings: seq<Finding>, length: real, types: Dict<int>, lanes: nat)
    requires types0 == Histogram(counted)
    ensures errors == errors0 + RoadErrors(i, road)
    ensures warnings == warnings0 + RoadWarnings(i, road)
    ensures length == length0 + LengthOrZero(road)
    ensures types == Histogram(counted + Known(GeometryKinds(road)))
    ensures lanes == lanes0 + RoadLanes(road)
  {
    var roadLabel := Label(road, i);
    var e1 := CheckAttributes(roadLabel, road, errors0);
    var w1, w2;
    length, w1 := CheckLength(roadLabel, road, length0, warnings0);
    errors, types, w2 := CheckPlanView(roadLabel, road, counted, e1, types0, w1);
    warnings, lanes := CheckLanes(roadLabel, road, w2, lanes0);
    Concat2(errors0, AttributeErrors(roadLabel, road), PlanViewErrors(roadLabel, road));
    Concat3(warnings0, LengthWarnings(roadLabel, road), UnknownWarnings(roadLabel, GeometryKinds(road)),
            LanesWarnings(roadLabel, road));
  }

  /** Known and UnknownWarnings over kinds[..j + 1] extend those over kinds[..j] by kinds[j]. */
  lemma KindsStep(roadLabel: RoadLabel, kinds: seq<Option<string>>, j: nat)
    requires j < |kinds|
    ensures Known(kinds[..j + 1]) == Known(kinds[..j]) + (if kinds[j].Some? then [kinds[j].value] else [])
    ensures UnknownWarnings(roadLabel, kinds[..j + 1])
              == UnknownWarnings(roadLabel, kinds[..j]) + (if kinds[j].None? then [UnknownGeometry(roadLabel)] else [])
  {
    assert kinds[..j + 1][..j] == kinds[..j];
  }

  /** One step of the geometry loop, on the histogram and on the warnings. */
  lemma CountStep(roadLabel: RoadLabel, counted: seq<string>, kinds: seq<Option<string>>, j: nat, warnings0: seq<Finding>)
    requires j < |kinds|
    ensures var h := Histogram(counted + Known(kinds[..j]));
            kinds[j].Some? ==> Histogram(counted + Known(kinds[..j + 1])) == Put(h, kinds[j].value, GetOr(h, kinds[j].value, 0) + 1)
    ensures kinds[j].Some? ==> UnknownWarnings(roadLabel, kinds[..j + 1]) == UnknownWarnings(roadLabel, kinds[..j])
    ensures kinds[j].None? ==> Histogram(counted + Known(kinds[..j + 1])) == Histogram(counted + Known(kinds[..j]))
    ensures kinds[j].None? ==> warnings0 + UnknownWarnings(roadLabel, kinds[..j + 1])
                                 == warnings0 + UnknownWarnings(roadLabel, kinds[..j]) + [UnknownGeometry(roadLabel)]
  {
    KindsStep(roadLabel, kinds, j);
    if kinds[j].Some? {
      Concat2(counted, Known(kinds[..j]), [kinds[j].value]);
      HistogramSnoc(counted + Known(kinds[..j]), kinds[j].value);
    } else {
      assert Known(kinds[..j + 1]) == Known(kinds[..j]);
      Concat2(warnings0, UnknownWarnings(roadLabel, kinds[..j]), [UnknownGeometry(roadLabel)]);
    }
  }

  /** Each per-road total over roads[..i + 1] extends the one over roads[..i] by road i. */
  lemma RoadsStep(roads: seq<Element>, i: nat, errors0: seq<Finding>, warnings0: seq<Finding>)
    requires i < |roads|
    ensures errors0 + RoadsErrors(roads[..i + 1]) == errors0 + RoadsErrors(roads[..i]) + RoadErrors(i, roads[i])
    ensures warnings0 + RoadsWarnings(roads[..i + 1]) == warnings0 + RoadsWarnings(roads[..i]) + RoadWarnings(i, roads[i])
    ensures TotalLength(roads[..i + 1])
              == TotalLength(roads[..i]) + LengthOrZero(roads[i])
    ensures RoadsKinds(roads[..i + 1]) == RoadsKinds(roads[..i]) + Known(GeometryKinds(roads[i]))
    ensures LaneCount(roads[..i + 1]) == LaneCount(roads[..i]) + RoadLanes(roads[i])
  {
    assert roads[..i + 1][..i] == roads[..i];
    Concat2(errors0, RoadsErrors(roads[..i]), RoadErrors(i, roads[i]));
    Concat2(warnings0, RoadsWarnings(roads[..i]), RoadWarnings(i, roads[i]));
  }

  /** The running totals of the road loop after the first i roads. */
  predicate Accumulated(roads: seq<Element>, i: nat, errors0: seq<Finding>, warnings0: seq<Finding>,
                        errors: seq<Finding>, warnings: seq<Finding>, totalLength: real, types: Dict<int>, laneCount: nat)
    requires i <= |roads|
  {
    errors == errors0 + RoadsErrors(roads[..i]) && warnings == warnings0 + RoadsWarnings(roads[..i])
    && totalLength == TotalLength(roads[..i]) && types == Histogram(RoadsKinds(roads[..i]))
    && laneCount == LaneCount(roads[..i])
  }

  /** One pass of the road loop. */
  method NextRoad(roads: seq<Element>, i: nat, errors0: seq<Finding>, warnings0: seq<Finding>,
                  errors: seq<Finding>, warnings: seq<Finding>, totalLength: real, types: Dict<int>, laneCount: nat)
    returns (errors': seq<Finding>, warnings': seq<Finding>, totalLength': real, types': Dict<int>, laneCount': nat)
    requires i < |roads|
    requires Accumulated(roads, i, errors0, warnings0, errors, warnings, totalLength, types, laneCount)
    ensures Accumulated(roads, i + 1, errors0, warnings0, errors', warnings', totalLength', types', laneCount')
  {
    RoadsStep(roads, i, errors0, warnings0);
    errors', warnings', totalLength', types', laneCount' :=
      CheckRoad(i, roads[i], RoadsKinds(roads[..i]), errors, warnings, totalLength, types, laneCount);
  }

  /** The road loop of validate_xodr_file, with its running totals. */
  method CheckRoads(roads: seq<Element>, errors0: seq<Finding>, warnings0: seq<Finding>)
    returns (errors: seq<Finding>, warnings: seq<Finding>, stats: ValidationStats)
    ensures errors == errors0 + RoadsErrors(roads) && warnings == warnings0 + RoadsWarnings(roads)
    ensures stats == ValidationStats(|roads|, TotalLength(roads), Histogram(RoadsKinds(roads)), LaneCount(roads))
  {
    errors, warnings := errors0, warnings0;
    var totalLength := 0.0;
    var types: Dict<int> := [];
    var laneCount := 0;
    for i := 0 to |roads|
      invariant Accumulated(roads, i, errors0, warnings0, errors, warnings, totalLength, types, laneCount)
    {
      errors, warnings, totalLength, types, laneCount :=
        NextRoad(roads, i, errors0, warnings0, errors, warnings, totalLength, types, laneCount);
    }
    assert roads[..|roads|] == roads;
    stats := ValidationStats(|roads|, totalLength, types, laneCount);
  }

  /** The header checks of validate_xodr_file. */
  method CheckHeader(root: Element) returns (errors: seq<Finding>, warnings: seq<Finding>, version: string)
    ensures errors == HeaderErrors(root) && warnings == HeaderWarnings(root) && version == VersionOf(root)
  {
    errors, warnings := [], [];
    var header := Find(root, "header");
    if header.None? {
      errors := errors + [NoHeader];
      version := "N/A.N/A";
      return;
    }
    var h := header.value;
    for k := 0 to |RequiredHeader|
      invariant errors == MissingFindings(MissingAttributes(h, RequiredHeader[..k]))
    {
      assert RequiredHeader[..k + 1][..k] == RequiredHeader[..k];
      if !HasAttribute(h, RequiredHeader[k]) {
        errors := errors + [HeaderAttributeMissing(RequiredHeader[k])];
      }
    }
    assert RequiredHeader[..|RequiredHeader|] == RequiredHeader;
    var missing := MissingAttributes(h, RecommendedHeader);
    if missing != [] {
      warnings := warnings + [HeaderRecommendedMissing(missing)];
    }
    version := AttributeOr(h, "revMajor", "N/A") + "." + AttributeOr(h, "revMinor", "N/A");
  }

  /** validate_xodr_file. */
  method ValidateXodrFile(f: SourceFile) returns (result: Report)
    ensures result == Validate(f)
  {
    if f.Missing? {
      return EarlyExit(FileMissing, None);
    }
    if f.size == 0 {
      return EarlyExit(FileEmpty, None);
    }
    if f.doc.Malformed? {
      return EarlyExit(XmlError, Some(f.size));
    }
    if f.doc.Unreadable? {
      return EarlyExit(ValidationFailed, Some(f.size));
    }
    var root := f.doc.root;
    if root.tag != "OpenDRIVE" {
      return EarlyExit(WrongRoot(root.tag), Some(f.size));
    }
    result := CheckDocument(root, f.size);
  }

  /** validate_xodr_file past its early exits: the header, then the roads. */
  method CheckDocument(root: Element, size: nat) returns (result: Report)
    ensures result == ValidateRoot(root, size)
  {
    var errors, warnings, version := CheckHeader(root);
    var roads := FindAll(root, "road");
    ghost var w0 := warnings;
    if roads == [] {
      warnings := warnings + [NoRoads];
    } else {
      assert warnings == w0 + [];
    }
    var stats;
    errors, warnings, stats := CheckRoads(roads, errors, warnings);
    result := Report(errors == [], errors, warnings, Some(size), Some(version), HeaderInfo(root), Some(stats));
  }

  // ----------------------------------------------------------- compliance

  datatype ComplianceIssue = UnsupportedVersion(version: string) | NoGeoReference | NoJunctions

  const SupportedVersions: seq<string> := ["1.4", "1.5", "1.6", "1.7"]

  /** A non-empty attribute value: Python's truth test on root.get(name). */
  predicate Given(e: Element, name: string)
  {
    Attribute(e, name).Some? && Attribute(e, name).value != []
  }

  /**
   * The issues check_opendrive_compliance collects: revMajor and revMinor
   * are read from the root element, not from the header.
   */
  function ComplianceIssues(root: Element): seq<ComplianceIssue>
  {
    var version := AttributeOr(root, "revMajor", "") + "." + AttributeOr(root, "revMinor", "");
    (if Given(root, "revMajor") && Given(root, "revMinor") && version !in SupportedVersions
     then [UnsupportedVersion(version)] else [])
    + (match Find(root, "header")
       case Some(h) => if Find(h, "geoReference").None? then [NoGeoReference] else []
       case None => [])
    + (if |FindAll(root, "road")| > 1 && FindAll(root, "junction") == [] then [NoJunctions] else [])
  }

  /** check_opendrive_compliance: false for a missing or unparsable file, else whether no issue was found. */
  function CheckCompliance(f: SourceFile): bool
  {
    f.Present? && f.doc.Parsed? && ComplianceIssues(f.doc.root) == []
  }

  /**
   * A file passes exactly when it parses, any version given on the root is
   * supported, a header carries a geoReference, and several roads come with
   * at least one junction.
   */
  lemma ComplianceRule(f: SourceFile)
    ensures CheckCompliance(f) <==>
              f.Present? && f.doc.Parsed?
              && (var root := f.doc.root;
                  (Given(root, "revMajor") && Given(root, "revMinor") ==>
                     Attribute(root, "revMajor").value + "." + Attribute(root, "revMinor").value in SupportedVersions)
                  && (Find(root, "header").Some? ==> Find(Find(root, "header").value, "geoReference").Some?)
                  && (|FindAll(root, "road")| > 1 ==> FindAll(root, "junction") != []))
  {
  }
}
