// OpenDriveGenerator (src/opendrive_generator.py): the road-id counter and
// road list, the choice of a road's reference line among its lane
// surfaces, the width rules that turn a surface's width profile into lane
// width records, and the validation of the assembled road set.
//
// The scenariogeneration `xodr` objects are not modelled: a Road value
// stands for xodr.Road, and whether the xodr constructors and add_road
// accept it is the parameter `accepts`.

module RoadAssembly {
  import opened Common
  import opened Seqs
  import opened Dicts
  import opened PlanView
  import opened WidthPolynomials
  import opened ShapefileReading
  import opened LaneShapefile

  /** The header revision the generator sets (ASAM OpenDRIVE 1.7). */
  const RevMajor: int := 1
  const RevMinor: int := 7

  const DefaultLaneWidth: real := 3.5
  /** Widths at or below this are treated as zero. */
  const ZeroWidth: real := 0.001
  /** _filter_significant_width_changes' change_threshold. */
  const ChangeThreshold: real := 0.05
  /** A variable-width lane gets at most this many width records. */
  const MaxWidthEntries: int := 8
  /** validate_opendrive counts every road with a plan view as this long. */
  const AssumedRoadLength: real := 100.0

  const NoRoadsError: string := "no road data"

  /** lane.add_lane_width(a, b, c, d, soffset). */
  datatype WidthEntry = WidthEntry(sOffset: real, a: real, b: real, c: real, d: real)

  function Constant(s: real, w: real): WidthEntry
  {
    WidthEntry(s, w, 0.0, 0.0, 0.0)
  }

  /** A driving lane: its width records (its solid white road mark is not modelled). */
  datatype Lane = Lane(widths: seq<WidthEntry>)

  /** The one lane section a road gets, starting at s = 0. */
  datatype LaneSection = LaneSection(right: seq<Lane>, left: seq<Lane>)

  datatype Road = Road(id: int, planView: seq<Segment>, lanes: LaneSection)

  /** A width_profile entry; poly is its 'polynomial' key when present. */
  datatype WidthSample = WidthSample(s: real, width: real, poly: Option<Poly>)

  /** A lane surface as the generator reads it; an absent key is None. */
  datatype Surface = Surface(
    surfaceId: Option<string>,
    left: Option<BoundaryRef>,
    right: Option<BoundaryRef>,
    centerLine: Option<seq<Point>>,
    widthProfile: seq<WidthSample>)

  // ------------------------------------------------------- reference line

  /** A boundary that is present and carries index '0'. */
  predicate IsZero(b: Option<BoundaryRef>)
  {
    b.Some? && b.value.index == "0"
  }

  predicate HasZero(s: Surface)
  {
    IsZero(s.left) || IsZero(s.right)
  }

  /** The boundary the scan stops at on a surface: the left one when it qualifies. */
  function ZeroCoordinates(s: Surface): seq<Point>
    requires HasZero(s)
  {
    if IsZero(s.left) then s.left.value.coordinates else s.right.value.coordinates
  }

  /** The coordinates of the first boundary with index '0', scanning the surfaces in order. */
  function FirstZeroBoundary(surfaces: seq<Surface>): Option<seq<Point>>
  {
    if surfaces == [] then None
    else if HasZero(surfaces[0]) then Some(ZeroCoordinates(surfaces[0]))
    else FirstZeroBoundary(surfaces[1..])
  }

  /** _calculate_center_line_coords as a value: [] when a side is empty, else paired midpoints. */
  function CenterLineCoords(left: seq<Point>, right: seq<Point>): seq<Point>
  {
    if left == [] || right == [] then []
    else seq(MinInt(|left|, |right|), i requires 0 <= i < MinInt(|left|, |right|) => Midpoint(left[i], right[i]))
  }

  /** The fallback on the first surface: its center_line, else the midpoints of its two boundaries. */
  function Fallback(first: Surface): seq<Point>
  {
    if first.centerLine.Some? then first.centerLine.value
    else if first.left.Some? && first.right.Some? then
      CenterLineCoords(first.left.value.coordinates, first.right.value.coordinates)
    else []
  }

  /** The coordinates the reference line is fitted to. */
  function ReferenceCoords(surfaces: seq<Surface>): seq<Point>
  {
    var found := FirstZeroBoundary(surfaces);
    var coords := if found.Some? then found.value else [];
    if coords != [] then coords
    else if surfaces == [] then []
    else Fallback(surfaces[0])
  }

  /**
   * _calculate_road_reference_line. `convert` is building the
   * high-precision GeometryConverter and calling convert_road_geometry;
   * Err stands for an exception, which the method turns into [].
   */
  function ReferenceLine(convert: seq<Point> -> Result<seq<Segment>>, surfaces: seq<Surface>): seq<Segment>
  {
    if surfaces == [] then []
    else
      var coords := ReferenceCoords(surfaces);
      if coords == [] then []
      else match convert(coords)
        case Ok(segments) => segments
        case Err(_) => []
  }

  /**
   * The scan finds a boundary exactly when some surface has one with index
   * '0'; it stops at the first such surface and prefers its left boundary.
   */
  lemma {:induction false} FirstZeroBoundarySpec(surfaces: seq<Surface>)
    ensures FirstZeroBoundary(surfaces).Some? <==> exists k :: 0 <= k < |surfaces| && HasZero(surfaces[k])
    ensures FirstZeroBoundary(surfaces).Some? ==>
              exists k :: 0 <= k < |surfaces| && HasZero(surfaces[k]) &&
                (forall j :: 0 <= j < k ==> !HasZero(surfaces[j])) &&
                FirstZeroBoundary(surfaces).value == ZeroCoordinates(surfaces[k])
  {
    if surfaces != [] && !HasZero(surfaces[0]) {
      var rest := surfaces[1..];
      FirstZeroBoundarySpec(rest);
      assert forall k :: 1 <= k < |surfaces| ==> surfaces[k] == rest[k - 1];
      if exists k :: 0 <= k < |surfaces| && HasZero(surfaces[k]) {
        var k :| 0 <= k < |surfaces| && HasZero(surfaces[k]);
        assert HasZero(rest[k - 1]);
      }
      if FirstZeroBoundary(rest).Some? {
        var k :| 0 <= k < |rest| && HasZero(rest[k]) &&
                 (forall j :: 0 <= j < k ==> !HasZero(rest[j])) &&
                 FirstZeroBoundary(rest).value == ZeroCoordinates(rest[k]);
        forall j | 0 <= j < k + 1
          ensures !HasZero(surfaces[j])
        {
          if j > 0 {
            assert surfaces[j] == rest[j - 1];
          }
        }
        assert HasZero(surfaces[k + 1]);
      }
    }
  }

  /**
   * The fallback order: a non-empty index-'0' boundary wins; otherwise the
   * first surface's center_line, then the midpoints of its boundaries;
   * nothing is fitted when the chosen coordinates are empty.
   */
  lemma ReferenceFallbackOrder(convert: seq<Point> -> Result<seq<Segment>>, surfaces: seq<Surface>)
    ensures FirstZeroBoundary(surfaces).Some? && FirstZeroBoundary(surfaces).value != [] ==>
              ReferenceCoords(surfaces) == FirstZeroBoundary(surfaces).value
    ensures (FirstZeroBoundary(surfaces).None? || FirstZeroBoundary(surfaces).value == []) && surfaces != [] ==>
              ReferenceCoords(surfaces) == Fallback(surfaces[0])
    ensures (surfaces != [] && surfaces[0].centerLine.None? && (surfaces[0].left.None? || surfaces[0].right.None?) &&
             FirstZeroBoundary(surfaces).None?) ==> ReferenceLine(convert, surfaces) == []
    ensures ReferenceLine(convert, surfaces) != [] ==>
              convert(ReferenceCoords(surfaces)) == Ok(ReferenceLine(convert, surfaces))
  {
  }

  /** Each centre point is as far from its left point as from its right one; there are min(len) of them. */
  lemma CenterLineCoordsProperties(left: seq<Point>, right: seq<Point>)
    ensures |CenterLineCoords(left, right)| == if left == [] || right == [] then 0 else MinInt(|left|, |right|)
    ensures forall i :: 0 <= i < |CenterLineCoords(left, right)| ==>
              4.0 * Dist2(left[i], CenterLineCoords(left, right)[i]) == Dist2(left[i], right[i]) &&
              Dist2(left[i], CenterLineCoords(left, right)[i]) == Dist2(CenterLineCoords(left, right)[i], right[i])
  {
  }

  /** _calculate_center_line_coords. */
  method CalculateCenterLineCoords(left: seq<Point>, right: seq<Point>) returns (center: seq<Point>)
    ensures center == CenterLineCoords(left, right)
  {
    if left == [] || right == [] {
      return [];
    }
    var n := MinInt(|left|, |right|);
    center := [];
    for i := 0 to n
      invariant center == seq(i, k requires 0 <= k < i => Midpoint(left[k], right[k]))
    {
      var mid := Point((left[i].x + right[i].x) / 2.0, (left[i].y + right[i].y) / 2.0);
      center := center + [mid];
    }
  }

  /** The scan loop of _calculate_road_reference_line, with its break. */
  method FindZeroBoundary(surfaces: seq<Surface>) returns (found: Option<seq<Point>>)
    ensures found == FirstZeroBoundary(surfaces)
  {
    var i := 0;
    while i < |surfaces|
      invariant 0 <= i <= |surfaces|
      invariant FirstZeroBoundary(surfaces) == FirstZeroBoundary(surfaces[i..])
    {
      assert surfaces[i..][1..] == surfaces[i + 1..];
      var surface := surfaces[i];
      if surface.left.Some? && surface.left.value.index == "0" {
        return Some(surface.left.value.coordinates);
      }
      if surface.right.Some? && surface.right.value.index == "0" {
        return Some(surface.right.value.coordinates);
      }
      i := i + 1;
    }
    return None;
  }

  /** _calculate_road_reference_line. */
  method CalculateRoadReferenceLine(convert: seq<Point> -> Result<seq<Segment>>, surfaces: seq<Surface>)
    returns (segments: seq<Segment>)
    ensures segments == ReferenceLine(convert, surfaces)
  {
    if surfaces == [] {
      return [];
    }
    var found := FindZeroBoundary(surfaces);
    var coords := if found.Some? then found.value else [];
    if coords == [] {
      var first := surfaces[0];
      if first.centerLine.Some? {
        coords := first.centerLine.value;
      } else if first.left.Some? && first.right.Some? {
        coords := CalculateCenterLineCoords(first.left.value.coordinates, first.right.value.coordinates);
      }
      if coords == [] {
        return [];
      }
    }
    var r := convert(coords);
    if r.Err? {
      return [];
    }
    return r.value;
  }

  // ------------------------------------------------------ width filtering

  /**
   * A sample is kept when its width differs by more than the threshold
   * from the last kept width or from the next width, or when it is a
   * strict turning point between those two.
   */
  predicate Significant(prev: real, cur: real, next: real)
  {
    Abs(cur - prev) > ChangeThreshold || Abs(next - cur) > ChangeThreshold
    || (cur > prev && cur > next) || (cur < prev && cur < next)
  }

  /** The samples kept from p[..i]: the first, then each interior sample decided in order. */
  function KeptSamples(p: seq<WidthSample>, i: nat): (kept: seq<WidthSample>)
    requires 1 <= i < |p|
    ensures 1 <= |kept| <= i && kept[0] == p[0]
  {
    if i == 1 then [p[0]]
    else
      var f := KeptSamples(p, i - 1);
      if Significant(f[|f| - 1].width, p[i - 1].width, p[i].width) then f + [p[i - 1]] else f
  }

  /** _filter_significant_width_changes with its default threshold. */
  function Filtered(p: seq<WidthSample>): seq<WidthSample>
  {
    if |p| <= 2 then p else KeptSamples(p, |p| - 1) + [p[|p| - 1]]
  }

  lemma {:induction false} KeptSamplesSubseq(p: seq<WidthSample>, i: nat)
    requires 1 <= i < |p|
    ensures Subseq(KeptSamples(p, i), p[..i])
  {
    if i == 1 {
      assert p[..1] == [p[0]];
      SubseqRefl(p[..1]);
    } else {
      KeptSamplesSubseq(p, i - 1);
      var f := KeptSamples(p, i - 1);
      assert p[..i] == p[..i - 1] + [p[i - 1]];
      if Significant(f[|f| - 1].width, p[i - 1].width, p[i].width) {
        SubseqSnoc(f, p[..i - 1], p[i - 1]);
      } else {
        SubseqExtend(f, p[..i - 1], [p[i - 1]]);
      }
    }
  }

  /** A sample whose width differs from the next one by more than the threshold is always kept. */
  lemma {:induction false} KeptSamplesKeepSteps(p: seq<WidthSample>, i: nat, j: nat)
    requires 1 <= j < i < |p|
    requires Abs(p[j + 1].width - p[j].width) > ChangeThreshold
    ensures p[j] in KeptSamples(p, i)
  {
    if i == j + 1 {
      var f := KeptSamples(p, i - 1);
      assert Significant(f[|f| - 1].width, p[j].width, p[j + 1].width);
    } else {
      KeptSamplesKeepSteps(p, i - 1, j);
    }
  }

  /**
   * Filtering returns short profiles unchanged; otherwise it keeps the
   * first and last samples and a subsequence in between, including every
   * sample followed by a change above the threshold.
   */
  lemma FilteredProperties(p: seq<WidthSample>)
    ensures |p| <= 2 ==> Filtered(p) == p
    ensures |p| > 2 ==> Filtered(p)[0] == p[0] && Filtered(p)[|Filtered(p)| - 1] == p[|p| - 1]
    ensures Subseq(Filtered(p), p) && |Filtered(p)| <= |p|
    ensures forall j :: 1 <= j < |p| - 1 && Abs(p[j + 1].width - p[j].width) > ChangeThreshold ==> p[j] in Filtered(p)
  {
    if |p| <= 2 {
      SubseqRefl(p);
    } else {
      var n := |p|;
      KeptSamplesSubseq(p, n - 1);
      SubseqSnoc(KeptSamples(p, n - 1), p[..n - 1], p[n - 1]);
      assert p[..n - 1] + [p[n - 1]] == p;
      forall j | 1 <= j < n - 1 && Abs(p[j + 1].width - p[j].width) > ChangeThreshold
        ensures p[j] in Filtered(p)
      {
        KeptSamplesKeepSteps(p, n - 1, j);
      }
    }
    SubseqLength(Filtered(p), p);
  }

  /** _filter_significant_width_changes. */
  method FilterSignificantWidthChanges(profile: seq<WidthSample>) returns (filtered: seq<WidthSample>)
    ensures filtered == Filtered(profile)
  {
    if |profile| <= 2 {
      return profile;
    }
    filtered := [profile[0]];
    for i := 1 to |profile| - 1
      invariant filtered == KeptSamples(profile, i)
    {
      var current := profile[i].width;
      var prev := filtered[|filtered| - 1].width;
      var next := profile[i + 1].width;
      var changePrev := Abs(current - prev);
      var changeNext := Abs(next - current);
      var turning := (current > prev && current > next) || (current < prev && current < next);
      if changePrev > ChangeThreshold || changeNext > ChangeThreshold || turning {
        filtered := filtered + [profile[i]];
      }
    }
    filtered := filtered + [profile[|profile| - 1]];
  }

  // ---------------------------------------------------------- width rules

  function Widths(p: seq<WidthSample>): seq<real>
  {
    seq(|p|, i requires 0 <= i < |p| => p[i].width)
  }

  function Mean(xs: seq<real>): real
    requires |xs| > 0
  {
    Sum(xs) / |xs| as real
  }

  /**
   * The relative change exceeds 3%: relative to the smallest width, or to
   * the mean when the smallest is not positive; a non-positive mean makes
   * the ratio infinite.
   */
  predicate RatioExceeds(change: real, lo: real, mean: real)
  {
    if lo > 0.0 then change / lo > 0.03
    else if mean > 0.0 then change / mean > 0.03
    else true
  }

  /** A surface is variable-width when its widths spread by more than 0.1 m and by more than 3%. */
  predicate IsVariableWidth(p: seq<WidthSample>)
    requires |p| > 0
  {
    var w := Widths(p);
    var change := Hi(w) - Lo(w);
    change > 0.1 && RatioExceeds(change, Lo(w), Mean(w))
  }

  lemma DivExceeds(change: real, base: real)
    requires base > 0.0
    ensures change / base > 0.03 <==> change > 0.03 * base
  {
    var q := change / base;
    assert change == q * base;
    if q > 0.03 {
      assert q * base > 0.03 * base;
    } else {
      assert q * base <= 0.03 * base;
    }
  }

  /**
   * The classification in closed form: with a positive smallest width the
   * spread must exceed both 0.1 and 3% of it; with no positive width and
   * no positive mean a spread above 0.1 suffices; equal widths are never
   * variable.
   */
  lemma VariableWidthRule(p: seq<WidthSample>)
    requires |p| > 0
    ensures var w := Widths(p);
            Lo(w) > 0.0 ==> (IsVariableWidth(p) <==> Hi(w) - Lo(w) > 0.1 && Hi(w) - Lo(w) > 0.03 * Lo(w))
    ensures var w := Widths(p);
            Lo(w) <= 0.0 && Mean(w) <= 0.0 ==> (IsVariableWidth(p) <==> Hi(w) - Lo(w) > 0.1)
    ensures IsVariableWidth(p) ==> exists i, j :: 0 <= i < |p| && 0 <= j < |p| && p[i].width - p[j].width > 0.1
    ensures (forall i :: 0 <= i < |p| ==> p[i].width == p[0].width) ==> !IsVariableWidth(p)
  {
    var w := Widths(p);
    LoSpec(w);
    HiSpec(w);
    if Lo(w) > 0.0 {
      DivExceeds(Hi(w) - Lo(w), Lo(w));
    }
    if IsVariableWidth(p) {
      var i :| 0 <= i < |w| && w[i] == Hi(w);
      var j :| 0 <= j < |w| && w[j] == Lo(w);
      assert p[i].width - p[j].width > 0.1;
    }
    if forall i :: 0 <= i < |p| ==> p[i].width == p[0].width {
      var i :| 0 <= i < |w| && w[i] == Hi(w);
      var j :| 0 <= j < |w| && w[j] == Lo(w);
      assert w[i] == w[j];
    }
  }

  /** A width record: the sample's polynomial when it has one, else its width as a constant. */
  function EntryOf(w: WidthSample): WidthEntry
  {
    match w.poly
    case Some(q) => WidthEntry(w.s, q.a, q.b, q.c, q.d)
    case None => Constant(w.s, w.width)
  }

  /** The first min(8, |filtered|) filtered samples as width records. */
  function VariableEntries(p: seq<WidthSample>): seq<WidthEntry>
  {
    var f := Filtered(p);
    var n := MinInt(MaxWidthEntries, |f|);
    FilteredProperties(p);
    seq(n, j requires 0 <= j < n => EntryOf(f[j]))
  }

  /** The widths above the zero threshold, in order. */
  function ValidWidths(p: seq<WidthSample>): (v: seq<real>)
    ensures forall x :: x in v ==> x > ZeroWidth
    ensures forall i :: 0 <= i < |p| && p[i].width > ZeroWidth ==> p[i].width in v
    ensures forall x :: x in v ==> exists i :: 0 <= i < |p| && p[i].width == x
  {
    if p == [] then []
    else
      var init := ValidWidths(p[..|p| - 1]);
      assert forall i :: 0 <= i < |p| - 1 ==> p[..|p| - 1][i] == p[i];
      if p[|p| - 1].width > ZeroWidth then init + [p[|p| - 1].width] else init
  }

  /**
   * A constant-width lane: one record with the first width at s = 0; a
   * first width at or below 0.001 adds a second s = 0 record with the
   * smallest width above 0.001, and without one the lane is dropped (None).
   */
  function ConstantEntries(p: seq<WidthSample>): Option<seq<WidthEntry>>
    requires |p| > 0
  {
    var w0 := p[0].width;
    if w0 > ZeroWidth then Some([Constant(0.0, w0)])
    else
      var v := ValidWidths(p);
      if v == [] then None else Some([Constant(0.0, w0), Constant(0.0, Lo(v))])
  }

  /**
   * The width records of one surface's lane: None when the lane is
   * skipped, Err when formatting a non-numeric default width raises.
   */
  function LaneWidths(s: Surface, attributes: Option<Dict<Value>>): Result<Option<seq<WidthEntry>>>
  {
    var p := s.widthProfile;
    if p != [] then
      Ok(if IsVariableWidth(p) then Some(VariableEntries(p)) else ConstantEntries(p))
    else
      var v := if attributes.Some? && attributes.value != [] then GetOr(attributes.value, "lane_width", Real(DefaultLaneWidth))
               else Real(DefaultLaneWidth);
      match NumberOf(v)
      case Some(x) => Ok(Some([Constant(0.0, x)]))
      case None => Err("unsupported format string")
  }

  /**
   * The width rules: a variable lane gets between 1 and 8 records starting
   * with its first sample's; a constant lane starts with its first width at
   * s = 0, gets a second record exactly when that width is at most 0.001,
   * and is dropped exactly when no width exceeds 0.001.
   */
  lemma LaneWidthsRules(s: Surface, attributes: Option<Dict<Value>>)
    ensures var p := s.widthProfile;
            p != [] && IsVariableWidth(p) ==>
              var ws := LaneWidths(s, attributes).value.value;
              1 <= |ws| <= MaxWidthEntries && ws[0] == EntryOf(p[0])
    ensures var p := s.widthProfile;
            p != [] && !IsVariableWidth(p) ==>
              (LaneWidths(s, attributes) == Ok(None) <==>
                 p[0].width <= ZeroWidth && forall i :: 0 <= i < |p| ==> p[i].width <= ZeroWidth)
    ensures var p := s.widthProfile;
            p != [] && !IsVariableWidth(p) && LaneWidths(s, attributes).value.Some? ==>
              var ws := LaneWidths(s, attributes).value.value;
              ws[0] == Constant(0.0, p[0].width) &&
              (|ws| == 2 <==> p[0].width <= ZeroWidth) && |ws| <= 2 &&
              (|ws| == 2 ==> ws[1].a > ZeroWidth && ws[1].sOffset == 0.0 &&
                             forall i :: 0 <= i < |p| && p[i].width > ZeroWidth ==> ws[1].a <= p[i].width)
  {
    var p := s.widthProfile;
    if p != [] {
      FilteredProperties(p);
      var v := ValidWidths(p);
      if v != [] {
        LoSpec(v);
      }
      if v != [] {
        assert v[0] in v;
      }
    }
  }

  /** The right lanes built from the surfaces, each surface's lane unless it is skipped. */
  function SurfaceLanes(surfaces: seq<Surface>, attributes: Option<Dict<Value>>): Result<seq<Lane>>
  {
    if surfaces == [] then Ok([])
    else
      match SurfaceLanes(surfaces[..|surfaces| - 1], attributes)
      case Err(e) => Err(e)
      case Ok(lanes) =>
        match LaneWidths(surfaces[|surfaces| - 1], attributes)
        case Err(e) => Err(e)
        case Ok(None) => Ok(lanes)
        case Ok(Some(ws)) => Ok(lanes + [Lane(ws)])
  }

  /** _create_lane_section_from_surfaces: every lane on the right of the reference line. */
  function LaneSectionFromSurfaces(surfaces: seq<Surface>, attributes: Option<Dict<Value>>): Result<LaneSection>
  {
    match SurfaceLanes(surfaces, attributes)
    case Err(e) => Err(e)
    case Ok(lanes) => Ok(LaneSection(lanes, []))
  }

  lemma SurfaceLanesStep(surfaces: seq<Surface>, attributes: Option<Dict<Value>>, i: nat)
    requires i < |surfaces|
    ensures SurfaceLanes(surfaces[..i + 1], attributes) ==
              match SurfaceLanes(surfaces[..i], attributes)
              case Err(e) => Err(e)
              case Ok(lanes) =>
                match LaneWidths(surfaces[i], attributes)
                case Err(e) => Err(e)
                case Ok(None) => Ok(lanes)
                case Ok(Some(ws)) => Ok(lanes + [Lane(ws)])
  {
    assert surfaces[..i + 1][..i] == surfaces[..i];
  }

  /** No more lanes than surfaces, and every lane has between one and eight width records. */
  lemma {:induction false} SurfaceLanesBounds(surfaces: seq<Surface>, attributes: Option<Dict<Value>>)
    ensures SurfaceLanes(surfaces, attributes).Ok? ==>
              var lanes := SurfaceLanes(surfaces, attributes).value;
              |lanes| <= |surfaces| &&
              forall k :: 0 <= k < |lanes| ==> 1 <= |lanes[k].widths| <= MaxWidthEntries
  {
    if surfaces != [] {
      var last := surfaces[|surfaces| - 1];
      SurfaceLanesBounds(surfaces[..|surfaces| - 1], attributes);
      LaneWidthsRules(last, attributes);
    }
  }

  /** _create_lane_section_from_surfaces: the loop over the surfaces. */
  method CreateLaneSectionFromSurfaces(surfaces: seq<Surface>, attributes: Option<Dict<Value>>)
    returns (section: Result<LaneSection>)
    ensures section == LaneSectionFromSurfaces(surfaces, attributes)
  {
    var lanes: seq<Lane> := [];
    for i := 0 to |surfaces|
      invariant SurfaceLanes(surfaces[..i], attributes) == Ok(lanes)
    {
      SurfaceLanesStep(surfaces, attributes, i);
      var widths := LaneWidths(surfaces[i], attributes);
      if widths.Err? {
        ErrSticks(surfaces, attributes, i + 1);
        return Err(widths.error);
      }
      if widths.value.Some? {
        lanes := lanes + [Lane(widths.value.value)];
      }
    }
    assert surfaces[..|surfaces|] == surfaces;
    return Ok(LaneSection(lanes, []));
  }

  lemma {:induction false} ErrSticks(surfaces: seq<Surface>, attributes: Option<Dict<Value>>, i: nat)
    requires i <= |surfaces| && SurfaceLanes(surfaces[..i], attributes).Err?
    ensures SurfaceLanes(surfaces, attributes) == SurfaceLanes(surfaces[..i], attributes)
    decreases |surfaces| - i
  {
    if i < |surfaces| {
      SurfaceLanesStep(surfaces, attributes, i);
      ErrSticks(surfaces, attributes, i + 1);
    } else {
      assert surfaces[..i] == surfaces;
    }
  }

  // ------------------------------------------------ attribute lane section

  /** The attributes create_road_from_segments uses when given None. */
  function DefaultRoadAttributes(): Dict<Value>
  {
    [("lane_width", Real(3.5)), ("num_lanes", Int(1)), ("speed_limit", Int(50))]
  }

  /** range(1, n + 1) accepts an int or a bool; anything else raises. */
  function LaneCountOf(v: Value): Option<int>
  {
    match v
    case Int(i) => Some(i)
    case Bool(b) => Some(if b then 1 else 0)
    case _ => None
  }

  /**
   * _create_lane_section: num_lanes right lanes of the attribute width,
   * mirrored on the left when bidirectional. Err stands for the TypeError
   * of a num_lanes range() cannot take; a non-numeric width is also
   * treated as failing (the model's width records are numbers).
   */
  function AttributeLaneSection(attributes: Dict<Value>): Result<LaneSection>
  {
    var count := LaneCountOf(GetOr(attributes, "num_lanes", Int(1)));
    var width := NumberOf(GetOr(attributes, "lane_width", Real(DefaultLaneWidth)));
    if count.None? || width.None? then Err("TypeError")
    else
      var lanes := seq(MaxInt(count.value, 0), _ => Lane([Constant(0.0, width.value)]));
      Ok(LaneSection(lanes, if Truthy(GetOr(attributes, "bidirectional", Bool(false))) then lanes else []))
  }

  /**
   * With no attributes a road gets one right lane 3.5 m wide and no left
   * lane; in general there are max(num_lanes, 0) right lanes, each with a
   * single record of the attribute width at s = 0, and the same on the left
   * exactly when bidirectional.
   */
  lemma AttributeLaneSectionRules(attributes: Dict<Value>, n: int, w: real)
    requires Get(attributes, "num_lanes") == Some(Int(n))
    requires Get(attributes, "lane_width") == Some(Real(w))
    ensures AttributeLaneSection(attributes).Ok?
    ensures var sec := AttributeLaneSection(attributes).value;
            |sec.right| == MaxInt(n, 0) &&
            (forall k :: 0 <= k < |sec.right| ==> sec.right[k] == Lane([Constant(0.0, w)])) &&
            (sec.left == [] <==> n <= 0 || !Truthy(GetOr(attributes, "bidirectional", Bool(false))))
    ensures AttributeLaneSection(DefaultRoadAttributes()) == Ok(LaneSection([Lane([Constant(0.0, 3.5)])], []))
  {
    var d := DefaultRoadAttributes();
    assert Get(d, "num_lanes") == Some(Int(1)) by {
      assert d[0].0[0] != "num_lanes"[0];
    }
    assert Get(d, "lane_width") == Some(Real(3.5));
    assert Get(d, "bidirectional") == None by {
      assert d[0].0[0] != "bidirectional"[0];
      assert d[1].0[0] != "bidirectional"[0];
      assert d[2].0[0] != "bidirectional"[0];
      assert Get(d, "bidirectional") == Get(d[1..], "bidirectional") == Get(d[2..], "bidirectional") == Get(d[3..], "bidirectional");
    }
    var sec := AttributeLaneSection(d).value;
    assert |sec.right| == 1 && sec.right[0] == Lane([Constant(0.0, 3.5)]);
    assert sec.right == [Lane([Constant(0.0, 3.5)])];
  }

  // ---------------------------------------------------------- the generator

  /** The road create_road_* adds under `id`, if the lanes can be built and xodr accepts it. */
  function NewRoad(id: int, planView: seq<Segment>, lanes: Result<LaneSection>, accepts: Road -> bool): Option<Road>
  {
    if lanes.Err? then None
    else if accepts(Road(id, planView, lanes.value)) then Some(Road(id, planView, lanes.value))
    else None
  }

  /** Road ids are positive, strictly increasing in creation order, and below the bound. */
  ghost predicate IdsBelow(roads: seq<Road>, bound: int)
  {
    (forall i :: 0 <= i < |roads| ==> 1 <= roads[i].id < bound)
    && (forall i, j :: 0 <= i < j < |roads| ==> roads[i].id < roads[j].id)
  }

  function IdsOf(roads: seq<Road>): seq<int>
  {
    seq(|roads|, i requires 0 <= i < |roads| => roads[i].id)
  }

  /** Growing a road list in two steps: the new ids are those of each step, in order. */
  lemma IdsOfSuffix(before: seq<Road>, prev: seq<Road>, now: seq<Road>)
    requires |before| <= |prev| <= |now| && prev[..|before|] == before && now[..|prev|] == prev
    ensures now[..|before|] == before
    ensures IdsOf(now[|before|..]) == IdsOf(prev[|before|..]) + IdsOf(now[|prev|..])
  {
    assert now[|before|..] == prev[|before|..] + now[|prev|..];
  }

  /** validate_opendrive's result. */
  datatype Validation = Validation(valid: bool, errors: seq<string>, warnings: seq<string>, roadCount: int, totalLength: real)

  /** A record of create_multiple_roads' input; an absent key is None. */
  datatype RoadRecord = RoadRecord(segments: Option<seq<Segment>>, attributes: Option<Dict<Value>>)

  class OpenDriveGenerator {
    const name: string
    var roads: seq<Road>
    var roadIdCounter: int

    /** The counter is never below 1 and every road took an id below it, in increasing order. */
    ghost predicate Valid()
      reads this
    {
      roadIdCounter >= 1 && IdsBelow(roads, roadIdCounter)
    }

    constructor(name: string)
      ensures Valid() && this.name == name && roads == [] && roadIdCounter == 1
    {
      this.name := name;
      roads := [];
      roadIdCounter := 1;
    }

    /** Takes the next id and adds the road if it can be built; the id is consumed either way. */
    method AddRoad(planView: seq<Segment>, lanes: Result<LaneSection>, accepts: Road -> bool) returns (id: int)
      requires Valid()
      modifies this
      ensures Valid()
      ensures roadIdCounter == old(roadIdCounter) + 1
      ensures var made := NewRoad(old(roadIdCounter), planView, lanes, accepts);
              id == (if made.Some? then old(roadIdCounter) else -1) &&
              roads == old(roads) + (if made.Some? then [made.value] else [])
    {
      var roadId := roadIdCounter;
      roadIdCounter := roadIdCounter + 1;
      if lanes.Err? {
        return -1;
      }
      var road := Road(roadId, planView, lanes.value);
      if !accepts(road) {
        return -1;
      }
      roads := roads + [road];
      return roadId;
    }

    /**
     * create_road_from_segments: an empty list is refused without taking
     * an id; otherwise the id is taken even when building the road fails,
     * and the road list grows exactly when a positive id is returned.
     */
    method CreateRoadFromSegments(accepts: Road -> bool, segments: seq<Segment>, attributes: Option<Dict<Value>>)
      returns (id: int)
      requires Valid()
      modifies this
      ensures Valid()
      ensures segments == [] ==> id == -1 && roads == old(roads) && roadIdCounter == old(roadIdCounter)
      ensures segments != [] ==> roadIdCounter == old(roadIdCounter) + 1
      ensures segments != [] ==>
                var attrs := if attributes.Some? then attributes.value else DefaultRoadAttributes();
                var made := NewRoad(old(roadIdCounter), segments, AttributeLaneSection(attrs), accepts);
                id == (if made.Some? then old(roadIdCounter) else -1) &&
                roads == old(roads) + (if made.Some? then [made.value] else [])
      ensures id > 0 <==> |roads| == |old(roads)| + 1
    {
      if segments == [] {
        return -1;
      }
      var attrs := if attributes.Some? then attributes.value else DefaultRoadAttributes();
      id := AddRoad(segments, AttributeLaneSection(attrs), accepts);
    }

    /**
     * create_road_from_lane_surfaces: no surfaces or no reference segments
     * refuse without taking an id; otherwise as create_road_from_segments
     * with the reference line as plan view and lanes from the surfaces.
     */
    method CreateRoadFromLaneSurfaces(accepts: Road -> bool, convert: seq<Point> -> Result<seq<Segment>>,
                                      surfaces: seq<Surface>, attributes: Option<Dict<Value>>)
      returns (id: int)
      requires Valid()
      modifies this
      ensures Valid()
      ensures surfaces == [] || ReferenceLine(convert, surfaces) == [] ==>
                id == -1 && roads == old(roads) && roadIdCounter == old(roadIdCounter)
      ensures surfaces != [] && ReferenceLine(convert, surfaces) != [] ==>
                roadIdCounter == old(roadIdCounter) + 1 &&
                var made := NewRoad(old(roadIdCounter), ReferenceLine(convert, surfaces),
                                    LaneSectionFromSurfaces(surfaces, attributes), accepts);
                id == (if made.Some? then old(roadIdCounter) else -1) &&
                roads == old(roads) + (if made.Some? then [made.value] else [])
      ensures id > 0 <==> |roads| == |old(roads)| + 1
    {
      if surfaces == [] {
        return -1;
      }
      var segments := CalculateRoadReferenceLine(convert, surfaces);
      if segments == [] {
        return -1;
      }
      var lanes := CreateLaneSectionFromSurfaces(surfaces, attributes);
      id := AddRoad(segments, lanes, accepts);
    }

    /**
     * create_multiple_roads: the returned ids are exactly the ids of the
     * roads it added, in order; earlier roads stay.
     */
    method CreateMultipleRoads(accepts: Road -> bool, records: seq<RoadRecord>) returns (ids: seq<int>)
      requires Valid()
      modifies this
      ensures Valid()
      ensures |old(roads)| <= |roads| && roads[..|old(roads)|] == old(roads)
      ensures ids == IdsOf(roads[|old(roads)|..])
      ensures forall k :: 0 <= k < |ids| ==> ids[k] > 0
    {
      ids := [];
      ghost var before := roads;
      for i := 0 to |records|
        invariant Valid()
        invariant |before| <= |roads| && roads[..|before|] == before
        invariant ids == IdsOf(roads[|before|..])
        invariant forall k :: 0 <= k < |ids| ==> ids[k] > 0
      {
        ghost var prev := roads;
        var id := AddRecord(accepts, records[i]);
        IdsOfSuffix(before, prev, roads);
        if id > 0 {
          ids := ids + [id];
        }
      }
    }

    /** One record of create_multiple_roads: absent keys read as an empty plan view and empty attributes. */
    method AddRecord(accepts: Road -> bool, r: RoadRecord) returns (id: int)
      requires Valid()
      modifies this
      ensures Valid()
      ensures |old(roads)| <= |roads| && roads[..|old(roads)|] == old(roads)
      ensures IdsOf(roads[|old(roads)|..]) == if id > 0 then [id] else []
    {
      var segments := if r.segments.Some? then r.segments.value else [];
      var attributes := if r.attributes.Some? then r.attributes.value else [];
      id := CreateRoadFromSegments(accepts, segments, Some(attributes));
      if id > 0 {
        assert roads[|old(roads)|..] == [roads[|roads| - 1]];
      } else {
        assert roads[|old(roads)|..] == [];
      }
    }

    /**
     * validate_opendrive: invalid exactly when there are no roads. Every
     * road has a plan view and a lane section (the xodr Lanes object is
     * always truthy), so each counts as 100 m and no other error arises.
     */
    method ValidateOpenDrive() returns (result: Validation)
      ensures result.valid <==> |roads| > 0
      ensures result.errors == (if roads == [] then [NoRoadsError] else [])
      ensures result.warnings == [] && result.roadCount == |roads|
      ensures result.totalLength == AssumedRoadLength * |roads| as real
    {
      result := Validation(true, [], [], |roads|, 0.0);
      if |roads| == 0 {
        result := result.(errors := result.errors + [NoRoadsError], valid := false);
      }
      for i := 0 to |roads|
        invariant result.totalLength == AssumedRoadLength * i as real
        invariant result.valid <==> |roads| > 0
        invariant result.errors == (if roads == [] then [NoRoadsError] else [])
        invariant result.warnings == [] && result.roadCount == |roads|
      {
        result := result.(totalLength := result.totalLength + AssumedRoadLength);
      }
    }
  }
}
