// _calculate_width_profile and _calculate_width_profile_simple of the
// current GeometryConverter (SoftwareCopyright/shp2opendrive/geometry_converter.py):
// a lane surface's width is sampled at up to 20 stations evenly spaced
// along its centre-line segments, measured across the reference heading,
// smoothed, and fitted with one cubic per interval. Without a reference
// line the boundaries are paired index by index instead.
//
// The centre-line segments are of a type the model does not look into:
// their lengths, the reconstructed reference line and the reference pose at
// a given s (_reconstruct_reference_line, _get_reference_point_at_s) are
// parameters.

module WidthProfile {
  import opened Common
  import opened Resample
  import opened CenterLine
  import opened WidthPolynomials
  import opened WidthGeometry

  // ---------------------------------------------------------------- counts

  /** samples_by_length: one station per 25, 35 or 50 m by road length, at least 3, 6 or 8. */
  function SamplesByLength(total: real): int
  {
    if total <= 50.0 then MaxInt(Trunc(total / 25.0), 3)
    else if total <= 200.0 then MaxInt(Trunc(total / 35.0), 6)
    else MaxInt(Trunc(total / 50.0), 8)
  }

  /** num_samples: the length-based count, at least 3, capped by 20 and by the shorter boundary. */
  function NumSamples(total: real, base: int): int
  {
    MinInt(MaxInt(SamplesByLength(total), 3), MinInt(20, base))
  }

  /** sample_interval: the total spread over num - 1 gaps, 0 for a single station. */
  function SampleInterval(total: real, num: int): real
  {
    if num > 1 then total / (num - 1) as real else 0.0
  }

  /** The s of sample i. */
  function SampleS(i: nat, interval: real): real
  {
    i as real * interval
  }

  /**
   * There are never more than 20 stations nor more than the shorter
   * boundary has points, and at least 3 when both boundaries have 3 points.
   */
  lemma NumSamplesBounds(total: real, base: int)
    ensures var n := NumSamples(total, base);
      && n <= 20 && n <= base
      && (base >= 3 ==> n >= 3)
      && SamplesByLength(total) >= 3
  {
  }

  /** The first sample sits at s = 0 and, with two or more, the last at the total length. */
  lemma SamplePositions(total: real, num: int)
    ensures SampleS(0, SampleInterval(total, num)) == 0.0
    ensures num > 1 ==> SampleS(num - 1, SampleInterval(total, num)) == total
  {
    if num > 1 {
      var m := (num - 1) as real;
      assert m * (total / m) == total;
    }
  }

  /** A positive length spread over two or more samples gives a positive interval. */
  lemma IntervalPositive(total: real, num: int)
    requires total > 0.0 && num > 1
    ensures SampleInterval(total, num) > 0.0
  {
    var m := (num - 1) as real;
    assert m >= 1.0;
    assert (total / m) * m == total;
  }

  /** Samples are evenly spaced: a later sample lies further along a positive interval. */
  lemma SampleSIncreasing(i: nat, j: nat, interval: real)
    requires i < j && interval > 0.0
    ensures SampleS(i, interval) < SampleS(j, interval)
  {
    var d := (j - i) as real;
    assert SampleS(j, interval) == SampleS(i, interval) + d * interval;
    assert d * interval > 0.0;
  }

  // -------------------------------------------------------------- stations

  /** The sum of the segments' lengths. */
  function SegmentsLength<Seg>(segs: seq<Seg>, length: Seg -> real): real
  {
    if segs == [] then 0.0 else SegmentsLength(segs[..|segs| - 1], length) + length(segs[|segs| - 1])
  }

  /**
   * The station measured at reference pose `pose`: the two points of each
   * boundary nearest to the reference point, the width between the boundary
   * lines across the heading, and the nearest point of each side.
   */
  function StationAt(lib: Libm, precision: int, left: seq<Point>, right: seq<Point>, s: real, pose: Pose): Station
  {
    var lp := ClosestTwo(lib, left, pose.point);
    var rp := ClosestTwo(lib, right, pose.point);
    Station(s, IntersectionWidth(lib, precision, lp, rp, pose.point, pose.heading), lp[0], rp[0], Some(pose), None)
  }

  /** StationAt with the boundaries and precision fixed: the measurement made at each sample. */
  function Measure(lib: Libm, precision: int, left: seq<Point>, right: seq<Point>): (real, Pose) -> Station
  {
    (s, pose) => StationAt(lib, precision, left, right, s, pose)
  }

  /** A measurement records the s and the pose it was made at. */
  ghost predicate Records(measure: (real, Pose) -> Station)
  {
    forall s, pose :: measure(s, pose).s == s && measure(s, pose).reference == Some(pose)
  }

  /** StationAt records its s and pose. */
  lemma MeasureRecords(lib: Libm, precision: int, left: seq<Point>, right: seq<Point>)
    ensures Records(Measure(lib, precision, left, right))
  {
    forall s, pose
      ensures Measure(lib, precision, left, right)(s, pose).s == s
      ensures Measure(lib, precision, left, right)(s, pose).reference == Some(pose)
    {
      var st := StationAt(lib, precision, left, right, s, pose);
      assert st.s == s && st.reference == Some(pose);
    }
  }

  /** The stations of samples 0 .. k - 1, each measured at the reference pose found at its s. */
  function RawProfile(refAt: real -> Pose, measure: (real, Pose) -> Station, interval: real, k: nat): (r: seq<Station>)
    ensures |r| == k
  {
    if k == 0 then []
    else
      var s := SampleS(k - 1, interval);
      RawProfile(refAt, measure, interval, k - 1) + [measure(s, refAt(s))]
  }

  /**
   * Station i is the measurement made at sample i's s, at the reference pose
   * found there; so it sits at s = SampleS(i) and carries that pose.
   */
  lemma {:induction false} RawProfileStations(refAt: real -> Pose, measure: (real, Pose) -> Station, interval: real, k: nat)
    requires Records(measure)
    ensures var r := RawProfile(refAt, measure, interval, k);
      forall i :: 0 <= i < k ==>
        var s := SampleS(i, interval);
        && r[i] == measure(s, refAt(s))
        && r[i].s == s && r[i].reference == Some(refAt(s))
  {
    if k > 0 {
      RawProfileStations(refAt, measure, interval, k - 1);
      var prev := RawProfile(refAt, measure, interval, k - 1);
      var r := RawProfile(refAt, measure, interval, k);
      assert forall i :: 0 <= i < k - 1 ==> r[i] == prev[i];
    }
  }

  /** No station lies beyond `bound`. */
  predicate AtMost(r: seq<Station>, bound: real)
  {
    forall i :: 0 <= i < |r| ==> r[i].s <= bound
  }

  /**
   * With a positive interval the raw stations' s strictly increase and
   * none lies beyond sample k - 1.
   */
  lemma {:induction false} RawProfileIncreasing(refAt: real -> Pose, measure: (real, Pose) -> Station, interval: real, k: nat)
    requires Records(measure) && interval > 0.0
    ensures SIncreasing(RawProfile(refAt, measure, interval, k))
    ensures k > 0 ==> AtMost(RawProfile(refAt, measure, interval, k), SampleS(k - 1, interval))
  {
    RawProfileStations(refAt, measure, interval, k);
    var r := RawProfile(refAt, measure, interval, k);
    forall i, j | 0 <= i < j < |r|
      ensures r[i].s < r[j].s
    {
      SampleSIncreasing(i, j, interval);
    }
    if k > 0 {
      forall i | 0 <= i < |r|
        ensures r[i].s <= SampleS(k - 1, interval)
      {
        if i < k - 1 {
          SampleSIncreasing(i, k - 1, interval);
        }
      }
    }
  }

  /** The first station sits at s = 0. */
  lemma RawProfileStartsAtZero(refAt: real -> Pose, measure: (real, Pose) -> Station, interval: real, k: nat)
    requires Records(measure) && k > 0
    ensures |RawProfile(refAt, measure, interval, k)| > 0
    ensures RawProfile(refAt, measure, interval, k)[0].s == 0.0
  {
    RawProfileStations(refAt, measure, interval, k);
  }

  /** The sampling loop of _calculate_width_profile. */
  method SampleStations(lib: Libm, precision: int, left: seq<Point>, right: seq<Point>,
                        refAt: real -> Pose, interval: real, n: nat)
    returns (profile: seq<Station>)
    ensures profile == RawProfile(refAt, Measure(lib, precision, left, right), interval, n)
  {
    profile := [];
    for i := 0 to n
      invariant profile == RawProfile(refAt, Measure(lib, precision, left, right), interval, i)
    {
      var s := SampleS(i, interval);
      var ref := refAt(s);
      profile := profile + [StationAt(lib, precision, left, right, s, ref)];
    }
  }

  // -------------------------------------------------------------- attaching

  /** The `polynomial` entry of a segment: its coefficients and length. */
  function PolyOf(seg: PolySegment): Poly
  {
    Poly(seg.a, seg.b, seg.c, seg.d, seg.length)
  }

  /**
   * The profile after attaching polynomial i to station i for every i below
   * both counts, whichever station the polynomial was fitted from.
   */
  function Attached(p: seq<Station>, polys: seq<PolySegment>): seq<Station>
  {
    seq(|p|, i requires 0 <= i < |p| => if i < |polys| then p[i].(poly := Some(PolyOf(polys[i]))) else p[i])
  }

  /** The attaching loop, overwriting stations in place. */
  method AttachPolynomials(profile: array<Station>, polys: seq<PolySegment>)
    modifies profile
    ensures profile[..] == Attached(old(profile[..]), polys)
  {
    ghost var before := profile[..];
    for i := 0 to |polys|
      invariant forall k :: 0 <= k < profile.Length ==>
        profile[k] == if k < i then before[k].(poly := Some(PolyOf(polys[k]))) else before[k]
    {
      if i < profile.Length {
        profile[i] := profile[i].(poly := Some(PolyOf(polys[i])));
      }
    }
    assert profile[..] == Attached(before, polys);
  }

  /**
   * Attaching changes nothing but the `polynomial` entries, and gives
   * station i polynomial i exactly when i is below both counts.
   */
  lemma AttachedProperties(p: seq<Station>, polys: seq<PolySegment>)
    ensures var r := Attached(p, polys);
      && |r| == |p|
      && (forall i :: 0 <= i < |p| ==> r[i].(poly := p[i].poly) == p[i])
      && (forall i :: 0 <= i < |p| && i < |polys| ==> r[i].poly == Some(PolyOf(polys[i])))
      && (forall i :: |polys| <= i < |p| ==> r[i] == p[i])
  {
  }

  // ---------------------------------------------------------- the profile

  /**
   * _calculate_width_profile_simple as a table: the width entries of the
   * index-by-index pairing of _calculate_center_line, without the centre.
   */
  function AsStations(ws: seq<WidthSample>): seq<Station>
  {
    seq(|ws|, i requires 0 <= i < |ws| => Station(ws[i].s, ws[i].width, ws[i].left, ws[i].right, None, None))
  }

  /** What _calculate_width_profile_simple returns, or the IndexError of its look-ahead. */
  function SimpleProfile(lib: Libm, precision: int, left: seq<Point>, right: seq<Point>): Result<seq<Station>>
  {
    var t := PairUp(lib, precision, left, right);
    if t.Err? then Err(t.error) else Ok(AsStations(t.value.1))
  }

  /** Row i of the simple profile. */
  lemma SimpleRow(lib: Libm, precision: int, left: seq<Point>, right: seq<Point>, i: nat)
    requires i < MinInt(|left|, |right|)
    ensures AsStations(Table(lib, precision, left, right))[i]
         == Station(PathLength(lib, Centers(left, right)[..i + 1]), PairWidth(lib, precision, left[i], right[i]), left[i], right[i], None, None)
  {
  }

  /** _calculate_width_profile_simple. */
  method CalculateWidthProfileSimple(lib: Libm, precision: int, left: seq<Point>, right: seq<Point>)
    returns (r: Result<seq<Station>>)
    ensures r == SimpleProfile(lib, precision, left, right)
  {
    var n := MinInt(|left|, |right|);
    ghost var c := Centers(left, right);
    ghost var table := AsStations(Table(lib, precision, left, right));
    var profile: seq<Station> := [];
    var s := 0.0;
    for i := 0 to n
      invariant profile == table[..i]
      invariant i < n ==> s == PathLength(lib, c[..i + 1])
      invariant 1 <= |right| < |left| ==> i < n
    {
      SimpleRow(lib, precision, left, right, i);
      assert table[..i + 1] == table[..i] + [table[i]];
      profile := profile + [Station(s, PairWidth(lib, precision, left[i], right[i]), left[i], right[i], None, None)];
      if i < |left| - 1 {
        if i + 1 >= |right| {
          return Err(IndexError);
        }
        var here := Midpoint(left[i], right[i]);
        var next := Midpoint(left[i + 1], right[i + 1]);
        PathLengthSnoc(lib, c, i);
        s := s + Dist(lib, here, next);
      }
    }
    assert table[..n] == table;
    return Ok(profile);
  }

  /**
   * The simple profile fails exactly when the right side is shorter but
   * not empty; otherwise it has one station per pair, whose width is the
   * pair's rounded distance, whose s starts at 0 and grows by the distance
   * between consecutive pair midpoints, and which carries no reference pose
   * and no polynomial.
   */
  lemma SimpleProfileProperties(lib: Libm, precision: int, left: seq<Point>, right: seq<Point>)
    ensures var r := SimpleProfile(lib, precision, left, right);
      && (r.Err? <==> 1 <= |right| < |left|)
      && (r.Err? ==> r.error == IndexError)
      && (r.Ok? ==>
            var p := r.value;
            && |p| == MinInt(|left|, |right|)
            && (forall i :: 0 <= i < |p| ==>
                  && p[i].left == left[i] && p[i].right == right[i]
                  && p[i].width == lib.roundTo(Dist(lib, right[i], left[i]), precision)
                  && p[i].reference.None? && p[i].poly.None?)
            && (|p| > 0 ==> p[0].s == 0.0)
            && (forall i :: 0 <= i < |p| - 1 ==>
                  p[i + 1].s == p[i].s + Dist(lib, Midpoint(left[i], right[i]), Midpoint(left[i + 1], right[i + 1]))))
  {
    PairUpProperties(lib, precision, left, right);
  }

  /** The two boundaries brought to a common point count when their counts differ. */
  function Equalized(lib: Libm, left: seq<Point>, right: seq<Point>): Result<(seq<Point>, seq<Point>)>
  {
    if |left| == |right| then Ok((left, right))
    else
      var target := MaxInt(|left|, |right|);
      var l := Interpolated(lib, left, target);
      if l.Err? then Err(l.error)
      else
        var r := Interpolated(lib, right, target);
        if r.Err? then Err(r.error) else Ok((l.value, r.value))
  }

  /** The stations measured along a non-empty reference line, before smoothing. */
  function MeasuredProfile<Seg>(lib: Libm, precision: int, left: seq<Point>, right: seq<Point>,
                                segs: seq<Seg>, length: Seg -> real, refAt: (seq<Seg>, real) -> Pose): seq<Station>
  {
    var total := SegmentsLength(segs, length);
    var n := NumSamples(total, MinInt(|left|, |right|));
    RawProfile(s => refAt(segs, s), Measure(lib, precision, left, right), SampleInterval(total, n), MaxInt(n, 0))
  }

  /** The stations smoothed when there are more than three, with their polynomials attached. */
  function Finished(p: seq<Station>): Result<seq<Station>>
  {
    var smoothed := if |p| > 3 then SmoothedProfile(p) else p;
    var polys := CubicCoefficients(smoothed);
    if polys.Err? then Err(polys.error) else Ok(Attached(smoothed, polys.value))
  }

  /** What _calculate_width_profile returns, or the error it raises. */
  function WidthProfileOf<Seg>(lib: Libm, precision: int, left: seq<Point>, right: seq<Point>, segs: seq<Seg>,
                               length: Seg -> real, reconstruct: seq<Seg> -> seq<Point>,
                               refAt: (seq<Seg>, real) -> Pose): Result<seq<Station>>
  {
    var e := Equalized(lib, left, right);
    if e.Err? then Err(e.error)
    else
      var (l, r) := e.value;
      if reconstruct(segs) == [] then SimpleProfile(lib, precision, l, r)
      else Finished(MeasuredProfile(lib, precision, l, r, segs, length, refAt))
  }

  /** _calculate_width_profile. */
  method CalculateWidthProfile<Seg>(lib: Libm, precision: int, left: seq<Point>, right: seq<Point>, segs: seq<Seg>,
                                    length: Seg -> real, reconstruct: seq<Seg> -> seq<Point>,
                                    refAt: (seq<Seg>, real) -> Pose)
    returns (r: Result<seq<Station>>)
    ensures r == WidthProfileOf(lib, precision, left, right, segs, length, reconstruct, refAt)
  {
    var l, rt := left, right;
    if |left| != |right| {
      var target := MaxInt(|left|, |right|);
      var li := InterpolateCoordinates(lib, left, target);
      if li.Err? {
        return Err(li.error);
      }
      var ri := InterpolateCoordinates(lib, right, target);
      if ri.Err? {
        return Err(ri.error);
      }
      l, rt := li.value, ri.value;
    }
    if reconstruct(segs) == [] {
      r := CalculateWidthProfileSimple(lib, precision, l, rt);
      return;
    }
    var total := SegmentsLength(segs, length);
    var n := NumSamples(total, MinInt(|l|, |rt|));
    var raw := SampleStations(lib, precision, l, rt, s => refAt(segs, s), SampleInterval(total, n), MaxInt(n, 0));
    r := FinishProfile(raw);
  }

  /** Smoothing, fitting and attaching, on an array of the stations. */
  method FinishProfile(raw: seq<Station>) returns (r: Result<seq<Station>>)
    ensures r == Finished(raw)
  {
    var profile := new Station[|raw|](i requires 0 <= i < |raw| => raw[i]);
    assert profile[..] == raw;
    if profile.Length > 3 {
      SmoothWidthProfileBezier(profile);
    }
    var polys := CalculateCubicPolynomialCoefficients(profile[..]);
    if polys.Err? {
      return Err(polys.error);
    }
    AttachPolynomials(profile, polys.value);
    return Ok(profile[..]);
  }

  // -------------------------------------------------------------- promises

  /**
   * Stations of strictly increasing s always get their polynomials, and
   * smoothing and attaching keep each station's s and reference pose.
   */
  lemma FinishedIncreasing(p: seq<Station>)
    requires SIncreasing(p)
    ensures var r := Finished(p);
      && r.Ok? && |r.value| == |p|
      && forall i :: 0 <= i < |p| ==> r.value[i].s == p[i].s && r.value[i].reference == p[i].reference
  {
    var smoothed := if |p| > 3 then SmoothedProfile(p) else p;
    if |p| > 3 {
      SmoothedIncreasing(p);
      SmoothedProfileProperties(p);
    }
    CubicCoefficientsProperties(smoothed);
    AttachedProperties(smoothed, CubicCoefficients(smoothed).value);
  }

  /**
   * Along a non-empty reference line of positive length, with boundaries
   * of equal length or resampled without error, the profile is produced:
   * exactly num_samples stations (at most 20, no more than the shorter
   * boundary has points), station i at s = i * sample_interval, strictly
   * increasing in s, each carrying its reference pose.
   */
  lemma WidthProfileMeasured<Seg>(lib: Libm, precision: int, left: seq<Point>, right: seq<Point>, segs: seq<Seg>,
                                  length: Seg -> real, reconstruct: seq<Seg> -> seq<Point>,
                                  refAt: (seq<Seg>, real) -> Pose)
    requires Equalized(lib, left, right).Ok? && reconstruct(segs) != [] && SegmentsLength(segs, length) > 0.0
    ensures var r := WidthProfileOf(lib, precision, left, right, segs, length, reconstruct, refAt);
      var (l, rt) := Equalized(lib, left, right).value;
      var total := SegmentsLength(segs, length);
      var n := NumSamples(total, MinInt(|l|, |rt|));
      && r.Ok?
      && |r.value| == MaxInt(n, 0)
      && |r.value| <= 20 && |r.value| <= MinInt(|l|, |rt|)
      && (forall i :: 0 <= i < |r.value| ==>
            r.value[i].s == SampleS(i, SampleInterval(total, n))
            && r.value[i].reference == Some(refAt(segs, r.value[i].s)))
      && SIncreasing(r.value)
  {
    var (l, rt) := Equalized(lib, left, right).value;
    var raw := MeasuredProfile(lib, precision, l, rt, segs, length, refAt);
    MeasuredProfileProperties(lib, precision, l, rt, segs, length, refAt);
    FinishedIncreasing(raw);
    assert WidthProfileOf(lib, precision, left, right, segs, length, reconstruct, refAt) == Finished(raw);
  }

  /**
   * Measured along segments of positive length, there are exactly
   * num_samples stations (at most 20, no more than the shorter boundary has
   * points); station i sits at s = i * sample_interval and carries the
   * reference pose found there, and the s strictly increase.
   */
  lemma MeasuredProfileProperties<Seg>(lib: Libm, precision: int, left: seq<Point>, right: seq<Point>,
                                       segs: seq<Seg>, length: Seg -> real, refAt: (seq<Seg>, real) -> Pose)
    requires SegmentsLength(segs, length) > 0.0
    ensures var r := MeasuredProfile(lib, precision, left, right, segs, length, refAt);
      var total := SegmentsLength(segs, length);
      var n := NumSamples(total, MinInt(|left|, |right|));
      && |r| == MaxInt(n, 0)
      && |r| <= 20 && |r| <= MinInt(|left|, |right|)
      && (forall i :: 0 <= i < |r| ==>
            r[i].s == SampleS(i, SampleInterval(total, n)) && r[i].reference == Some(refAt(segs, r[i].s)))
      && SIncreasing(r)
  {
    var total := SegmentsLength(segs, length);
    var n := NumSamples(total, MinInt(|left|, |right|));
    var interval := SampleInterval(total, n);
    NumSamplesBounds(total, MinInt(|left|, |right|));
    MeasureRecords(lib, precision, left, right);
    RawProfileStations(s => refAt(segs, s), Measure(lib, precision, left, right), interval, MaxInt(n, 0));
    if n > 1 {
      IntervalPositive(total, n);
      RawProfileIncreasing(s => refAt(segs, s), Measure(lib, precision, left, right), interval, n);
    }
  }

  /**
   * The profile fails only with ZeroDivisionError (resampling) or
   * IndexError (the simple profile's look-ahead).
   */
  lemma WidthProfileErrors<Seg>(lib: Libm, precision: int, left: seq<Point>, right: seq<Point>, segs: seq<Seg>,
                                length: Seg -> real, reconstruct: seq<Seg> -> seq<Point>,
                                refAt: (seq<Seg>, real) -> Pose)
    ensures var r := WidthProfileOf(lib, precision, left, right, segs, length, reconstruct, refAt);
      r.Err? ==> r.error == ZeroDivision || r.error == IndexError
  {
    if |left| != |right| {
      var target := MaxInt(|left|, |right|);
      InterpolatedErrors(lib, left, target);
      InterpolatedErrors(lib, right, target);
    }
    var e := Equalized(lib, left, right);
    if e.Ok? && reconstruct(segs) != [] {
      var (l, rt) := e.value;
      FinishedErrors(MeasuredProfile(lib, precision, l, rt, segs, length, refAt));
    }
  }

  /** Smoothing, fitting and attaching fail only with ZeroDivisionError. */
  lemma FinishedErrors(p: seq<Station>)
    ensures Finished(p).Err? ==> Finished(p).error == ZeroDivision
  {
    var smoothed := if |p| > 3 then SmoothedProfile(p) else p;
    CubicCoefficientsErrors(smoothed);
  }
}
