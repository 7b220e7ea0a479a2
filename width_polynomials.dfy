// The lane-width post-processing of the current GeometryConverter
// (SoftwareCopyright/shp2opendrive/geometry_converter.py): the width
// stations of a lane surface are smoothed (_bezier_smooth,
// _smooth_width_profile_bezier), thinned (_simplify_width_profile,
// _is_local_extremum) and turned into one cubic width polynomial
// a + b*ds + c*ds^2 + d*ds^3 per interval
// (_calculate_cubic_polynomial_coefficients), the lane `width` record of
// ASAM OpenDRIVE 1.7 section 9 (Lanes).

module WidthPolynomials {
  import opened Common
  import opened Seqs

  /** A reference point on the centre line with its heading. */
  datatype Pose = Pose(point: Point, heading: real)

  /** The `polynomial` entry attached to a width station. */
  datatype Poly = Poly(a: real, b: real, c: real, d: real, length: real)

  /**
   * One entry of the width profile: s, width, left_point, right_point, the
   * reference pose (absent in the simple profile) and the attached polynomial.
   */
  datatype Station = Station(s: real, width: real, left: Point, right: Point, reference: Option<Pose>, poly: Option<Poly>)

  /** A polynomial segment: start s, length ds, coefficients, end s and the two end widths. */
  datatype PolySegment = PolySegment(s: real, length: real, a: real, b: real, c: real, d: real,
                                     endS: real, startWidth: real, endWidth: real)

  /** _simplify_width_profile's default width_threshold. */
  const WidthThreshold: real := 0.02

  /** The s of the stations strictly increase. */
  ghost predicate SIncreasing(p: seq<Station>)
  {
    forall i, j :: 0 <= i < j < |p| ==> p[i].s < p[j].s
  }

  // ---------------------------------------------------------------- simplify

  /** _is_local_extremum: an interior station strictly above or strictly below both neighbours. */
  predicate IsLocalExtremum(p: seq<Station>, i: int)
  {
    if i <= 0 || i >= |p| - 1 then false
    else
      var current := p[i].width;
      var prev := p[i - 1].width;
      var next := p[i + 1].width;
      (current > prev && current > next) || (current < prev && current < next)
  }

  /**
   * An interior station is kept when its width differs from the last kept
   * one, or from the next station's, by more than the threshold, or when it
   * is a local extremum.
   */
  predicate KeepsStation(p: seq<Station>, i: int, lastKept: real)
    requires 0 <= i < |p| - 1
  {
    || Abs(p[i].width - lastKept) > WidthThreshold
    || Abs(p[i + 1].width - p[i].width) > WidthThreshold
    || IsLocalExtremum(p, i)
  }

  /** The stations kept after the first k - 1 interior stations were examined. */
  function Kept(p: seq<Station>, k: nat): (r: seq<Station>)
    requires 1 <= k < |p|
    ensures 1 <= |r| <= k
  {
    if k == 1 then [p[0]]
    else
      var acc := Kept(p, k - 1);
      if KeepsStation(p, k - 1, acc[|acc| - 1].width) then acc + [p[k - 1]] else acc
  }

  /** What _simplify_width_profile returns. */
  function SimplifiedProfile(p: seq<Station>): seq<Station>
  {
    if |p| <= 2 then p else Kept(p, |p| - 1) + [p[|p| - 1]]
  }

  /** _simplify_width_profile. */
  method SimplifyWidthProfile(p: seq<Station>) returns (r: seq<Station>)
    ensures r == SimplifiedProfile(p)
  {
    if |p| <= 2 {
      return p;
    }
    r := [p[0]];
    for i := 1 to |p| - 1
      invariant r == Kept(p, i)
    {
      var current := p[i].width;
      var prev := r[|r| - 1].width;
      var next := p[i + 1].width;
      if Abs(current - prev) > WidthThreshold || Abs(next - current) > WidthThreshold || IsLocalExtremum(p, i) {
        r := r + [p[i]];
      }
    }
    r := r + [p[|p| - 1]];
  }

  /**
   * The kept prefix starts with the first station, is taken in order from
   * the stations examined, and holds every examined station that is a local
   * extremum or differs from its successor by more than the threshold.
   */
  lemma {:induction false} KeptProperties(p: seq<Station>, k: nat)
    requires 1 <= k < |p|
    ensures var r := Kept(p, k);
      && r[0] == p[0]
      && Subseq(r, p[..k])
      && (forall i :: 1 <= i < k && (IsLocalExtremum(p, i) || Abs(p[i + 1].width - p[i].width) > WidthThreshold) ==> p[i] in r)
  {
    if k == 1 {
      assert p[..1] == [p[0]];
      SubseqRefl([p[0]]);
    } else {
      KeptProperties(p, k - 1);
      var acc := Kept(p, k - 1);
      assert p[..k] == p[..k - 1] + [p[k - 1]];
      if KeepsStation(p, k - 1, acc[|acc| - 1].width) {
        SubseqSnoc(acc, p[..k - 1], p[k - 1]);
      } else {
        SubseqExtend(acc, p[..k - 1], [p[k - 1]]);
      }
    }
  }

  /**
   * _simplify_width_profile returns two or fewer stations unchanged; a
   * longer profile keeps its first and last station, keeps the others in
   * order, and never drops a strict local extremum or a station whose width
   * differs from the next one's by more than the threshold.
   */
  lemma SimplifiedProfileProperties(p: seq<Station>)
    ensures var r := SimplifiedProfile(p);
      && (|p| <= 2 ==> r == p)
      && (|p| >= 3 ==> 2 <= |r| <= |p| && r[0] == p[0] && r[|r| - 1] == p[|p| - 1])
      && Subseq(r, p)
      && (forall i :: 1 <= i < |p| - 1 && (IsLocalExtremum(p, i) || Abs(p[i + 1].width - p[i].width) > WidthThreshold) ==> p[i] in r)
  {
    if |p| <= 2 {
      SubseqRefl(p);
    } else {
      var n := |p|;
      KeptProperties(p, n - 1);
      SubseqSnoc(Kept(p, n - 1), p[..n - 1], p[n - 1]);
      assert p[..n - 1] + [p[n - 1]] == p;
      SubseqLength(SimplifiedProfile(p), p);
    }
  }

  /** Two or more stations simplify to two or more. */
  lemma SimplifiedAtLeastTwo(p: seq<Station>)
    requires |p| >= 2
    ensures |SimplifiedProfile(p)| >= 2
  {
  }

  /** Kept stations of increasing s have increasing s, all below the next station's. */
  lemma {:induction false} KeptIncreasing(p: seq<Station>, k: nat)
    requires SIncreasing(p) && 1 <= k < |p|
    ensures var r := Kept(p, k); SIncreasing(r) && r[|r| - 1].s < p[k].s
  {
    if k > 1 {
      KeptIncreasing(p, k - 1);
    }
  }

  /** Simplification keeps s strictly increasing. */
  lemma SimplifiedIncreasing(p: seq<Station>)
    requires SIncreasing(p)
    ensures SIncreasing(SimplifiedProfile(p))
  {
    if |p| > 2 {
      KeptIncreasing(p, |p| - 1);
    }
  }

  // ---------------------------------------------------------------- cubics

  /** x / y, or Python's ZeroDivisionError. */
  function Div(x: real, y: real): Result<real>
  {
    if y == 0.0 then Err(ZeroDivision) else Ok(x / y)
  }

  /**
   * dw0 for interval i: the secant over the first interval at i = 0 (0 for
   * a two-station profile), otherwise the secant from station i - 1 to i + 1.
   */
  function StartSlope(q: seq<Station>, i: nat): Result<real>
    requires i < |q| - 1
  {
    if i == 0 then
      (if |q| > 2 then Div(q[1].width - q[0].width, q[1].s - q[0].s) else Ok(0.0))
    else Div(q[i + 1].width - q[i - 1].width, q[i + 1].s - q[i - 1].s)
  }

  /**
   * dw1 for interval i: the secant over the last interval at i = |q| - 2 (0
   * for a two-station profile), otherwise the secant from station i to i + 2.
   */
  function EndSlope(q: seq<Station>, i: nat): Result<real>
    requires i < |q| - 1
  {
    if i == |q| - 2 then
      (if |q| > 2 then Div(q[i + 1].width - q[i].width, q[i + 1].s - q[i].s) else Ok(0.0))
    else Div(q[i + 2].width - q[i].width, q[i + 2].s - q[i].s)
  }

  /** The Hermite cubic's c for end values w0, w1, end slopes dw0, dw1 over length ds. */
  function HermiteC(w0: real, w1: real, dw0: real, dw1: real, ds: real): real
    requires ds != 0.0
  {
    (3.0 * (w1 - w0) / ds - 2.0 * dw0 - dw1) / ds
  }

  /** The Hermite cubic's d. */
  function HermiteD(w0: real, w1: real, dw0: real, dw1: real, ds: real): real
    requires ds != 0.0
  {
    (2.0 * (w0 - w1) / ds + dw0 + dw1) / (ds * ds)
  }

  /** The polynomial of interval i: none when the interval does not advance s. */
  function PairPoly(q: seq<Station>, i: nat): Result<Option<PolySegment>>
    requires i < |q| - 1
  {
    var ds := q[i + 1].s - q[i].s;
    if ds <= 0.0 then Ok(None)
    else
      var dw0 := StartSlope(q, i);
      if dw0.Err? then Err(dw0.error)
      else
        var dw1 := EndSlope(q, i);
        if dw1.Err? then Err(dw1.error)
        else
          var w0 := q[i].width;
          var w1 := q[i + 1].width;
          Ok(Some(PolySegment(q[i].s, ds, w0, dw0.value, HermiteC(w0, w1, dw0.value, dw1.value, ds),
                              HermiteD(w0, w1, dw0.value, dw1.value, ds), q[i + 1].s, w0, w1)))
  }

  /** The polynomials of the first k intervals, or the first error among them. */
  function PolysUpTo(q: seq<Station>, k: nat): Result<seq<PolySegment>>
    requires k < |q| || k == 0
  {
    if k == 0 then Ok([])
    else
      var prev := PolysUpTo(q, k - 1);
      if prev.Err? then prev
      else
        var pp := PairPoly(q, k - 1);
        if pp.Err? then Err(pp.error)
        else if pp.value.None? then prev
        else Ok(prev.value + [pp.value.value])
  }

  /** What _calculate_cubic_polynomial_coefficients returns. */
  function CubicCoefficients(p: seq<Station>): Result<seq<PolySegment>>
  {
    if |p| < 2 then Ok([])
    else
      var q := SimplifiedProfile(p);
      PolysUpTo(q, |q| - 1)
  }

  /** The body of the coefficient loop for interval i. */
  method PairCoefficients(q: seq<Station>, i: nat) returns (r: Result<Option<PolySegment>>)
    requires i < |q| - 1
    ensures r == PairPoly(q, i)
  {
    var s0 := q[i].s;
    var s1 := q[i + 1].s;
    var w0 := q[i].width;
    var w1 := q[i + 1].width;
    var ds := s1 - s0;
    if ds <= 0.0 {
      return Ok(None);
    }
    var dw0: real;
    if i == 0 {
      if |q| > 2 {
        if q[i + 1].s - s0 == 0.0 {
          return Err(ZeroDivision);
        }
        dw0 := (q[i + 1].width - w0) / (q[i + 1].s - s0);
      } else {
        dw0 := 0.0;
      }
    } else {
      if s1 - q[i - 1].s == 0.0 {
        return Err(ZeroDivision);
      }
      dw0 := (w1 - q[i - 1].width) / (s1 - q[i - 1].s);
    }
    var dw1: real;
    if i == |q| - 2 {
      if |q| > 2 {
        dw1 := (w1 - q[i].width) / (s1 - q[i].s);
      } else {
        dw1 := 0.0;
      }
    } else {
      if q[i + 2].s - s0 == 0.0 {
        return Err(ZeroDivision);
      }
      dw1 := (q[i + 2].width - w0) / (q[i + 2].s - s0);
    }
    assert StartSlope(q, i) == Ok(dw0);
    assert EndSlope(q, i) == Ok(dw1);
    var c := HermiteC(w0, w1, dw0, dw1, ds);
    var d := HermiteD(w0, w1, dw0, dw1, ds);
    return Ok(Some(PolySegment(s0, ds, w0, dw0, c, d, s1, w0, w1)));
  }

  /** One more interval: an error ends the run, a skipped interval adds nothing, a polynomial is appended. */
  lemma PolysNext(q: seq<Station>, i: nat, segs: seq<PolySegment>)
    requires i < |q| - 1 && PolysUpTo(q, i) == Ok(segs)
    ensures var pp := PairPoly(q, i);
      PolysUpTo(q, i + 1) ==
        if pp.Err? then Err(pp.error) else if pp.value.None? then Ok(segs) else Ok(segs + [pp.value.value])
  {
  }

  /** Once an interval fails, every longer run fails with the same error. */
  lemma {:induction false} PolysErrSticks(q: seq<Station>, j: nat, k: nat)
    requires j <= k && (k < |q| || k == 0) && PolysUpTo(q, j).Err?
    ensures PolysUpTo(q, k) == PolysUpTo(q, j)
    decreases k
  {
    if j < k {
      PolysErrSticks(q, j, k - 1);
    }
  }

  /** The only error the polynomials raise is a division by zero. */
  lemma {:induction false} PolysErrors(q: seq<Station>, k: nat)
    requires k < |q| || k == 0
    ensures PolysUpTo(q, k).Err? ==> PolysUpTo(q, k).error == ZeroDivision
  {
    if k > 0 {
      PolysErrors(q, k - 1);
    }
  }

  /** _calculate_cubic_polynomial_coefficients fails only with ZeroDivisionError. */
  lemma CubicCoefficientsErrors(p: seq<Station>)
    ensures CubicCoefficients(p).Err? ==> CubicCoefficients(p).error == ZeroDivision
  {
    if |p| >= 2 {
      SimplifiedAtLeastTwo(p);
      PolysErrors(SimplifiedProfile(p), |SimplifiedProfile(p)| - 1);
    }
  }

  /** _calculate_cubic_polynomial_coefficients. */
  method CalculateCubicPolynomialCoefficients(p: seq<Station>) returns (r: Result<seq<PolySegment>>)
    ensures r == CubicCoefficients(p)
  {
    if |p| < 2 {
      return Ok([]);
    }
    var q := SimplifyWidthProfile(p);
    SimplifiedAtLeastTwo(p);
    var segs: seq<PolySegment> := [];
    for i := 0 to |q| - 1
      invariant PolysUpTo(q, i) == Ok(segs)
    {
      var pp := PairCoefficients(q, i);
      PolysNext(q, i, segs);
      if pp.Err? {
        PolysErrSticks(q, i + 1, |q| - 1);
        return Err(pp.error);
      }
      if pp.value.Some? {
        segs := segs + [pp.value.value];
      }
    }
    return Ok(segs);
  }

  /** The width of a polynomial segment at distance t from its start. */
  function Eval(seg: PolySegment, t: real): real
  {
    seg.a + seg.b * t + seg.c * t * t + seg.d * t * t * t
  }

  /** The slope of a polynomial segment at distance t from its start. */
  function SlopeAt(seg: PolySegment, t: real): real
  {
    seg.b + 2.0 * seg.c * t + 3.0 * seg.d * t * t
  }

  /** c * ds and d * ds^2 in terms of the secant slope q = (w1 - w0) / ds. */
  lemma HermiteScaled(w0: real, w1: real, dw0: real, dw1: real, ds: real)
    requires ds != 0.0
    ensures var q := (w1 - w0) / ds;
      && q * ds == w1 - w0
      && HermiteC(w0, w1, dw0, dw1, ds) * ds == 3.0 * q - 2.0 * dw0 - dw1
      && HermiteD(w0, w1, dw0, dw1, ds) * (ds * ds) == -2.0 * q + dw0 + dw1
  {
    var q := (w1 - w0) / ds;
    assert 3.0 * (w1 - w0) / ds == 3.0 * q;
    assert 2.0 * (w0 - w1) / ds == -2.0 * q;
  }

  /** A cubic whose scaled coefficients are cds = c*ds and dds = d*ds^2. */
  lemma CubicAtEnd(a: real, b: real, c: real, d: real, ds: real, cds: real, dds: real)
    requires c * ds == cds && d * (ds * ds) == dds
    ensures a + b * ds + c * ds * ds + d * ds * ds * ds == a + (b + cds + dds) * ds
    ensures b + 2.0 * c * ds + 3.0 * d * ds * ds == b + 2.0 * cds + 3.0 * dds
  {
    assert c * ds * ds == cds * ds;
    assert d * ds * ds * ds == dds * ds;
    assert d * ds * ds == dds;
  }

  /**
   * The Hermite cubic meets its end conditions: it starts at w0 with slope
   * dw0 and ends, after ds, at w1 with slope dw1.
   */
  lemma HermiteEnds(w0: real, w1: real, dw0: real, dw1: real, ds: real)
    requires ds != 0.0
    ensures var c := HermiteC(w0, w1, dw0, dw1, ds);
      var d := HermiteD(w0, w1, dw0, dw1, ds);
      && w0 + dw0 * ds + c * ds * ds + d * ds * ds * ds == w1
      && dw0 + 2.0 * c * ds + 3.0 * d * ds * ds == dw1
  {
    var q := (w1 - w0) / ds;
    HermiteScaled(w0, w1, dw0, dw1, ds);
    CubicAtEnd(w0, dw0, HermiteC(w0, w1, dw0, dw1, ds), HermiteD(w0, w1, dw0, dw1, ds), ds,
               3.0 * q - 2.0 * dw0 - dw1, -2.0 * q + dw0 + dw1);
  }

  /**
   * The polynomial of interval i, when there is one, starts at station i's
   * width with slope dw0 and reaches station i + 1's width with slope dw1
   * after a positive length equal to the gap in s; there is none exactly
   * when the interval does not advance s.
   */
  lemma PairPolyProperties(q: seq<Station>, i: nat)
    requires i < |q| - 1
    ensures var pp := PairPoly(q, i);
      && (pp == Ok(None) <==> q[i + 1].s <= q[i].s)
      && (pp.Ok? && pp.value.Some? ==>
            var seg := pp.value.value;
            && seg.s == q[i].s && seg.endS == q[i + 1].s && seg.length == seg.endS - seg.s > 0.0
            && seg.a == seg.startWidth == q[i].width && seg.endWidth == q[i + 1].width
            && seg.b == StartSlope(q, i).value
            && Eval(seg, seg.length) == q[i + 1].width
            && SlopeAt(seg, seg.length) == EndSlope(q, i).value)
  {
    var pp := PairPoly(q, i);
    if pp.Ok? && pp.value.Some? {
      SegmentEnds(pp.value.value, EndSlope(q, i).value);
    }
  }

  /** A segment carrying the Hermite coefficients for end slope dw1 reaches its end width with slope dw1. */
  lemma SegmentEnds(seg: PolySegment, dw1: real)
    requires seg.length != 0.0
    requires seg.c == HermiteC(seg.a, seg.endWidth, seg.b, dw1, seg.length)
    requires seg.d == HermiteD(seg.a, seg.endWidth, seg.b, dw1, seg.length)
    ensures Eval(seg, seg.length) == seg.endWidth && SlopeAt(seg, seg.length) == dw1
  {
    HermiteEnds(seg.a, seg.endWidth, seg.b, dw1, seg.length);
  }

  /** With strictly increasing s every interval has a polynomial. */
  lemma PairPolyDefined(q: seq<Station>, i: nat)
    requires SIncreasing(q) && i < |q| - 1
    ensures PairPoly(q, i).Ok? && PairPoly(q, i).value.Some?
  {
    assert q[i].s < q[i + 1].s;
    if i > 0 {
      assert q[i - 1].s < q[i + 1].s;
    }
    if i < |q| - 2 {
      assert q[i].s < q[i + 2].s;
    }
  }

  /** With strictly increasing s the first k intervals give exactly k polynomials, in order. */
  lemma {:induction false} PolysAll(q: seq<Station>, k: nat)
    requires SIncreasing(q) && k < |q|
    ensures var r := PolysUpTo(q, k);
      && r.Ok? && |r.value| == k
      && forall i :: 0 <= i < k ==> PairPoly(q, i) == Ok(Some(r.value[i]))
  {
    if k > 0 {
      PolysAll(q, k - 1);
      PairPolyDefined(q, k - 1);
    }
  }

  /**
   * Consecutive polynomials of an increasing profile join smoothly: each
   * ends where the next starts, at the next one's start width, with the
   * next one's start slope.
   */
  lemma PolysJoin(q: seq<Station>, i: nat)
    requires SIncreasing(q) && i + 2 < |q|
    ensures var p0 := PairPoly(q, i).value.value;
      var p1 := PairPoly(q, i + 1).value.value;
      && p0.endS == p1.s
      && Eval(p0, p0.length) == p1.a
      && SlopeAt(p0, p0.length) == p1.b
  {
    PairPolyDefined(q, i);
    PairPolyDefined(q, i + 1);
    PairPolyProperties(q, i);
    PairPolyProperties(q, i + 1);
  }

  /**
   * _calculate_cubic_polynomial_coefficients yields nothing for fewer than
   * two stations. For two or more stations of strictly increasing s it
   * yields one polynomial per interval of the simplified profile, covering
   * s from the first station to the last without gaps, each reaching its end
   * width, consecutive ones joining in value and slope.
   */
  lemma CubicCoefficientsProperties(p: seq<Station>)
    ensures |p| < 2 ==> CubicCoefficients(p) == Ok([])
    ensures SIncreasing(p) && |p| >= 2 ==>
      var r := CubicCoefficients(p);
      && r.Ok? && |r.value| == |SimplifiedProfile(p)| - 1 >= 1
      && r.value[0].s == p[0].s && r.value[|r.value| - 1].endS == p[|p| - 1].s
      && (forall i :: 0 <= i < |r.value| ==>
            r.value[i].a == r.value[i].startWidth && Eval(r.value[i], r.value[i].length) == r.value[i].endWidth)
      && (forall i :: 0 <= i < |r.value| - 1 ==>
            && r.value[i].endS == r.value[i + 1].s
            && Eval(r.value[i], r.value[i].length) == r.value[i + 1].a
            && SlopeAt(r.value[i], r.value[i].length) == r.value[i + 1].b)
  {
    if SIncreasing(p) && |p| >= 2 {
      var q := SimplifiedProfile(p);
      SimplifiedProfileProperties(p);
      SimplifiedIncreasing(p);
      PolysAll(q, |q| - 1);
      var r := PolysUpTo(q, |q| - 1).value;
      forall i | 0 <= i < |r|
        ensures r[i].a == r[i].startWidth && Eval(r[i], r[i].length) == r[i].endWidth
      {
        PairPolyProperties(q, i);
      }
      forall i | 0 <= i < |r| - 1
        ensures r[i].endS == r[i + 1].s
        ensures Eval(r[i], r[i].length) == r[i + 1].a
        ensures SlopeAt(r[i], r[i].length) == r[i + 1].b
      {
        PolysJoin(q, i);
      }
      PairPolyProperties(q, 0);
      PairPolyProperties(q, |q| - 2);
    }
  }

  // ---------------------------------------------------------------- bezier

  /**
   * The cubic Hermite blend at t = 0.5 of p1 and p2, with tangents
   * (p2 - p0) and (p3 - p1) scaled by the tension 0.5.
   */
  function HermiteBlend(p0: real, p1: real, p2: real, p3: real): real
  {
    var tension := 0.5;
    var tangentIn := (p2 - p0) * tension;
    var tangentOut := (p3 - p1) * tension;
    var t := 0.5;
    var h1 := 2.0 * t * t * t - 3.0 * t * t + 1.0;
    var h2 := -2.0 * t * t * t + 3.0 * t * t;
    var h3 := t * t * t - 2.0 * t * t + t;
    var h4 := t * t * t - t * t;
    h1 * p1 + h2 * p2 + h3 * tangentIn + h4 * tangentOut
  }

  /** max(lo, min(hi, v)): the lower bound wins when the bounds cross. */
  function Clamp(lo: real, hi: real, v: real): real
  {
    Max(lo, Min(hi, v))
  }

  /**
   * The smoothed width of an interior station from its window p0..p3: the
   * Hermite blend clamped to [0.8 * min, 1.2 * max] of the window.
   */
  function BezierValue(p0: real, p1: real, p2: real, p3: real): real
  {
    Clamp(Min(Min(p0, p1), Min(p2, p3)) * 0.8, Max(Max(p0, p1), Max(p2, p3)) * 1.2, HermiteBlend(p0, p1, p2, p3))
  }

  /** Entry i of _bezier_smooth's result: the ends kept, an interior width smoothed over its window. */
  function SmoothedAt(w: seq<real>, i: nat): real
    requires i < |w|
  {
    if i == 0 || i == |w| - 1 then w[i]
    else BezierValue(w[MaxInt(0, i - 1)], w[i], w[MinInt(|w| - 1, i + 1)], w[MinInt(|w| - 1, i + 2)])
  }

  /** What _bezier_smooth returns. */
  function BezierSmoothed(w: seq<real>): seq<real>
  {
    if |w| < 4 then w else seq(|w|, i requires 0 <= i < |w| => SmoothedAt(w, i))
  }

  /** _bezier_smooth (its s_values argument is unused by the source). */
  method BezierSmooth(w: seq<real>) returns (r: seq<real>)
    ensures r == BezierSmoothed(w)
  {
    if |w| < 4 {
      return w;
    }
    r := [];
    for i := 0 to |w|
      invariant |r| == i && forall k :: 0 <= k < i ==> r[k] == SmoothedAt(w, k)
    {
      if i == 0 || i == |w| - 1 {
        r := r + [w[i]];
      } else {
        var p0 := w[MaxInt(0, i - 1)];
        var p1 := w[i];
        var p2 := w[MinInt(|w| - 1, i + 1)];
        var p3 := w[MinInt(|w| - 1, i + 2)];
        r := r + [BezierValue(p0, p1, p2, p3)];
      }
    }
  }

  /**
   * A smoothed width is never below 0.8 times its window's minimum, never
   * above 1.2 times its maximum unless those bounds cross, and a window of
   * one non-negative width w smooths to w.
   */
  lemma BezierValueBounds(p0: real, p1: real, p2: real, p3: real)
    ensures var lo := Min(Min(p0, p1), Min(p2, p3)) * 0.8;
      var hi := Max(Max(p0, p1), Max(p2, p3)) * 1.2;
      var v := BezierValue(p0, p1, p2, p3);
      && lo <= v
      && (lo <= hi ==> v <= hi)
      && (p0 == p1 == p2 == p3 >= 0.0 ==> v == p1)
  {
    if p0 == p1 == p2 == p3 >= 0.0 {
      HermiteBlendConstant(p1);
    }
  }

  /** The blend of a constant window is that constant. */
  lemma HermiteBlendConstant(w: real)
    ensures HermiteBlend(w, w, w, w) == w
  {
  }

  /** The widths of a profile. */
  function WidthsOf(p: seq<Station>): seq<real>
  {
    seq(|p|, i requires 0 <= i < |p| => p[i].width)
  }

  /** What _smooth_width_profile_bezier leaves in the profile. */
  function SmoothedProfile(p: seq<Station>): seq<Station>
  {
    if |p| < 4 then p
    else
      var smoothed := BezierSmoothed(WidthsOf(p));
      seq(|p|, i requires 0 <= i < |p| => p[i].(width := Max(0.1, smoothed[i])))
  }

  /** _smooth_width_profile_bezier: overwrite each station's width in place. */
  method SmoothWidthProfileBezier(profile: array<Station>)
    modifies profile
    ensures profile[..] == SmoothedProfile(old(profile[..]))
  {
    if profile.Length < 4 {
      return;
    }
    ghost var before := profile[..];
    var smoothed := BezierSmooth(WidthsOf(profile[..]));
    OverwriteWidths(profile, smoothed);
    SmoothedProfileFrom(before, smoothed, profile[..]);
  }

  /** The loop of _smooth_width_profile_bezier: station i takes width max(0.1, smoothed[i]) while i is in range. */
  method OverwriteWidths(profile: array<Station>, smoothed: seq<real>)
    modifies profile
    ensures forall k :: 0 <= k < profile.Length ==>
      profile[k] == if k < |smoothed| then old(profile[k]).(width := Max(0.1, smoothed[k])) else old(profile[k])
  {
    for i := 0 to profile.Length
      invariant forall k :: 0 <= k < i ==>
        profile[k] == if k < |smoothed| then old(profile[k]).(width := Max(0.1, smoothed[k])) else old(profile[k])
      invariant forall k :: i <= k < profile.Length ==> profile[k] == old(profile[k])
    {
      if i < |smoothed| {
        profile[i] := profile[i].(width := Max(0.1, smoothed[i]));
      }
    }
  }

  /** A profile whose widths were overwritten from the smoothed widths is the smoothed profile. */
  lemma SmoothedProfileFrom(p: seq<Station>, smoothed: seq<real>, r: seq<Station>)
    requires |p| >= 4 && smoothed == BezierSmoothed(WidthsOf(p)) && |r| == |p|
    requires forall k :: 0 <= k < |p| ==> r[k] == if k < |smoothed| then p[k].(width := Max(0.1, smoothed[k])) else p[k]
    ensures r == SmoothedProfile(p)
  {
  }

  /**
   * Smoothing keeps the number of stations, their s and boundary points,
   * leaves fewer than four stations alone, keeps the end widths (raised to
   * at least 0.1) and makes every width at least 0.1.
   */
  lemma SmoothedProfileProperties(p: seq<Station>)
    ensures var r := SmoothedProfile(p);
      && |r| == |p|
      && (|p| < 4 ==> r == p)
      && (forall i :: 0 <= i < |p| ==> r[i].(width := p[i].width) == p[i])
      && (|p| >= 4 ==>
            && (forall i :: 0 <= i < |p| ==> r[i].width >= 0.1)
            && r[0].width == Max(0.1, p[0].width)
            && r[|p| - 1].width == Max(0.1, p[|p| - 1].width))
  {
  }

  /** A profile of one constant width of at least 0.1 is left unchanged by smoothing. */
  lemma SmoothedConstant(p: seq<Station>)
    requires forall i :: 0 <= i < |p| ==> p[i].width == p[0].width >= 0.1
    ensures SmoothedProfile(p) == p
  {
    if |p| >= 4 {
      var w := WidthsOf(p);
      var sm := BezierSmoothed(w);
      forall i | 0 <= i < |p|
        ensures sm[i] == p[0].width
      {
        SmoothedAtConstant(w, i, p[0].width);
      }
    }
  }

  /** Every entry of a smoothed constant non-negative sequence is that constant. */
  lemma SmoothedAtConstant(w: seq<real>, i: nat, c: real)
    requires i < |w| && c >= 0.0 && forall k :: 0 <= k < |w| ==> w[k] == c
    ensures SmoothedAt(w, i) == c
  {
    if 0 < i < |w| - 1 {
      BezierValueBounds(c, c, c, c);
    }
  }

  /** Smoothing keeps s strictly increasing. */
  lemma SmoothedIncreasing(p: seq<Station>)
    requires SIncreasing(p)
    ensures SIncreasing(SmoothedProfile(p))
  {
  }
}
