// Circular-arc fitting shared by both geometry converters: curve-run
// detection, the three-point circumcircle, a single `arc` record and the
// cursor loop of fit_arc_segments.

module Arcs {
  import opened Common
  import opened PlanView
  import opened Seqs

  /** math.radians(10): the turn below which a point no longer continues a curve. */
  function AngleThreshold(lib: Libm): real
  {
    10.0 * lib.pi / 180.0
  }

  /**
   * The turn at coords[i-1] in _detect_curve_segment: the absolute
   * difference of the headings of the steps into and out of it, folded to
   * 2*pi - diff when it exceeds pi.
   */
  function TurnAt(lib: Libm, coords: seq<Point>, i: nat): real
    requires 2 <= i < |coords|
  {
    var p1, p2, p3 := coords[i - 2], coords[i - 1], coords[i];
    var a1 := lib.atan2(p2.y - p1.y, p2.x - p1.x);
    var a2 := lib.atan2(p3.y - p2.y, p3.x - p2.x);
    var diff := Abs(a2 - a1);
    if diff > lib.pi then 2.0 * lib.pi - diff else diff
  }

  /**
   * The scan of _detect_curve_segment from point i on: the first i (up to
   * n-2) whose turn falls below the threshold ends the run at i-1; a run
   * that never straightens ends at n-1.
   */
  function CurveScan(lib: Libm, coords: seq<Point>, i: nat): (r: nat)
    requires 2 <= i <= |coords| - 1
    ensures i - 1 <= r <= |coords| - 1
    decreases |coords| - i
  {
    if i == |coords| - 1 then |coords| - 1
    else if TurnAt(lib, coords, i) < AngleThreshold(lib) then i - 1
    else CurveScan(lib, coords, i + 1)
  }

  /**
   * _detect_curve_segment: the index where the curve run starting at start
   * ends, always past start, so the caller's cursor advances.
   */
  function CurveEnd(lib: Libm, coords: seq<Point>, start: nat): (r: nat)
    ensures start + 1 <= r
    ensures start + 1 < |coords| ==> r <= |coords| - 1
  {
    if start + 2 >= |coords| then start + 1 else CurveScan(lib, coords, start + 2)
  }

  /**
   * A run ends at the first point whose turn is below 10 degrees: every
   * turn inside the run is at least the threshold, and a run that stops
   * before the last point stops because the next turn is below it.
   */
  lemma {:induction false} CurveScanIsFirstStraight(lib: Libm, coords: seq<Point>, i: nat)
    requires 2 <= i <= |coords| - 1
    ensures var r := CurveScan(lib, coords, i);
      && (forall j :: i <= j <= r && j < |coords| - 1 ==> TurnAt(lib, coords, j) >= AngleThreshold(lib))
      && (r < |coords| - 1 ==> r + 1 < |coords| - 1 && TurnAt(lib, coords, r + 1) < AngleThreshold(lib))
    decreases |coords| - i
  {
    if i < |coords| - 1 && TurnAt(lib, coords, i) >= AngleThreshold(lib) {
      CurveScanIsFirstStraight(lib, coords, i + 1);
    }
  }

  lemma CurveEndIsFirstStraight(lib: Libm, coords: seq<Point>, start: nat)
    requires start + 2 < |coords|
    ensures var r := CurveEnd(lib, coords, start);
      && (forall j :: start + 2 <= j <= r && j < |coords| - 1 ==> TurnAt(lib, coords, j) >= AngleThreshold(lib))
      && (r < |coords| - 1 ==> r + 1 < |coords| - 1 && TurnAt(lib, coords, r + 1) < AngleThreshold(lib))
  {
    CurveScanIsFirstStraight(lib, coords, start + 2);
  }

  /** _detect_curve_segment as the source writes it: an early exit from a scan. */
  method DetectCurveSegment(lib: Libm, coords: seq<Point>, start: nat) returns (r: nat)
    ensures r == CurveEnd(lib, coords, start)
  {
    if start + 2 >= |coords| {
      return start + 1;
    }
    var threshold := AngleThreshold(lib);
    var i := start + 2;
    while i < |coords| - 1
      invariant start + 2 <= i <= |coords| - 1
      invariant CurveScan(lib, coords, i) == CurveScan(lib, coords, start + 2)
    {
      if TurnAt(lib, coords, i) < threshold {
        return i - 1;
      }
      i := i + 1;
    }
    return |coords| - 1;
  }

  /** The weighted sum w1 * u1 + w2 * u2 + w3 * u3 that every term of _fit_circle's formula has the shape of. */
  function Weighted(w1: real, w2: real, w3: real, u1: real, u2: real, u3: real): real
  {
    w1 * u1 + w2 * u2 + w3 * u3
  }

  /** Twice the signed area spanned by the three points: d of _fit_circle. */
  function CircleDenominator(p1: Point, p2: Point, p3: Point): real
  {
    2.0 * Weighted(p1.x, p2.x, p3.x, p2.y - p3.y, p3.y - p1.y, p1.y - p2.y)
  }

  function SquaredNorm(p: Point): real
  {
    p.x * p.x + p.y * p.y
  }

  /** Numerators of the circumcentre coordinates in _fit_circle. */
  function CentreNumeratorX(p1: Point, p2: Point, p3: Point): real
  {
    Weighted(SquaredNorm(p1), SquaredNorm(p2), SquaredNorm(p3), p2.y - p3.y, p3.y - p1.y, p1.y - p2.y)
  }

  function CentreNumeratorY(p1: Point, p2: Point, p3: Point): real
  {
    Weighted(SquaredNorm(p1), SquaredNorm(p2), SquaredNorm(p3), p3.x - p2.x, p1.x - p3.x, p2.x - p1.x)
  }

  /** The circumcentre formula of _fit_circle; meaningful when d is not 0. */
  function Circumcentre(p1: Point, p2: Point, p3: Point): Point
    requires CircleDenominator(p1, p2, p3) != 0.0
  {
    var d := CircleDenominator(p1, p2, p3);
    Point(CentreNumeratorX(p1, p2, p3) / d, CentreNumeratorY(p1, p2, p3) / d)
  }

  lemma DivTimes(a: real, d: real)
    requires d != 0.0
    ensures (a / d) * d == a
  {
  }

  /** The centre is as far from p and q exactly when it lies on their perpendicular bisector. */
  lemma EquidistantIffBisector(c: Point, p: Point, q: Point)
    ensures Dist2(c, p) == Dist2(c, q) <==>
      2.0 * (q.x - p.x) * c.x + 2.0 * (q.y - p.y) * c.y == SquaredNorm(q) - SquaredNorm(p)
  {
    assert Dist2(c, p) - Dist2(c, q) ==
      SquaredNorm(p) - SquaredNorm(q) - 2.0 * (p.x - q.x) * c.x - 2.0 * (p.y - q.y) * c.y;
  }

  lemma CancelFactor(a: real, b: real, d: real)
    requires d != 0.0 && a * d == b * d
    ensures a == b
  {
    assert (a - b) * d == 0.0;
  }

  /**
   * The scaled bisector equation of p = (px, py) and q = (qx, qy): the point
   * (a / d, b / d) is as far from q as from p (see EquidistantFromNumerators),
   * sp and sq standing for the squared norms of p and q.
   */
  ghost predicate OnScaledBisector(px: real, py: real, qx: real, qy: real, a: real, b: real, d: real, sp: real, sq: real)
  {
    2.0 * (qx - px) * a + 2.0 * (qy - py) * b == (sq - sp) * d
  }

  /**
   * The polynomial identities behind the circumcentre, with the squared
   * norms s1..s3 kept abstract: the numerators and the denominator of
   * _fit_circle satisfy the scaled bisector equations of p1p2 and p1p3.
   */
  lemma BisectorIdentity12(x1: real, y1: real, x2: real, y2: real, x3: real, y3: real, s1: real, s2: real, s3: real)
    ensures OnScaledBisector(x1, y1, x2, y2,
      Weighted(s1, s2, s3, y2 - y3, y3 - y1, y1 - y2), Weighted(s1, s2, s3, x3 - x2, x1 - x3, x2 - x1),
      2.0 * Weighted(x1, x2, x3, y2 - y3, y3 - y1, y1 - y2), s1, s2)
  {
    var d0 := Weighted(x1, x2, x3, y2 - y3, y3 - y1, y1 - y2);
    assert (x2 - x1) * (y2 - y3) + (y2 - y1) * (x3 - x2) == -d0;
    assert (x2 - x1) * (y3 - y1) + (y2 - y1) * (x1 - x3) == d0;
    assert (x2 - x1) * (y1 - y2) + (y2 - y1) * (x2 - x1) == 0.0;
  }

  lemma BisectorIdentity13(x1: real, y1: real, x2: real, y2: real, x3: real, y3: real, s1: real, s2: real, s3: real)
    ensures OnScaledBisector(x1, y1, x3, y3,
      Weighted(s1, s2, s3, y2 - y3, y3 - y1, y1 - y2), Weighted(s1, s2, s3, x3 - x2, x1 - x3, x2 - x1),
      2.0 * Weighted(x1, x2, x3, y2 - y3, y3 - y1, y1 - y2), s1, s3)
  {
    var d0 := Weighted(x1, x2, x3, y2 - y3, y3 - y1, y1 - y2);
    assert (x3 - x1) * (y2 - y3) + (y3 - y1) * (x3 - x2) == -d0;
    assert (x3 - x1) * (y3 - y1) + (y3 - y1) * (x1 - x3) == 0.0;
    assert (x3 - x1) * (y1 - y2) + (y3 - y1) * (x2 - x1) == d0;
  }

  /** The bisector identity of p1p2, stated on the circumcentre's own terms. */
  lemma CentreOnBisector12(p1: Point, p2: Point, p3: Point)
    ensures OnScaledBisector(p1.x, p1.y, p2.x, p2.y, CentreNumeratorX(p1, p2, p3), CentreNumeratorY(p1, p2, p3),
      CircleDenominator(p1, p2, p3), SquaredNorm(p1), SquaredNorm(p2))
  {
    BisectorIdentity12(p1.x, p1.y, p2.x, p2.y, p3.x, p3.y, SquaredNorm(p1), SquaredNorm(p2), SquaredNorm(p3));
  }

  /** The bisector identity of p1p3, stated on the circumcentre's own terms. */
  lemma CentreOnBisector13(p1: Point, p2: Point, p3: Point)
    ensures OnScaledBisector(p1.x, p1.y, p3.x, p3.y, CentreNumeratorX(p1, p2, p3), CentreNumeratorY(p1, p2, p3),
      CircleDenominator(p1, p2, p3), SquaredNorm(p1), SquaredNorm(p3))
  {
    BisectorIdentity13(p1.x, p1.y, p2.x, p2.y, p3.x, p3.y, SquaredNorm(p1), SquaredNorm(p2), SquaredNorm(p3));
  }

  /** A point c with c.x * d == a and c.y * d == b lies on the bisector when the identity holds. */
  lemma OnBisectorFromScaled(c: Point, p: Point, q: Point, a: real, b: real, d: real, rhs: real)
    requires d != 0.0 && c.x * d == a && c.y * d == b
    requires 2.0 * (q.x - p.x) * a + 2.0 * (q.y - p.y) * b == rhs * d
    ensures 2.0 * (q.x - p.x) * c.x + 2.0 * (q.y - p.y) * c.y == rhs
  {
    var lhs := 2.0 * (q.x - p.x) * c.x + 2.0 * (q.y - p.y) * c.y;
    assert lhs * d == 2.0 * (q.x - p.x) * (c.x * d) + 2.0 * (q.y - p.y) * (c.y * d);
    CancelFactor(lhs, rhs, d);
  }

  /**
   * The point (a / d, b / d) is as far from q as from p when (a, b, d)
   * satisfy the scaled bisector equation of p and q.
   */
  lemma EquidistantFromNumerators(p: Point, q: Point, a: real, b: real, d: real)
    requires d != 0.0
    requires OnScaledBisector(p.x, p.y, q.x, q.y, a, b, d, SquaredNorm(p), SquaredNorm(q))
    ensures Dist2(Point(a / d, b / d), p) == Dist2(Point(a / d, b / d), q)
  {
    var c := Point(a / d, b / d);
    DivTimes(a, d);
    DivTimes(b, d);
    OnBisectorFromScaled(c, p, q, a, b, d, SquaredNorm(q) - SquaredNorm(p));
    EquidistantIffBisector(c, p, q);
  }

  /** The circumcentre is as far from p2 as from p1 ... */
  lemma CircumcentreEquidistant12(p1: Point, p2: Point, p3: Point)
    requires CircleDenominator(p1, p2, p3) != 0.0
    ensures Dist2(Circumcentre(p1, p2, p3), p1) == Dist2(Circumcentre(p1, p2, p3), p2)
  {
    CentreOnBisector12(p1, p2, p3);
    EquidistantFromNumerators(p1, p2,
      CentreNumeratorX(p1, p2, p3), CentreNumeratorY(p1, p2, p3), CircleDenominator(p1, p2, p3));
  }

  /** ... and as far from p3 as from p1. */
  lemma CircumcentreEquidistant13(p1: Point, p2: Point, p3: Point)
    requires CircleDenominator(p1, p2, p3) != 0.0
    ensures Dist2(Circumcentre(p1, p2, p3), p1) == Dist2(Circumcentre(p1, p2, p3), p3)
  {
    CentreOnBisector13(p1, p2, p3);
    EquidistantFromNumerators(p1, p3,
      CentreNumeratorX(p1, p2, p3), CentreNumeratorY(p1, p2, p3), CircleDenominator(p1, p2, p3));
  }

  /**
   * _fit_circle: the circle through the first, middle (len // 2) and last
   * points. The radius is None for fewer than three points or when
   * |d| < 1e-10 (the three points are nearly collinear); the centre is then
   * (0, 0). Otherwise the centre is the circumcentre and the radius its
   * distance to the first point.
   */
  function FitCircle(lib: Libm, coords: seq<Point>): (r: (Point, Option<real>))
    ensures |coords| < 3 ==> r == (Point(0.0, 0.0), None)
    ensures |coords| >= 3 ==>
      var p1, p2, p3 := coords[0], coords[|coords| / 2], coords[|coords| - 1];
      && (r.1.None? <==> Abs(CircleDenominator(p1, p2, p3)) < 1.0 / 10000000000.0)
      && (r.1.None? ==> r.0 == Point(0.0, 0.0))
      && (r.1.Some? ==> r.0 == Circumcentre(p1, p2, p3) && r.1.value == lib.sqrt(Dist2(r.0, p1)))
  {
    if |coords| < 3 then (Point(0.0, 0.0), None)
    else
      var p1, p2, p3 := coords[0], coords[|coords| / 2], coords[|coords| - 1];
      var d := CircleDenominator(p1, p2, p3);
      if Abs(d) < 1.0 / 10000000000.0 then (Point(0.0, 0.0), None)
      else
        var c := Circumcentre(p1, p2, p3);
        (c, Some(lib.sqrt(Dist2(c, p1))))
  }

  /** A fitted circle passes through the three points it was fitted to. */
  lemma FitCircleThroughPoints(lib: Libm, coords: seq<Point>)
    requires |coords| >= 3 && FitCircle(lib, coords).1.Some?
    ensures var c := FitCircle(lib, coords).0;
      var p1, p2, p3 := coords[0], coords[|coords| / 2], coords[|coords| - 1];
      Dist2(c, p1) == Dist2(c, p2) && Dist2(c, p1) == Dist2(c, p3)
  {
    var p1, p2, p3 := coords[0], coords[|coords| / 2], coords[|coords| - 1];
    CircumcentreEquidistant12(p1, p2, p3);
    CircumcentreEquidistant13(p1, p2, p3);
  }

  /**
   * The sweep of _fit_single_arc: end angle minus start angle around the
   * centre, normalised once into [-pi, pi] when it lies within 2*pi of it.
   */
  function Sweep(lib: Libm, centre: Point, first: Point, last: Point): real
  {
    var startAngle := lib.atan2(first.y - centre.y, first.x - centre.x);
    var endAngle := lib.atan2(last.y - centre.y, last.x - centre.x);
    var diff := endAngle - startAngle;
    if diff > lib.pi then diff - 2.0 * lib.pi
    else if diff < -lib.pi then diff + 2.0 * lib.pi
    else diff
  }

  lemma AbsScale(a: real, k: real)
    requires k >= 0.0
    ensures Abs(a * k) == Abs(a) * k
  {
    if a < 0.0 {
      assert a * k == -((-a) * k);
    }
  }

  /**
   * The `arc` record _fit_single_arc returns for a circle of radius rad
   * (at least 1 m) swept through sweep radians: the curvature is 1 / rad,
   * signed positive exactly when the sweep is, and the length is the arc
   * length |sweep| * rad.
   */
  function ArcRecord(sweep: real, rad: real, s0: real, start: Point, heading: real): (seg: Segment)
    requires rad >= 1.0
    ensures seg.kind.Arc? && Abs(seg.kind.curvature) == 1.0 / rad
    ensures seg.kind.curvature > 0.0 <==> sweep > 0.0
    ensures seg.length == Abs(sweep) * rad
    ensures seg.s == s0 && seg.start == Some(start) && seg.hdg == heading
  {
    var curvature := if rad > 0.0 then 1.0 / rad else 0.0;
    AbsScale(sweep, rad);
    Segment(Arc(if sweep > 0.0 then curvature else -curvature), s0, Some(start), heading, Abs(sweep * rad))
  }

  /**
   * _fit_single_arc: an `arc` record through the run, or None when the run
   * has fewer than three points or its circle is degenerate or tighter than
   * a 1 m radius. The record always carries x, y and heads along the first
   * step of the run; its curvature and length are stated by FitSingleArcGeometry.
   */
  function FitSingleArc(lib: Libm, coords: seq<Point>, s0: real): (r: Option<Segment>)
    ensures r.None? <==>
      |coords| < 3 || FitCircle(lib, coords).1.None? || FitCircle(lib, coords).1.value < 1.0
    ensures r.Some? ==>
      && r.value.kind.Arc?
      && r.value.s == s0
      && r.value.start == Some(coords[0])
      && r.value.hdg == lib.atan2(coords[1].y - coords[0].y, coords[1].x - coords[0].x)
  {
    if |coords| < 3 then None
    else
      var fit := FitCircle(lib, coords);
      if fit.1.None? || fit.1.value < 1.0 then None
      else
        var sweep := Sweep(lib, fit.0, coords[0], coords[|coords| - 1]);
        var heading := lib.atan2(coords[1].y - coords[0].y, coords[1].x - coords[0].x);
        Some(ArcRecord(sweep, fit.1.value, s0, coords[0], heading))
  }

  /**
   * The fitted arc bends with curvature 1 / radius of the fitted circle,
   * to the left exactly when the sweep from first to last point is positive,
   * and is as long as that sweep of the circle.
   */
  lemma FitSingleArcGeometry(lib: Libm, coords: seq<Point>, s0: real)
    requires FitSingleArc(lib, coords, s0).Some?
    ensures var seg := FitSingleArc(lib, coords, s0).value;
      var radius := FitCircle(lib, coords).1.value;
      var sweep := Sweep(lib, FitCircle(lib, coords).0, coords[0], coords[|coords| - 1]);
      && Abs(seg.kind.curvature) == 1.0 / radius
      && (seg.kind.curvature > 0.0 <==> sweep > 0.0)
      && seg.length == Abs(sweep) * radius
  {
  }

  /**
   * What the loop of fit_arc_segments relies on from the arc fitter: a record
   * it returns is an `arc` placed at the requested offset with x, y set.
   */
  ghost predicate ArcFitter(arcFit: (seq<Point>, real) -> Option<Segment>)
  {
    forall run, s0 :: arcFit(run, s0).Some? ==>
      arcFit(run, s0).value.kind.Arc? && arcFit(run, s0).value.s == s0 && arcFit(run, s0).value.start.Some?
  }

  /** _fit_single_arc as the arc fitter of fit_arc_segments. */
  function SingleArcFitter(lib: Libm): (seq<Point>, real) -> Option<Segment>
  {
    (run, s0) => FitSingleArc(lib, run, s0)
  }

  lemma FitSingleArcIsArcFitter(lib: Libm)
    ensures ArcFitter(SingleArcFitter(lib))
  {
  }

  /**
   * The records fit_arc_segments emits from cursor i on, with s the running
   * offset, placed whether a record was emitted before, and arcFit the arc
   * fitter (FitSingleArc in ArcFit): a curve run longer than one step
   * becomes one `arc` record, or nothing when the fit fails (the cursor
   * still jumps past the run); otherwise one `line` record to the next
   * point, carrying x, y only when it is the first record.
   */
  function ArcFitFrom(lib: Libm, arcFit: (seq<Point>, real) -> Option<Segment>, coords: seq<Point>,
                      i: nat, s: real, placed: bool): seq<Segment>
    decreases |coords| - i, 1
  {
    if i + 1 >= |coords| then []
    else ArcFitRun(lib, arcFit, coords, i, CurveEnd(lib, coords, i), s, placed)
  }

  /** One pass of the loop at cursor i, whose curve run ends at e, followed by the rest. */
  function ArcFitRun(lib: Libm, arcFit: (seq<Point>, real) -> Option<Segment>, coords: seq<Point>,
                     i: nat, e: nat, s: real, placed: bool): seq<Segment>
    requires i < e < |coords|
    decreases |coords| - i, 0
  {
    if e > i + 1 then
      var arc := arcFit(coords[i..e + 1], s);
      if arc.Some? then [arc.value] + ArcFitFrom(lib, arcFit, coords, e, s + arc.value.length, true)
      else ArcFitFrom(lib, arcFit, coords, e, s, placed)
    else
      var line := LineSegment(lib, coords[i], coords[i + 1], s, !placed);
      [line] + ArcFitFrom(lib, arcFit, coords, i + 1, s + line.length, true)
  }

  /** One step of ArcFitFrom over a curve run that fits an arc: the arc, then the rest from the run's end. */
  lemma ArcFitFromArcStep(lib: Libm, arcFit: (seq<Point>, real) -> Option<Segment>, coords: seq<Point>,
                          i: nat, s: real, placed: bool, e: nat, arc: Segment)
    requires i + 1 < |coords| && e == CurveEnd(lib, coords, i) && e > i + 1
    requires arcFit(coords[i..e + 1], s) == Some(arc)
    ensures ArcFitFrom(lib, arcFit, coords, i, s, placed) ==
      [arc] + ArcFitFrom(lib, arcFit, coords, e, s + arc.length, true)
  {
    assert ArcFitFrom(lib, arcFit, coords, i, s, placed) == ArcFitRun(lib, arcFit, coords, i, e, s, placed);
  }

  /** One step over a curve run that fits no arc: the run is skipped and s is not advanced. */
  lemma ArcFitFromSkipStep(lib: Libm, arcFit: (seq<Point>, real) -> Option<Segment>, coords: seq<Point>,
                           i: nat, s: real, placed: bool, e: nat)
    requires i + 1 < |coords| && e == CurveEnd(lib, coords, i) && e > i + 1
    requires arcFit(coords[i..e + 1], s) == None
    ensures ArcFitFrom(lib, arcFit, coords, i, s, placed) == ArcFitFrom(lib, arcFit, coords, e, s, placed)
  {
    assert ArcFitFrom(lib, arcFit, coords, i, s, placed) == ArcFitRun(lib, arcFit, coords, i, e, s, placed);
  }

  /** One step over a straight step: a line to the next point, then the rest from there. */
  lemma ArcFitFromLineStep(lib: Libm, arcFit: (seq<Point>, real) -> Option<Segment>, coords: seq<Point>,
                           i: nat, s: real, placed: bool, line: Segment)
    requires i + 1 < |coords| && CurveEnd(lib, coords, i) <= i + 1
    requires line == LineSegment(lib, coords[i], coords[i + 1], s, !placed)
    ensures ArcFitFrom(lib, arcFit, coords, i, s, placed) ==
      [line] + ArcFitFrom(lib, arcFit, coords, i + 1, s + line.length, true)
  {
    var e := CurveEnd(lib, coords, i);
    assert ArcFitFrom(lib, arcFit, coords, i, s, placed) == ArcFitRun(lib, arcFit, coords, i, e, s, placed);
  }

  /** The records of fit_arc_segments for the whole polyline. */
  function ArcFit(lib: Libm, coords: seq<Point>): seq<Segment>
  {
    ArcFitFrom(lib, SingleArcFitter(lib), coords, 0, 0.0, false)
  }

  /** Every step moves the cursor at least one point and emits at most one record. */
  lemma {:induction false} ArcFitFromCount(lib: Libm, arcFit: (seq<Point>, real) -> Option<Segment>, coords: seq<Point>,
                                           i: nat, s: real, placed: bool)
    ensures i + 1 >= |coords| ==> ArcFitFrom(lib, arcFit, coords, i, s, placed) == []
    ensures i + 1 < |coords| ==> |ArcFitFrom(lib, arcFit, coords, i, s, placed)| <= |coords| - 1 - i
    decreases |coords| - i
  {
    if i + 1 < |coords| {
      var e := CurveEnd(lib, coords, i);
      if e > i + 1 {
        var arc := arcFit(coords[i..e + 1], s);
        if arc.Some? {
          ArcFitFromCount(lib, arcFit, coords, e, s + arc.value.length, true);
        } else {
          ArcFitFromCount(lib, arcFit, coords, e, s, placed);
        }
      } else {
        var line := LineSegment(lib, coords[i], coords[i + 1], s, !placed);
        ArcFitFromCount(lib, arcFit, coords, i + 1, s + line.length, true);
      }
    }
  }

  /** Each emitted record starts where the records before it end, counting from s. */
  lemma {:induction false} ArcFitFromChained(lib: Libm, arcFit: (seq<Point>, real) -> Option<Segment>, coords: seq<Point>,
                                             i: nat, s: real, placed: bool)
    requires ArcFitter(arcFit)
    ensures Chained(ArcFitFrom(lib, arcFit, coords, i, s, placed), s)
    decreases |coords| - i
  {
    if i + 1 < |coords| {
      var e := CurveEnd(lib, coords, i);
      if e > i + 1 {
        var arc := arcFit(coords[i..e + 1], s);
        if arc.Some? {
          ArcFitFromChained(lib, arcFit, coords, e, s + arc.value.length, true);
          ChainedCons(arc.value, ArcFitFrom(lib, arcFit, coords, e, s + arc.value.length, true), s);
        } else {
          ArcFitFromChained(lib, arcFit, coords, e, s, placed);
        }
      } else {
        var line := LineSegment(lib, coords[i], coords[i + 1], s, !placed);
        ArcFitFromChained(lib, arcFit, coords, i + 1, s + line.length, true);
        ChainedCons(line, ArcFitFrom(lib, arcFit, coords, i + 1, s + line.length, true), s);
      }
    }
  }

  /**
   * A `line` record carries x, y only when nothing was emitted before it; an
   * `arc` record always carries them. So the first record is placed, and a
   * later `line` record never is.
   */
  lemma {:induction false} ArcFitFromPlacement(lib: Libm, arcFit: (seq<Point>, real) -> Option<Segment>, coords: seq<Point>,
                                               i: nat, s: real, placed: bool)
    requires ArcFitter(arcFit)
    ensures |ArcFitFrom(lib, arcFit, coords, i, s, placed)| > 0 && !placed ==>
      ArcFitFrom(lib, arcFit, coords, i, s, placed)[0].start.Some?
    ensures forall k ::
      (0 <= k < |ArcFitFrom(lib, arcFit, coords, i, s, placed)| && (placed || k > 0) &&
       ArcFitFrom(lib, arcFit, coords, i, s, placed)[k].kind == Line) ==>
      ArcFitFrom(lib, arcFit, coords, i, s, placed)[k].start == None
    decreases |coords| - i
  {
    if i + 1 < |coords| {
      var segs := ArcFitFrom(lib, arcFit, coords, i, s, placed);
      var e := CurveEnd(lib, coords, i);
      assert segs == ArcFitRun(lib, arcFit, coords, i, e, s, placed);
      if e > i + 1 {
        var arc := arcFit(coords[i..e + 1], s);
        if arc.Some? {
          var rest := ArcFitFrom(lib, arcFit, coords, e, s + arc.value.length, true);
          ArcFitFromPlacement(lib, arcFit, coords, e, s + arc.value.length, true);
          assert segs == [arc.value] + rest;
          assert forall k :: 0 < k < |segs| ==> segs[k] == rest[k - 1];
        } else {
          ArcFitFromPlacement(lib, arcFit, coords, e, s, placed);
          assert segs == ArcFitFrom(lib, arcFit, coords, e, s, placed);
        }
      } else {
        var line := LineSegment(lib, coords[i], coords[i + 1], s, !placed);
        var rest := ArcFitFrom(lib, arcFit, coords, i + 1, s + line.length, true);
        ArcFitFromPlacement(lib, arcFit, coords, i + 1, s + line.length, true);
        assert segs == [line] + rest;
        forall k | 0 <= k < |segs| && (placed || k > 0) && segs[k].kind == Line
          ensures segs[k].start == None
        {
          if k > 0 {
            assert segs[k] == rest[k - 1];
          }
        }
      }
    }
  }

  /**
   * What fit_arc_segments promises: at most one record per step between
   * points, none for fewer than two points, offsets that accumulate only
   * over emitted records, x and y on the first record and on no later line.
   */
  lemma ArcFitProperties(lib: Libm, coords: seq<Point>)
    ensures var segs := ArcFit(lib, coords);
      && (|coords| < 2 ==> segs == [])
      && (|coords| >= 2 ==> |segs| <= |coords| - 1)
      && Chained(segs, 0.0)
      && (|segs| > 0 ==> segs[0].start.Some?)
      && (forall k :: 0 < k < |segs| && segs[k].kind == Line ==> segs[k].start == None)
  {
    var arcFit := SingleArcFitter(lib);
    FitSingleArcIsArcFitter(lib);
    ArcFitFromCount(lib, arcFit, coords, 0, 0.0, false);
    ArcFitFromChained(lib, arcFit, coords, 0, 0.0, false);
    ArcFitFromPlacement(lib, arcFit, coords, 0, 0.0, false);
  }

  /**
   * The loop of fit_arc_segments, with the single-arc fitter it calls as a
   * parameter: a cursor walks the points, a curve run becomes the fitted arc
   * (or nothing), a straight step a line; s accumulates only over emitted
   * records.
   */
  method FitArcSegmentsWith(lib: Libm, arcFit: (seq<Point>, real) -> Option<Segment>, coords: seq<Point>)
    returns (segs: seq<Segment>)
    ensures segs == ArcFitFrom(lib, arcFit, coords, 0, 0.0, false)
  {
    ghost var total := ArcFitFrom(lib, arcFit, coords, 0, 0.0, false);
    segs := [];
    var s := 0.0;
    var i := 0;
    while i + 1 < |coords|
      invariant segs + ArcFitFrom(lib, arcFit, coords, i, s, |segs| > 0) == total
      decreases |coords| - i
    {
      var curveEnd := DetectCurveSegment(lib, coords, i);
      if curveEnd > i + 1 {
        var arc := arcFit(coords[i..curveEnd + 1], s);
        if arc.Some? {
          ArcFitFromArcStep(lib, arcFit, coords, i, s, |segs| > 0, curveEnd, arc.value);
          ShiftOne(segs, arc.value, ArcFitFrom(lib, arcFit, coords, curveEnd, s + arc.value.length, true), total);
          segs := segs + [arc.value];
          s := s + arc.value.length;
        } else {
          ArcFitFromSkipStep(lib, arcFit, coords, i, s, |segs| > 0, curveEnd);
        }
        i := curveEnd;
      } else {
        var line := LineSegment(lib, coords[i], coords[i + 1], s, |segs| == 0);
        ArcFitFromLineStep(lib, arcFit, coords, i, s, |segs| > 0, line);
        ShiftOne(segs, line, ArcFitFrom(lib, arcFit, coords, i + 1, s + line.length, true), total);
        segs := segs + [line];
        s := s + line.length;
        i := i + 1;
      }
    }
    assert segs + [] == segs;
  }

  /** fit_arc_segments, calling _fit_single_arc on each curve run. */
  method FitArcSegments(lib: Libm, coords: seq<Point>) returns (segs: seq<Segment>)
    ensures segs == ArcFit(lib, coords)
  {
    segs := FitArcSegmentsWith(lib, SingleArcFitter(lib), coords);
  }
}
