// The geometric helpers _calculate_width_profile of the current
// GeometryConverter (SoftwareCopyright/shp2opendrive/geometry_converter.py)
// uses to measure a lane's width at a reference point: the two boundary
// points nearest to it, the intersection of two lines, and the width across
// the reference heading, measured by projection or along the perpendicular.

module WidthGeometry {
  import opened Common

  // ---------------------------------------------------------- nearest two

  /** The sort key of _find_closest_two_points: the distance from target to p. */
  function Key(lib: Libm, target: Point, p: Point): real
  {
    Dist(lib, target, p)
  }

  /**
   * The order a stable sort by key leaves indices a and b of pts in: a
   * comes first when its key is smaller, or equal with a smaller index.
   */
  ghost predicate Before(lib: Libm, target: Point, pts: seq<Point>, a: nat, b: nat)
    requires a < |pts| && b < |pts|
  {
    Key(lib, target, pts[a]) < Key(lib, target, pts[b])
    || (Key(lib, target, pts[a]) == Key(lib, target, pts[b]) && a < b)
  }

  /**
   * The first index below n, other than skip, whose key is smallest; -1
   * when every index below n is skip.
   */
  function FirstMinExcept(lib: Libm, target: Point, pts: seq<Point>, n: nat, skip: int): (k: int)
    requires n <= |pts|
    ensures k == -1 || (0 <= k < n && k != skip)
    ensures k == -1 <==> n == 0 || (n == 1 && skip == 0)
  {
    if n == 0 then -1
    else
      var k := FirstMinExcept(lib, target, pts, n - 1, skip);
      if n - 1 == skip then k
      else if k == -1 || Key(lib, target, pts[n - 1]) < Key(lib, target, pts[k]) then n - 1
      else k
  }

  /**
   * The index FirstMinExcept picks comes before every other index below n
   * that is not skip, in the stable order.
   */
  lemma {:induction false} FirstMinExceptSpec(lib: Libm, target: Point, pts: seq<Point>, n: nat, skip: int)
    requires n <= |pts|
    ensures var k := FirstMinExcept(lib, target, pts, n, skip);
      k != -1 ==> forall j :: 0 <= j < n && j != skip && j != k ==> Before(lib, target, pts, k, j)
  {
    if n > 0 {
      FirstMinExceptSpec(lib, target, pts, n - 1, skip);
      var k := FirstMinExcept(lib, target, pts, n - 1, skip);
      var k' := FirstMinExcept(lib, target, pts, n, skip);
      if n - 1 != skip && k != -1 {
        if k' == n - 1 {
          forall j | 0 <= j < n && j != skip && j != k'
            ensures Before(lib, target, pts, k', j)
          {
            if j != k {
              assert Before(lib, target, pts, k, j);
            }
          }
        } else {
          assert Before(lib, target, pts, k, n - 1);
        }
      }
    }
  }

  /** The indices of the first two entries of the stably sorted distance list. */
  function ClosestTwoIndices(lib: Libm, coords: seq<Point>, target: Point): (r: (nat, nat))
    requires |coords| >= 2
    ensures r.0 < |coords| && r.1 < |coords|
  {
    var i := FirstMinExcept(lib, target, coords, |coords|, -1);
    var j := FirstMinExcept(lib, target, coords, |coords|, i);
    (i as nat, j as nat)
  }

  /** _find_closest_two_points. */
  function ClosestTwo(lib: Libm, coords: seq<Point>, target: Point): (r: seq<Point>)
    ensures |r| == 2
  {
    if |coords| == 0 then [target, target]
    else if |coords| == 1 then [coords[0], coords[0]]
    else
      var (i, j) := ClosestTwoIndices(lib, coords, target);
      [coords[i], coords[j]]
  }

  /**
   * The two points are those at two different indices i and j where i
   * comes before j and j before every other index in the stable order by
   * distance: the first two entries of the sorted list. With one point it
   * is returned twice, with none the target is.
   */
  lemma ClosestTwoProperties(lib: Libm, coords: seq<Point>, target: Point)
    ensures |coords| == 0 ==> ClosestTwo(lib, coords, target) == [target, target]
    ensures |coords| == 1 ==> ClosestTwo(lib, coords, target) == [coords[0], coords[0]]
    ensures |coords| >= 2 ==>
      var (i, j) := ClosestTwoIndices(lib, coords, target);
      && ClosestTwo(lib, coords, target) == [coords[i], coords[j]]
      && i != j
      && Before(lib, target, coords, i, j)
      && forall k :: 0 <= k < |coords| && k != i && k != j ==> Before(lib, target, coords, j, k)
  {
    if |coords| >= 2 {
      var i := FirstMinExcept(lib, target, coords, |coords|, -1);
      FirstMinExceptSpec(lib, target, coords, |coords|, -1);
      FirstMinExceptSpec(lib, target, coords, |coords|, i);
    }
  }

  // ---------------------------------------------------------- intersection

  /** b - a. */
  function Sub(b: Point, a: Point): Point
  {
    Point(b.x - a.x, b.y - a.y)
  }

  /** The 2D cross product u x v; zero exactly when u and v are parallel. */
  function Det(u: Point, v: Point): real
  {
    u.x * v.y - u.y * v.x
  }

  /** c lies on the line through a and b (when a != b). */
  predicate OnLine(a: Point, b: Point, c: Point)
  {
    Det(Sub(b, a), Sub(c, a)) == 0.0
  }

  /** The denominator of _line_intersection. */
  function Denominator(p1: Point, p2: Point, p3: Point, p4: Point): real
  {
    (p1.x - p2.x) * (p3.y - p4.y) - (p1.y - p2.y) * (p3.x - p4.x)
  }

  /** The numerator of _line_intersection's parameter t. */
  function Numerator(p1: Point, p3: Point, p4: Point): real
  {
    (p1.x - p3.x) * (p3.y - p4.y) - (p1.y - p3.y) * (p3.x - p4.x)
  }

  /** The point p1 + t * (p2 - p1). */
  function Along(p1: Point, p2: Point, t: real): Point
  {
    Point(p1.x + t * (p2.x - p1.x), p1.y + t * (p2.y - p1.y))
  }

  /**
   * _line_intersection: the point where line p1p2 meets line p3p4, as
   * p1 + t * (p2 - p1); none when the denominator is below 1e-10 in size.
   */
  function LineIntersection(p1: Point, p2: Point, p3: Point, p4: Point): Option<Point>
  {
    var denom := Denominator(p1, p2, p3, p4);
    if Abs(denom) < 1e-10 then None
    else Some(Along(p1, p2, Numerator(p1, p3, p4) / denom))
  }

  /**
   * There is no intersection exactly when the two directions are parallel
   * to within 1e-10; otherwise the point lies on both lines.
   */
  lemma LineIntersectionProperties(p1: Point, p2: Point, p3: Point, p4: Point)
    ensures var r := LineIntersection(p1, p2, p3, p4);
      && (r.None? <==> Abs(Det(Sub(p2, p1), Sub(p4, p3))) < 1e-10)
      && (r.Some? ==> OnLine(p1, p2, r.value) && OnLine(p3, p4, r.value))
  {
    DenominatorIsDet(p1, p2, p3, p4);
    if LineIntersection(p1, p2, p3, p4).Some? {
      IntersectionOnBoth(p1, p2, p3, p4);
    }
  }

  /** When it exists, the intersection lies on both lines. */
  lemma IntersectionOnBoth(p1: Point, p2: Point, p3: Point, p4: Point)
    requires LineIntersection(p1, p2, p3, p4).Some?
    ensures OnLine(p1, p2, LineIntersection(p1, p2, p3, p4).value)
    ensures OnLine(p3, p4, LineIntersection(p1, p2, p3, p4).value)
  {
    var denom := Denominator(p1, p2, p3, p4);
    var t := Numerator(p1, p3, p4) / denom;
    var r := Along(p1, p2, t);
    OnScaledDirection(Sub(p2, p1), t);
    assert Sub(r, p1) == Point(t * (p2.x - p1.x), t * (p2.y - p1.y));
    DenominatorIsDet(p1, p2, p3, p4);
    NumeratorIsDet(p1, p3, p4);
    OnSecondLine(Sub(p2, p1), Sub(p4, p3), Sub(p1, p3), t, denom);
    assert Sub(r, p3) == Point((p1.x - p3.x) + t * (p2.x - p1.x), (p1.y - p3.y) + t * (p2.y - p1.y));
  }

  /** The source's denominator is the cross product of the two directions. */
  lemma DenominatorIsDet(p1: Point, p2: Point, p3: Point, p4: Point)
    ensures Denominator(p1, p2, p3, p4) == Det(Sub(p2, p1), Sub(p4, p3))
  {
    assert (p1.x - p2.x) * (p3.y - p4.y) == (p2.x - p1.x) * (p4.y - p3.y);
    assert (p1.y - p2.y) * (p3.x - p4.x) == (p2.y - p1.y) * (p4.x - p3.x);
  }

  /** The source's numerator is the cross product of p4 - p3 with p1 - p3. */
  lemma NumeratorIsDet(p1: Point, p3: Point, p4: Point)
    ensures Numerator(p1, p3, p4) == Det(Sub(p4, p3), Sub(p1, p3))
  {
    assert (p1.x - p3.x) * (p3.y - p4.y) == -((p4.y - p3.y) * (p1.x - p3.x));
    assert (p1.y - p3.y) * (p3.x - p4.x) == -((p4.x - p3.x) * (p1.y - p3.y));
  }

  /** A multiple of u is parallel to u. */
  lemma OnScaledDirection(u: Point, t: real)
    ensures Det(u, Point(t * u.x, t * u.y)) == 0.0
  {
    assert u.x * (t * u.y) == u.y * (t * u.x);
  }

  /** w + t * u is parallel to v when t is the ratio Det(v, w) / Det(u, v). */
  lemma OnSecondLine(u: Point, v: Point, w: Point, t: real, denom: real)
    requires denom == Det(u, v) && denom != 0.0 && t == Det(v, w) / denom
    ensures Det(v, Point(w.x + t * u.x, w.y + t * u.y)) == 0.0
  {
    assert t * denom == Det(v, w);
    assert Det(v, Point(w.x + t * u.x, w.y + t * u.y)) == Det(v, w) - t * denom by {
      assert v.x * (w.y + t * u.y) == v.x * w.y + t * (v.x * u.y);
      assert v.y * (w.x + t * u.x) == v.y * w.x + t * (v.y * u.x);
    }
  }

  // ---------------------------------------------------------------- widths

  /** The unit normal (-sin h, cos h) of heading h. */
  function Normal(lib: Libm, h: real): Point
  {
    Point(-lib.sin(h), lib.cos(h))
  }

  /** The offset of p from ref along the normal of heading h. */
  function Projection(lib: Libm, p: Point, ref: Point, h: real): real
  {
    (p.x - ref.x) * Normal(lib, h).x + (p.y - ref.y) * Normal(lib, h).y
  }

  /**
   * _calculate_perpendicular_width: the distance between the two points
   * across the heading; when that is at most 1 mm but the points are more
   * than 0.1 m apart, their direct distance instead; rounded to precision.
   */
  function PerpendicularWidth(lib: Libm, precision: int, left: Point, right: Point, ref: Point, h: real): real
  {
    var across := Abs(Projection(lib, left, ref, h) - Projection(lib, right, ref, h));
    var direct := Dist(lib, right, left);
    lib.roundTo(if across <= 0.001 && direct > 0.1 then direct else across, precision)
  }

  /** The offset across the heading does not depend on where the reference point is. */
  lemma AcrossIndependentOfReference(lib: Libm, left: Point, right: Point, ref: Point, h: real)
    ensures Projection(lib, left, ref, h) - Projection(lib, right, ref, h)
         == (left.x - right.x) * Normal(lib, h).x + (left.y - right.y) * Normal(lib, h).y
  {
    var n := Normal(lib, h);
    assert (left.x - ref.x) * n.x - (right.x - ref.x) * n.x == (left.x - right.x) * n.x;
    assert (left.y - ref.y) * n.y - (right.y - ref.y) * n.y == (left.y - right.y) * n.y;
  }

  /** The squared distance is symmetric. */
  lemma Dist2Symmetric(p: Point, q: Point)
    ensures Dist2(p, q) == Dist2(q, p)
  {
    assert (q.x - p.x) * (q.x - p.x) == (p.x - q.x) * (p.x - q.x);
    assert (q.y - p.y) * (q.y - p.y) == (p.y - q.y) * (p.y - q.y);
  }

  /**
   * The perpendicular width is the same for every reference point and does
   * not depend on which side is called left.
   */
  lemma PerpendicularWidthProperties(lib: Libm, precision: int, left: Point, right: Point, ref: Point, ref': Point, h: real)
    ensures PerpendicularWidth(lib, precision, left, right, ref, h) == PerpendicularWidth(lib, precision, left, right, ref', h)
    ensures PerpendicularWidth(lib, precision, left, right, ref, h) == PerpendicularWidth(lib, precision, right, left, ref, h)
  {
    AcrossIndependentOfReference(lib, left, right, ref, h);
    AcrossIndependentOfReference(lib, left, right, ref', h);
    AcrossIndependentOfReference(lib, right, left, ref, h);
    Dist2Symmetric(left, right);
    var n := Normal(lib, h);
    assert (right.x - left.x) * n.x + (right.y - left.y) * n.y == -((left.x - right.x) * n.x + (left.y - right.y) * n.y);
  }

  /** The second point of the perpendicular through ref: ref plus the normal. */
  function Foot(lib: Libm, ref: Point, h: real): Point
  {
    Point(ref.x + Normal(lib, h).x, ref.y + Normal(lib, h).y)
  }

  /**
   * _calculate_line_intersection_width: with two points per side, the
   * distance between the points where the two boundary lines cross the
   * perpendicular through ref, rounded; the perpendicular width of the first
   * points when either line is parallel to it or the distance is at most 1 mm,
   * and of the first points (or ref for a missing one) with fewer than two.
   */
  function IntersectionWidth(lib: Libm, precision: int, leftPts: seq<Point>, rightPts: seq<Point>, ref: Point, h: real): real
  {
    if |leftPts| < 2 || |rightPts| < 2 then
      PerpendicularWidth(lib, precision, if |leftPts| > 0 then leftPts[0] else ref,
                         if |rightPts| > 0 then rightPts[0] else ref, ref, h)
    else
      var li := LineIntersection(leftPts[0], leftPts[1], ref, Foot(lib, ref, h));
      var ri := LineIntersection(rightPts[0], rightPts[1], ref, Foot(lib, ref, h));
      if li.None? || ri.None? then PerpendicularWidth(lib, precision, leftPts[0], rightPts[0], ref, h)
      else if Dist(lib, ri.value, li.value) <= 0.001 then PerpendicularWidth(lib, precision, leftPts[0], rightPts[0], ref, h)
      else lib.roundTo(Dist(lib, ri.value, li.value), precision)
  }

  /**
   * With two points per side, the width is either the perpendicular width
   * of the first points, or the rounded distance, above 1 mm, between a
   * point on the left line and a point on the right line that both lie on
   * the perpendicular through ref.
   */
  lemma IntersectionWidthProperties(lib: Libm, precision: int, leftPts: seq<Point>, rightPts: seq<Point>, ref: Point, h: real)
    requires |leftPts| >= 2 && |rightPts| >= 2
    ensures var w := IntersectionWidth(lib, precision, leftPts, rightPts, ref, h);
      || w == PerpendicularWidth(lib, precision, leftPts[0], rightPts[0], ref, h)
      || (var li := LineIntersection(leftPts[0], leftPts[1], ref, Foot(lib, ref, h)).value;
          var ri := LineIntersection(rightPts[0], rightPts[1], ref, Foot(lib, ref, h)).value;
          && LineIntersection(leftPts[0], leftPts[1], ref, Foot(lib, ref, h)).Some?
          && LineIntersection(rightPts[0], rightPts[1], ref, Foot(lib, ref, h)).Some?
          && OnLine(leftPts[0], leftPts[1], li) && OnLine(ref, Foot(lib, ref, h), li)
          && OnLine(rightPts[0], rightPts[1], ri) && OnLine(ref, Foot(lib, ref, h), ri)
          && Dist(lib, ri, li) > 0.001
          && w == lib.roundTo(Dist(lib, ri, li), precision))
  {
    LineIntersectionProperties(leftPts[0], leftPts[1], ref, Foot(lib, ref, h));
    LineIntersectionProperties(rightPts[0], rightPts[1], ref, Foot(lib, ref, h));
  }

  /** A boundary line parallel to the perpendicular sends the width back to the projection. */
  lemma IntersectionWidthParallel(lib: Libm, precision: int, leftPts: seq<Point>, rightPts: seq<Point>, ref: Point, h: real)
    requires |leftPts| >= 2 && |rightPts| >= 2
    requires Abs(Det(Sub(leftPts[1], leftPts[0]), Normal(lib, h))) < 1e-10
    ensures IntersectionWidth(lib, precision, leftPts, rightPts, ref, h)
         == PerpendicularWidth(lib, precision, leftPts[0], rightPts[0], ref, h)
  {
    LineIntersectionProperties(leftPts[0], leftPts[1], ref, Foot(lib, ref, h));
    assert Sub(Foot(lib, ref, h), ref) == Normal(lib, h);
  }
}
