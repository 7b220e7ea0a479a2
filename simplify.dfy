// Douglas-Peucker polyline simplification and the point-to-chord distance it
// uses. The two geometry converters carry identical copies of both.

module Simplify {
  import opened Common
  import opened Seqs

  /** z-component of the cross product (b - a) x (p - a): twice the signed area of a, b, p. */
  function Cross(a: Point, b: Point, p: Point): real
  {
    (b.x - a.x) * (p.y - a.y) - (b.y - a.y) * (p.x - a.x)
  }

  /**
   * _point_to_line_distance: the distance from p to the line through a and
   * b, or to a itself when the chord has zero length.
   */
  function PointToLineDistance(lib: Libm, p: Point, a: Point, b: Point): (d: real)
    ensures lib.sqrt(Dist2(a, b)) != 0.0 ==> d == Abs(Cross(a, b, p)) / lib.sqrt(Dist2(a, b))
    ensures lib.sqrt(Dist2(a, b)) == 0.0 ==> d == Dist(lib, a, p)
    ensures SqrtNonNegative(lib) ==> d >= 0.0
  {
    var len := lib.sqrt(Dist2(a, b));
    if len == 0.0 then Dist(lib, a, p)
    else Abs((b.y - a.y) * p.x - (b.x - a.x) * p.y + b.x * a.y - b.y * a.x) / len
  }

  /** Both ends of a chord of non-zero length lie on it. */
  lemma ChordEndsOnChord(lib: Libm, a: Point, b: Point)
    requires lib.sqrt(Dist2(a, b)) != 0.0
    ensures PointToLineDistance(lib, a, a, b) == 0.0
    ensures PointToLineDistance(lib, b, a, b) == 0.0
  {
    assert Cross(a, b, a) == 0.0;
    assert Cross(a, b, b) == 0.0;
  }

  /** A distance of a point p from the chord a -- b. */
  type ChordMetric = (Point, Point, Point) -> real

  /** _point_to_line_distance as the metric _douglas_peucker uses. */
  function ChordDistance(lib: Libm): ChordMetric
  {
    (p, a, b) => PointToLineDistance(lib, p, a, b)
  }

  /**
   * The scan of _douglas_peucker over the interior points 1 .. k-1: the
   * largest distance from the chord coords[0] -- coords[n-1] and the index of
   * its first occurrence, starting from (0, 0) and replacing only on a
   * strictly larger distance.
   */
  function Farthest(dist: ChordMetric, coords: seq<Point>, k: nat): (r: (real, nat))
    requires 2 <= |coords| && k < |coords|
    ensures r.1 < k || r.1 == 0
    ensures r.1 == 0 ==> r.0 == 0.0
    ensures r.0 > 0.0 ==> r.1 >= 1
    decreases k
  {
    if k <= 1 then (0.0, 0)
    else
      var (d, j) := Farthest(dist, coords, k - 1);
      var dk := dist(coords[k - 1], coords[0], coords[|coords| - 1]);
      if dk > d then (dk, k - 1) else (d, j)
  }

  /**
   * Farthest finds the first interior point at the greatest distance from
   * the chord: no point in 1 .. k-1 is farther, none before it is as far.
   */
  lemma {:induction false} FarthestIsFirstMaximum(dist: ChordMetric, coords: seq<Point>, k: nat)
    requires 2 <= |coords| && k < |coords|
    ensures var (d, j) := Farthest(dist, coords, k);
      && (j != 0 ==> d == dist(coords[j], coords[0], coords[|coords| - 1]))
      && (forall i :: 1 <= i < k ==> dist(coords[i], coords[0], coords[|coords| - 1]) <= d)
      && (forall i :: 1 <= i < j ==> dist(coords[i], coords[0], coords[|coords| - 1]) < d)
    decreases k
  {
    if k > 1 {
      FarthestIsFirstMaximum(dist, coords, k - 1);
    }
  }

  /** The largest interior distance from the chord, as the source's loop leaves it in max_distance. */
  function MaxChordDistance(dist: ChordMetric, coords: seq<Point>): real
    requires |coords| >= 2
  {
    Farthest(dist, coords, |coords| - 1).0
  }

  /**
   * _douglas_peucker, measuring with dist (ChordDistance in the converters).
   * The recursion only terminates when the tolerance is positive: a range
   * whose interior distances are all 0 is split at index 0 otherwise, and
   * the right half is the whole range again (see ZeroToleranceMakesNoProgress).
   */
  function DouglasPeucker(dist: ChordMetric, coords: seq<Point>, tol: real): (r: seq<Point>)
    requires tol > 0.0
    ensures |coords| <= 2 ==> r == coords
    ensures |coords| >= 2 ==> |r| >= 2
    decreases |coords|, 1
  {
    if |coords| <= 2 then coords
    else DouglasPeuckerStep(dist, coords, tol, Farthest(dist, coords, |coords| - 1))
  }

  /**
   * One level of _douglas_peucker on a range of three or more points, given
   * the farthest interior point: collapse to the two ends, or split there
   * and join the halves with the shared point written once.
   */
  function DouglasPeuckerStep(dist: ChordMetric, coords: seq<Point>, tol: real, far: (real, nat)): (r: seq<Point>)
    requires tol > 0.0 && |coords| > 2
    requires far == Farthest(dist, coords, |coords| - 1)
    ensures |r| >= 2
    decreases |coords|, 0
  {
    var k := far.1;
    if far.0 < tol then [coords[0], coords[|coords| - 1]]
    else
      var left := DouglasPeucker(dist, coords[..k + 1], tol);
      var right := DouglasPeucker(dist, coords[k..], tol);
      left[..|left| - 1] + right
  }

  /** A range whose interior is within tolerance collapses to its two ends. */
  lemma DouglasPeuckerCollapses(dist: ChordMetric, coords: seq<Point>, tol: real)
    requires tol > 0.0 && |coords| > 2
    requires Farthest(dist, coords, |coords| - 1).0 < tol
    ensures DouglasPeucker(dist, coords, tol) == [coords[0], coords[|coords| - 1]]
  {
    assert DouglasPeucker(dist, coords, tol) ==
      DouglasPeuckerStep(dist, coords, tol, Farthest(dist, coords, |coords| - 1));
  }

  /** Otherwise it is split at the farthest point, which both halves keep and the result holds once. */
  lemma DouglasPeuckerSplits(dist: ChordMetric, coords: seq<Point>, tol: real, k: nat)
    requires tol > 0.0 && |coords| > 2
    requires Farthest(dist, coords, |coords| - 1).0 >= tol && k == Farthest(dist, coords, |coords| - 1).1
    ensures 0 < k < |coords| - 1
    ensures DouglasPeucker(dist, coords, tol) ==
      DouglasPeucker(dist, coords[..k + 1], tol)[..|DouglasPeucker(dist, coords[..k + 1], tol)| - 1] +
      DouglasPeucker(dist, coords[k..], tol)
  {
    var far := Farthest(dist, coords, |coords| - 1);
    assert DouglasPeucker(dist, coords, tol) == DouglasPeuckerStep(dist, coords, tol, far);
  }

  /** The simplified polyline keeps the first and the last point. */
  lemma {:induction false} DouglasPeuckerKeepsEnds(dist: ChordMetric, coords: seq<Point>, tol: real)
    requires tol > 0.0 && |coords| >= 2
    ensures var r := DouglasPeucker(dist, coords, tol);
      r[0] == coords[0] && r[|r| - 1] == coords[|coords| - 1]
    decreases |coords|
  {
    if |coords| > 2 {
      var far := Farthest(dist, coords, |coords| - 1);
      var k := far.1;
      if far.0 < tol {
        DouglasPeuckerCollapses(dist, coords, tol);
      } else {
        DouglasPeuckerSplits(dist, coords, tol, k);
        var left, right := coords[..k + 1], coords[k..];
        DouglasPeuckerKeepsEnds(dist, left, tol);
        DouglasPeuckerKeepsEnds(dist, right, tol);
      }
    }
  }

  /**
   * A range of three or more points is reduced to its two ends exactly when
   * no interior point is as far from the chord as the tolerance.
   */
  lemma DouglasPeuckerEndsOnly(dist: ChordMetric, coords: seq<Point>, tol: real)
    requires tol > 0.0 && |coords| > 2
    ensures |DouglasPeucker(dist, coords, tol)| == 2 <==> MaxChordDistance(dist, coords) < tol
  {
    var far := Farthest(dist, coords, |coords| - 1);
    var k := far.1;
    if far.0 < tol {
      DouglasPeuckerCollapses(dist, coords, tol);
    } else {
      var left := DouglasPeucker(dist, coords[..k + 1], tol);
      var right := DouglasPeucker(dist, coords[k..], tol);
      DouglasPeuckerSplits(dist, coords, tol, k);
      assert |left[..|left| - 1] + right| >= 3;
    }
  }

  /** The simplified polyline keeps points of the original, in their order. */
  lemma {:induction false} DouglasPeuckerSubseq(dist: ChordMetric, coords: seq<Point>, tol: real)
    requires tol > 0.0
    ensures Subseq(DouglasPeucker(dist, coords, tol), coords)
    decreases |coords|
  {
    if |coords| <= 2 {
      SubseqRefl(coords);
    } else {
      var far := Farthest(dist, coords, |coords| - 1);
      var k := far.1;
      if far.0 < tol {
        DouglasPeuckerCollapses(dist, coords, tol);
        SubseqEnds(coords);
      } else {
        DouglasPeuckerSplits(dist, coords, tol, k);
        DouglasPeuckerSubseq(dist, coords[..k + 1], tol);
        DouglasPeuckerSubseq(dist, coords[k..], tol);
        SubseqSplice(coords, k, DouglasPeucker(dist, coords[..k + 1], tol), DouglasPeucker(dist, coords[k..], tol));
      }
    }
  }

  /**
   * A larger tolerance keeps a subsequence of what a smaller one keeps, so
   * raising the tolerance never adds points (or segments).
   */
  lemma {:induction false} DouglasPeuckerMonotone(dist: ChordMetric, coords: seq<Point>, small: real, large: real)
    requires 0.0 < small <= large
    ensures Subseq(DouglasPeucker(dist, coords, large), DouglasPeucker(dist, coords, small))
    ensures |DouglasPeucker(dist, coords, large)| <= |DouglasPeucker(dist, coords, small)|
    decreases |coords|
  {
    if |coords| <= 2 {
      SubseqRefl(coords);
    } else {
      var far := Farthest(dist, coords, |coords| - 1);
      var k := far.1;
      if far.0 < large {
        DouglasPeuckerCollapses(dist, coords, large);
        DouglasPeuckerKeepsEnds(dist, coords, small);
        SubseqEnds(DouglasPeucker(dist, coords, small));
      } else {
        DouglasPeuckerMonotone(dist, coords[..k + 1], small, large);
        DouglasPeuckerMonotone(dist, coords[k..], small, large);
        SplitsMonotone(dist, coords, small, large, k);
      }
    }
    SubseqLength(DouglasPeucker(dist, coords, large), DouglasPeucker(dist, coords, small));
  }

  /** When both tolerances split the range, the halves' relations carry over to the joins. */
  lemma SplitsMonotone(dist: ChordMetric, coords: seq<Point>, small: real, large: real, k: nat)
    requires 0.0 < small <= large && |coords| > 2
    requires Farthest(dist, coords, |coords| - 1).0 >= large && k == Farthest(dist, coords, |coords| - 1).1
    requires Subseq(DouglasPeucker(dist, coords[..k + 1], large), DouglasPeucker(dist, coords[..k + 1], small))
    requires Subseq(DouglasPeucker(dist, coords[k..], large), DouglasPeucker(dist, coords[k..], small))
    ensures Subseq(DouglasPeucker(dist, coords, large), DouglasPeucker(dist, coords, small))
  {
    DouglasPeuckerSplits(dist, coords, large, k);
    DouglasPeuckerSplits(dist, coords, small, k);
    var left, right := coords[..k + 1], coords[k..];
    SubseqJoin(DouglasPeucker(dist, left, large), DouglasPeucker(dist, left, small),
               DouglasPeucker(dist, right, large), DouglasPeucker(dist, right, small));
  }

  /**
   * _douglas_peucker for a tolerance of any sign: None when the recursion
   * never ends, which happens exactly when some range it reaches splits at
   * index 0 (its interior is not farther from the chord than a tolerance of
   * 0 or less), so that the right-hand call receives the same range again.
   */
  function Simplified(dist: ChordMetric, coords: seq<Point>, tol: real): (r: Option<seq<Point>>)
    ensures r.Some? && |coords| >= 2 ==> |r.value| >= 2
    decreases |coords|
  {
    if |coords| <= 2 then Some(coords)
    else
      var far := Farthest(dist, coords, |coords| - 1);
      var k := far.1;
      if far.0 < tol then Some([coords[0], coords[|coords| - 1]])
      else if k == 0 then None
      else
        match (Simplified(dist, coords[..k + 1], tol), Simplified(dist, coords[k..], tol))
        case (Some(left), Some(right)) => Some(left[..|left| - 1] + right)
        case _ => None
  }

  /** For a positive tolerance the recursion always ends, with the simplification DouglasPeucker describes. */
  lemma {:induction false} SimplifiedPositive(dist: ChordMetric, coords: seq<Point>, tol: real)
    requires tol > 0.0
    ensures Simplified(dist, coords, tol) == Some(DouglasPeucker(dist, coords, tol))
    decreases |coords|
  {
    if |coords| > 2 {
      var far := Farthest(dist, coords, |coords| - 1);
      var k := far.1;
      if far.0 < tol {
        DouglasPeuckerCollapses(dist, coords, tol);
      } else {
        DouglasPeuckerSplits(dist, coords, tol, k);
        SimplifiedPositive(dist, coords[..k + 1], tol);
        SimplifiedPositive(dist, coords[k..], tol);
      }
    }
  }

  /** A simplification that ends keeps points of the original, in their order, the first and the last among them. */
  lemma {:induction false} SimplifiedSubseq(dist: ChordMetric, coords: seq<Point>, tol: real)
    requires Simplified(dist, coords, tol).Some?
    ensures Subseq(Simplified(dist, coords, tol).value, coords)
    ensures |coords| >= 2 ==> var r := Simplified(dist, coords, tol).value;
              r[0] == coords[0] && r[|r| - 1] == coords[|coords| - 1]
    decreases |coords|
  {
    if |coords| <= 2 {
      SubseqRefl(coords);
    } else if Farthest(dist, coords, |coords| - 1).0 < tol {
      SubseqEnds(coords);
    } else {
      var k := SimplifiedSplit(dist, coords, tol);
      var left, right := coords[..k + 1], coords[k..];
      SimplifiedSubseq(dist, left, tol);
      SimplifiedSubseq(dist, right, tol);
      SubseqSplice(coords, k, Simplified(dist, left, tol).value, Simplified(dist, right, tol).value);
    }
  }

  /** A simplification of more than two points that splits joins the simplified halves at the farthest point. */
  lemma SimplifiedSplit(dist: ChordMetric, coords: seq<Point>, tol: real) returns (k: nat)
    requires |coords| > 2 && Simplified(dist, coords, tol).Some?
    requires Farthest(dist, coords, |coords| - 1).0 >= tol
    ensures k == Farthest(dist, coords, |coords| - 1).1 && 0 < k < |coords| - 1
    ensures Simplified(dist, coords[..k + 1], tol).Some? && Simplified(dist, coords[k..], tol).Some?
    ensures var l, r := Simplified(dist, coords[..k + 1], tol).value, Simplified(dist, coords[k..], tol).value;
            |l| >= 2 && |r| >= 2 && Simplified(dist, coords, tol).value == l[..|l| - 1] + r
  {
    k := Farthest(dist, coords, |coords| - 1).1;
    assert k != 0;
    var left, right := Simplified(dist, coords[..k + 1], tol), Simplified(dist, coords[k..], tol);
    assert left.Some? && right.Some?;
    assert Simplified(dist, coords, tol) == Some(left.value[..|left.value| - 1] + right.value);
  }

  /** With a tolerance of 0 or less a range whose interior lies on its chord makes the recursion run forever. */
  lemma SimplifiedOnChordDiverges(dist: ChordMetric, coords: seq<Point>, tol: real)
    requires |coords| > 2 && tol <= 0.0
    requires forall i :: 1 <= i < |coords| - 1 ==> dist(coords[i], coords[0], coords[|coords| - 1]) == 0.0
    ensures Simplified(dist, coords, tol).None?
  {
    FarthestOnChord(dist, coords, |coords| - 1);
  }

  /**
   * With a tolerance of 0 or less the recursion still ends on points in
   * general position: three points whose middle one is off the chord are
   * all kept.
   */
  lemma SimplifiedOffChord(dist: ChordMetric, a: Point, b: Point, c: Point, tol: real)
    requires tol <= 0.0 && dist(b, a, c) > 0.0
    ensures Simplified(dist, [a, b, c], tol) == Some([a, b, c])
  {
    var coords := [a, b, c];
    assert Farthest(dist, coords, 1) == (0.0, 0);
    assert Farthest(dist, coords, 2) == (dist(b, a, c), 1);
    assert coords[..2] == [a, b] && coords[1..] == [b, c];
    assert Simplified(dist, [a, b], tol) == Some([a, b]);
    assert Simplified(dist, [b, c], tol) == Some([b, c]);
    assert [a, b][..1] + [b, c] == coords;
  }

  /**
   * With a tolerance of 0 or less, a range of three or more points whose
   * interior lies on the chord is split at index 0: the right-hand recursive
   * call receives the very same range, so the source recurses forever.
   */
  lemma ZeroToleranceMakesNoProgress(dist: ChordMetric, coords: seq<Point>, tol: real)
    requires |coords| > 2 && tol <= 0.0
    requires forall i :: 1 <= i < |coords| - 1 ==> dist(coords[i], coords[0], coords[|coords| - 1]) == 0.0
    ensures Farthest(dist, coords, |coords| - 1) == (0.0, 0)
    ensures !(MaxChordDistance(dist, coords) < tol)
    ensures coords[0..] == coords
  {
    FarthestOnChord(dist, coords, |coords| - 1);
  }

  lemma {:induction false} FarthestOnChord(dist: ChordMetric, coords: seq<Point>, k: nat)
    requires 2 <= |coords| && k < |coords|
    requires forall i :: 1 <= i < |coords| - 1 ==> dist(coords[i], coords[0], coords[|coords| - 1]) == 0.0
    ensures Farthest(dist, coords, k) == (0.0, 0)
    decreases k
  {
    if k > 1 {
      FarthestOnChord(dist, coords, k - 1);
    }
  }
}
