// Index planning of the current GeometryConverter
// (SoftwareCopyright/shp2opendrive/geometry_converter.py): where a long
// polyline is cut for piecewise fitting (_determine_segment_points), and
// how an over-long simplified polyline is thinned to a fixed number of
// points (_limit_segments).

module SegmentPoints {
  import opened Common
  import opened Seqs

  /** The longest and shortest stretch, in points, between two cut indices. */
  const MaxSegmentLength: int := 15
  const MinSegmentLength: int := 5

  /** Consecutive cuts strictly increase by at most m. */
  ghost predicate SteppedBy(xs: seq<int>, m: int)
  {
    forall i :: 0 <= i < |xs| - 1 ==> 0 < xs[i + 1] - xs[i] <= m
  }

  /** Appending a value a step of at most m above the last keeps the cuts stepped. */
  lemma SteppedSnoc(xs: seq<int>, x: int, m: int)
    requires SteppedBy(xs, m) && |xs| >= 1 && 0 < x - xs[|xs| - 1] <= m
    ensures SteppedBy(xs + [x], m)
  {
    var ys := xs + [x];
    forall i | 0 <= i < |ys| - 1
      ensures 0 < ys[i + 1] - ys[i] <= m
    {
      if i < |xs| - 1 {
        assert ys[i] == xs[i] && ys[i + 1] == xs[i + 1];
      }
    }
  }

  ghost predicate StrictlyIncreasing(xs: seq<int>)
  {
    forall i, j :: 0 <= i < j < |xs| ==> xs[i] < xs[j]
  }

  /** Every change point lies before the last point index n - 1. */
  ghost predicate ChangesBeforeEnd(n: int, changes: seq<int>)
  {
    forall k :: 0 <= k < |changes| ==> changes[k] < n - 1
  }

  /** Cuts that step upwards are strictly increasing. */
  lemma {:induction false} SteppedIncreasing(xs: seq<int>, m: int)
    requires SteppedBy(xs, m)
    ensures StrictlyIncreasing(xs)
    decreases |xs|
  {
    if |xs| > 1 {
      var init := xs[..|xs| - 1];
      assert SteppedBy(init, m);
      SteppedIncreasing(init, m);
      forall i, j | 0 <= i < j < |xs|
        ensures xs[i] < xs[j]
      {
        if j < |xs| - 1 {
          assert init[i] < init[j];
        } else if i < j - 1 {
          assert init[i] < init[j - 1];
        }
      }
    }
  }

  /**
   * _determine_segment_points for a polyline of n points: a change point
   * 5 to 15 points past the current start becomes a cut; one farther away
   * forces a cut 15 points past the start instead (and is itself dropped);
   * a closer one is ignored. The rest is then cut every 15 points and n - 1
   * appended. For n >= 1 and change points before n - 1 the cuts run from 0
   * to n - 1, strictly increase, and are never more than 15 apart.
   */
  method DetermineSegmentPoints(n: int, changes: seq<int>) returns (cuts: seq<int>)
    ensures |cuts| >= 1 && cuts[0] == 0 && cuts[|cuts| - 1] == n - 1
    ensures n >= 1 && ChangesBeforeEnd(n, changes) ==> SteppedBy(cuts, MaxSegmentLength)
  {
    var start;
    cuts, start := CutAtChanges(n, changes);
    cuts := CutRemainder(n, cuts, start);
  }

  /**
   * The loop over the change points: the cuts so far end at the current
   * start, which stays at 0 or before the last index when every change
   * point does.
   */
  method CutAtChanges(n: int, changes: seq<int>) returns (cuts: seq<int>, start: int)
    ensures |cuts| >= 1 && cuts[0] == 0 && cuts[|cuts| - 1] == start
    ensures n >= 1 && ChangesBeforeEnd(n, changes) ==> start <= n - 1 && SteppedBy(cuts, MaxSegmentLength)
  {
    ghost var good := n >= 1 && ChangesBeforeEnd(n, changes);
    cuts := [0];
    start := 0;
    for k := 0 to |changes|
      invariant |cuts| >= 1 && cuts[0] == 0 && cuts[|cuts| - 1] == start
      invariant good ==> start <= n - 1
      invariant good ==> SteppedBy(cuts, MaxSegmentLength)
    {
      var c := changes[k];
      if MinSegmentLength <= c - start <= MaxSegmentLength {
        if good {
          SteppedSnoc(cuts, c, MaxSegmentLength);
        }
        cuts := cuts + [c];
        start := c;
      } else if c - start > MaxSegmentLength {
        var forced := start + MaxSegmentLength;
        if good {
          SteppedSnoc(cuts, forced, MaxSegmentLength);
        }
        cuts := cuts + [forced];
        start := forced;
      }
    }
  }

  /**
   * The rest of the polyline past the last cut: a cut every 15 points while
   * more than 15 remain, then n - 1 unless it is already the last cut.
   */
  method CutRemainder(n: int, cuts0: seq<int>, start0: int) returns (cuts: seq<int>)
    requires |cuts0| >= 1 && cuts0[|cuts0| - 1] == start0
    ensures |cuts| >= 1 && cuts[0] == cuts0[0] && cuts[|cuts| - 1] == n - 1
    ensures start0 <= n - 1 && SteppedBy(cuts0, MaxSegmentLength) ==> SteppedBy(cuts, MaxSegmentLength)
  {
    ghost var good := start0 <= n - 1 && SteppedBy(cuts0, MaxSegmentLength);
    cuts := cuts0;
    var start := start0;
    if n - 1 - start > MaxSegmentLength {
      while start + MaxSegmentLength < n - 1
        invariant |cuts| >= 1 && cuts[0] == cuts0[0] && cuts[|cuts| - 1] == start
        invariant start < n - 1
        invariant good ==> SteppedBy(cuts, MaxSegmentLength)
        decreases n - start
      {
        if good {
          SteppedSnoc(cuts, start + MaxSegmentLength, MaxSegmentLength);
        }
        start := start + MaxSegmentLength;
        cuts := cuts + [start];
      }
    }
    if cuts[|cuts| - 1] != n - 1 {
      if good {
        SteppedSnoc(cuts, n - 1, MaxSegmentLength);
      }
      cuts := cuts + [n - 1];
    }
  }

  /** The spacing of _limit_segments' picks: (n - 1) / (maxSegments - 1). */
  function Step(n: int, maxSegments: int): real
    requires maxSegments >= 2
  {
    (n - 1) as real / (maxSegments - 1) as real
  }

  /** The interior index _limit_segments picks at step i: round(i * step). */
  function PickIndex(lib: Libm, n: int, maxSegments: int, i: int): int
    requires maxSegments >= 2
  {
    lib.roundInt(i as real * Step(n, maxSegments))
  }

  /** For n > maxSegments the step exceeds 1 and (maxSegments - 1) * step = n - 1. */
  lemma StepAboveOne(n: int, maxSegments: int)
    requires maxSegments >= 2 && n > maxSegments
    ensures Step(n, maxSegments) > 1.0
    ensures (maxSegments - 1) as real * Step(n, maxSegments) == (n - 1) as real
  {
    var m := (maxSegments - 1) as real;
    var step := (n - 1) as real / m;
    assert step * m == (n - 1) as real;
    if step <= 1.0 {
      MulLeMono(step, 1.0, m);
    }
  }

  lemma MulLeMono(a: real, b: real, c: real)
    requires a <= b && c >= 0.0
    ensures a * c <= b * c
  {
  }

  /** The position i * step reached by adding the step i times. */
  function Pos(step: real, i: nat): real
  {
    if i == 0 then 0.0 else Pos(step, i - 1) + step
  }

  lemma {:induction false} PosIsProduct(step: real, i: nat)
    ensures Pos(step, i) == i as real * step
  {
    if i > 0 {
      PosIsProduct(step, i - 1);
      Distrib((i - 1) as real, step);
    }
  }

  lemma Distrib(a: real, c: real)
    ensures (a + 1.0) * c == a * c + c
  {
  }

  /** Positions at least one step apart for a positive step. */
  lemma {:induction false} PosGrows(step: real, i: nat, j: nat)
    requires step > 0.0 && i < j
    ensures Pos(step, i) + step <= Pos(step, j)
    decreases j
  {
    if j > i + 1 {
      PosGrows(step, i, j - 1);
    }
  }

  /** What RoundsToNearest says at one argument. */
  lemma RoundBounds(lib: Libm, v: real)
    requires RoundsToNearest(lib)
    ensures v - 0.5 <= lib.roundInt(v) as real <= v + 0.5
  {
  }

  /**
   * Rounding positions x and y, where step > 1, step <= x, x + step <= last
   * and x + step <= y, gives for x an index in 1 .. last - 1 and for y a
   * larger one.
   */
  lemma RoundedOrder(x: real, y: real, step: real, last: int, rx: int, ry: int)
    requires step > 1.0 && step <= x && x + step <= last as real && x + step <= y
    requires x - 0.5 <= rx as real <= x + 0.5 && y - 0.5 <= ry as real
    ensures 1 <= rx <= last - 1 && rx < ry
  {
  }

  /**
   * When the polyline is longer than maxSegments, the picks for
   * i = 1 .. maxSegments - 2 are interior indices in 1 .. n - 2, and a
   * later pick has a larger index.
   */
  lemma PickIndexBounds(lib: Libm, n: int, maxSegments: int, i: int, j: int)
    requires RoundsToNearest(lib) && maxSegments >= 2 && n > maxSegments && 1 <= i <= maxSegments - 2 && i < j
    ensures 1 <= PickIndex(lib, n, maxSegments, i) <= n - 2
    ensures PickIndex(lib, n, maxSegments, i) < PickIndex(lib, n, maxSegments, j)
  {
    var step := Step(n, maxSegments);
    StepAboveOne(n, maxSegments);
    RoundBounds(lib, i as real * step);
    RoundBounds(lib, j as real * step);
    RoundedPicks(step, maxSegments - 1, n - 1, i, j, PickIndex(lib, n, maxSegments, i), PickIndex(lib, n, maxSegments, j));
  }

  /**
   * Roundings rx of i * step and ry of j * step, where step > 1,
   * m * step = last, 1 <= i <= m - 1 and i < j: rx is an index in
   * 1 .. last - 1 and ry is larger.
   */
  lemma RoundedPicks(step: real, m: nat, last: int, i: nat, j: nat, rx: int, ry: int)
    requires step > 1.0 && m as real * step == last as real && 1 <= i && i + 1 <= m && i < j
    requires i as real * step - 0.5 <= rx as real <= i as real * step + 0.5
    requires j as real * step - 0.5 <= ry as real
    ensures 1 <= rx <= last - 1 && rx < ry
  {
    PosIsProduct(step, i);
    PosIsProduct(step, j);
    PosIsProduct(step, m);
    PosGrows(step, 0, i);
    PosGrows(step, i, m);
    PosGrows(step, i, j);
    RoundedOrder(Pos(step, i), Pos(step, j), step, last, rx, ry);
  }

  /**
   * The points kept after the steps i = 1 .. k - 1 of _limit_segments'
   * loop: the first point, then each picked point that is not already kept.
   * The source tests only idx < n; a negative pick, which Python would
   * read from the end, never occurs (PickIndexBounds), so the model keeps
   * indices non-negative.
   */
  function Picked(lib: Libm, coords: seq<Point>, maxSegments: int, k: int): (r: seq<Point>)
    requires maxSegments >= 2 && |coords| > maxSegments && 1 <= k
    decreases k
  {
    if k == 1 then [coords[0]]
    else
      var prev := Picked(lib, coords, maxSegments, k - 1);
      var idx := PickIndex(lib, |coords|, maxSegments, k - 1);
      if 0 <= idx < |coords| && coords[idx] !in prev then prev + [coords[idx]] else prev
  }

  /** One more step of the loop: a pick in range is kept when it is not kept already. */
  lemma PickedStep(lib: Libm, coords: seq<Point>, maxSegments: int, i: int, idx: int, r: seq<Point>)
    requires maxSegments >= 2 && |coords| > maxSegments && 1 <= i
    requires r == Picked(lib, coords, maxSegments, i)
    requires idx == PickIndex(lib, |coords|, maxSegments, i) && 0 <= idx < |coords|
    ensures Picked(lib, coords, maxSegments, i + 1) == if coords[idx] !in r then r + [coords[idx]] else r
  {
  }

  /**
   * What _limit_segments returns: the polyline itself when it has at most
   * maxSegments points, else the kept points followed by the last point.
   */
  function Limited(lib: Libm, coords: seq<Point>, maxSegments: int): seq<Point>
    requires RoundsToNearest(lib) && maxSegments >= 2
  {
    if |coords| <= maxSegments then coords
    else Picked(lib, coords, maxSegments, maxSegments - 1) + [coords[|coords| - 1]]
  }

  /**
   * _limit_segments, with Python's round as lib.roundInt. The step divides
   * by maxSegments - 1, so the source needs maxSegments >= 2.
   */
  method LimitSegments(lib: Libm, coords: seq<Point>, maxSegments: int) returns (r: seq<Point>)
    requires RoundsToNearest(lib) && maxSegments >= 2
    ensures r == Limited(lib, coords, maxSegments)
  {
    if |coords| <= maxSegments {
      return coords;
    }
    r := [coords[0]];
    for i := 1 to maxSegments - 1
      invariant r == Picked(lib, coords, maxSegments, i)
    {
      var idx := PickIndex(lib, |coords|, maxSegments, i);
      PickIndexBounds(lib, |coords|, maxSegments, i, i + 1);
      PickedStep(lib, coords, maxSegments, i, idx, r);
      if idx < |coords| && coords[idx] !in r {
        r := r + [coords[idx]];
      }
    }
    r := r + [coords[|coords| - 1]];
  }

  /** The picks 1 .. maxSegments - 2 are interior indices of an n-point polyline, in increasing order. */
  ghost predicate PicksIncrease(lib: Libm, n: int, maxSegments: int)
    requires maxSegments >= 2
  {
    && (forall i :: 1 <= i <= maxSegments - 2 ==> 1 <= PickIndex(lib, n, maxSegments, i) <= n - 2)
    && (forall i, j :: 1 <= i < j <= maxSegments - 2 ==>
          PickIndex(lib, n, maxSegments, i) < PickIndex(lib, n, maxSegments, j))
  }

  lemma PicksIncreaseHolds(lib: Libm, n: int, maxSegments: int)
    requires RoundsToNearest(lib) && maxSegments >= 2 && n > maxSegments
    ensures PicksIncrease(lib, n, maxSegments)
  {
    forall i | 1 <= i <= maxSegments - 2
      ensures 1 <= PickIndex(lib, n, maxSegments, i) <= n - 2
    {
      PickIndexBounds(lib, n, maxSegments, i, i + 1);
    }
    forall i, j | 1 <= i < j <= maxSegments - 2
      ensures PickIndex(lib, n, maxSegments, i) < PickIndex(lib, n, maxSegments, j)
    {
      PickIndexBounds(lib, n, maxSegments, i, j);
    }
  }

  /** After k - 1 steps the kept points start with the first point and number at most k. */
  lemma {:induction false} PickedSize(lib: Libm, coords: seq<Point>, maxSegments: int, k: int)
    requires maxSegments >= 2 && |coords| > maxSegments && 1 <= k
    ensures var r := Picked(lib, coords, maxSegments, k); 1 <= |r| <= k && r[0] == coords[0]
    decreases k
  {
    if k > 1 {
      PickedSize(lib, coords, maxSegments, k - 1);
    }
  }

  /** The index of the last pick after k - 1 steps: 0 before the first step. */
  function LastPick(lib: Libm, n: int, maxSegments: int, k: int): int
    requires maxSegments >= 2
  {
    if k == 1 then 0 else PickIndex(lib, n, maxSegments, k - 1)
  }

  /**
   * After k - 1 steps the last pick is an index before the last point, and
   * the kept points are taken in order from the polyline up to it.
   */
  lemma {:induction false} PickedInOrder(lib: Libm, coords: seq<Point>, maxSegments: int, k: int)
    requires maxSegments >= 2 && |coords| > maxSegments && 1 <= k <= maxSegments - 1
    requires PicksIncrease(lib, |coords|, maxSegments)
    ensures 0 <= LastPick(lib, |coords|, maxSegments, k) <= |coords| - 2
    ensures Subseq(Picked(lib, coords, maxSegments, k), coords[..LastPick(lib, |coords|, maxSegments, k) + 1])
    decreases k
  {
    var r := Picked(lib, coords, maxSegments, k);
    if k == 1 {
      assert coords[..1] == [coords[0]] == r;
      SubseqRefl(r);
    } else {
      PickedInOrder(lib, coords, maxSegments, k - 1);
      var prev := Picked(lib, coords, maxSegments, k - 1);
      var prevLast := LastPick(lib, |coords|, maxSegments, k - 1);
      var idx := PickIndex(lib, |coords|, maxSegments, k - 1);
      LastPickStep(lib, |coords|, maxSegments, k);
      PickedStep(lib, coords, maxSegments, k - 1, idx, prev);
      KeepInOrder(prev, coords, prevLast, idx, r);
    }
  }

  /** Step k - 1 picks an interior index past the previous pick, and it becomes the last pick. */
  lemma LastPickStep(lib: Libm, n: int, maxSegments: int, k: int)
    requires maxSegments >= 2 && 2 <= k <= maxSegments - 1
    requires PicksIncrease(lib, n, maxSegments)
    ensures var idx := PickIndex(lib, n, maxSegments, k - 1);
      && 1 <= idx <= n - 2
      && LastPick(lib, n, maxSegments, k - 1) < idx
      && LastPick(lib, n, maxSegments, k) == idx
  {
    var idx := PickIndex(lib, n, maxSegments, k - 1);
    assert 1 <= idx <= n - 2;
    if k > 2 {
      assert PickIndex(lib, n, maxSegments, k - 2) < idx;
    }
  }

  /** One step of the loop keeps the kept points in order, up to the new pick. */
  lemma KeepInOrder(prev: seq<Point>, coords: seq<Point>, last: nat, idx: nat, r: seq<Point>)
    requires last < idx < |coords| && Subseq(prev, coords[..last + 1])
    requires r == if coords[idx] !in prev then prev + [coords[idx]] else prev
    ensures Subseq(r, coords[..idx + 1])
  {
    SubseqPick(prev, coords, last, idx);
  }

  /**
   * _limit_segments keeps a polyline of at most maxSegments points as it
   * is; a longer one becomes at least two and at most maxSegments of its
   * points, in order, starting with its first and ending with its last.
   */
  lemma LimitedProperties(lib: Libm, coords: seq<Point>, maxSegments: int)
    requires RoundsToNearest(lib) && maxSegments >= 2
    ensures var r := Limited(lib, coords, maxSegments);
      && (|coords| <= maxSegments ==> r == coords)
      && (|coords| > maxSegments ==>
            2 <= |r| <= maxSegments && r[0] == coords[0] && r[|r| - 1] == coords[|coords| - 1])
      && Subseq(r, coords)
  {
    var n := |coords|;
    if n <= maxSegments {
      SubseqRefl(coords);
    } else {
      var k := maxSegments - 1;
      PicksIncreaseHolds(lib, n, maxSegments);
      PickedSize(lib, coords, maxSegments, k);
      PickedInOrder(lib, coords, maxSegments, k);
      var p := Picked(lib, coords, maxSegments, k);
      var last := LastPick(lib, n, maxSegments, k);
      SubseqPick(p, coords, last, n - 1);
      assert coords[..n] == coords;
    }
  }
}
