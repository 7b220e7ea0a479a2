// _interpolate_coordinates of the current GeometryConverter
// (SoftwareCopyright/shp2opendrive/geometry_converter.py): resampling a
// polyline to a given number of points spaced evenly by arc length. The
// source raises ZeroDivisionError for a target of one point and for a
// sample that falls on a zero-length span; the model returns Err for both.

module Resample {
  import opened Common

  /**
   * The running arc lengths: entry k is the length of the polyline up to
   * coords[k]; a polyline of no point still gets the single entry 0.
   */
  function Distances(lib: Libm, coords: seq<Point>): (d: seq<real>)
    ensures |d| == MaxInt(|coords|, 1) && d[0] == 0.0
  {
    if |coords| <= 1 then [0.0]
    else
      var prev := Distances(lib, coords[..|coords| - 1]);
      prev + [prev[|prev| - 1] + Dist(lib, coords[|coords| - 2], coords[|coords| - 1])]
  }

  /** One more point adds the distance from its predecessor to the last entry. */
  lemma DistancesStep(lib: Libm, coords: seq<Point>, i: nat)
    requires 1 <= i < |coords|
    ensures var d := Distances(lib, coords[..i]);
      Distances(lib, coords[..i + 1]) == d + [d[|d| - 1] + Dist(lib, coords[i - 1], coords[i])]
  {
    assert coords[..i + 1][..i] == coords[..i];
  }

  /** The accumulation loop at the top of _interpolate_coordinates. */
  method BuildDistances(lib: Libm, coords: seq<Point>) returns (d: seq<real>)
    ensures d == Distances(lib, coords)
  {
    d := [0.0];
    if |coords| == 0 {
      return;
    }
    for i := 1 to |coords|
      invariant d == Distances(lib, coords[..i])
    {
      DistancesStep(lib, coords, i);
      d := d + [d[|d| - 1] + Dist(lib, coords[i - 1], coords[i])];
    }
    assert coords[..|coords|] == coords;
  }

  /**
   * Entry k of the running arc lengths is the length of the polyline up to
   * coords[k], and with a non-negative sqrt the entries never decrease.
   */
  lemma {:induction false} DistancesArePathLengths(lib: Libm, coords: seq<Point>)
    ensures var d := Distances(lib, coords);
      && (forall k :: 0 <= k < |coords| ==> d[k] == PathLength(lib, coords[..k + 1]))
      && d[|d| - 1] == PathLength(lib, coords)
      && (SqrtNonNegative(lib) ==> forall k :: 0 <= k < |d| - 1 ==> d[k] <= d[k + 1])
    decreases |coords|
  {
    if |coords| >= 2 {
      var init := coords[..|coords| - 1];
      DistancesArePathLengths(lib, init);
      var d := Distances(lib, coords);
      forall k | 0 <= k < |coords|
        ensures d[k] == PathLength(lib, coords[..k + 1])
      {
        if k < |coords| - 1 {
          assert coords[..k + 1] == init[..k + 1];
        } else {
          assert coords[..k + 1] == coords;
          assert coords[..k + 1][..k] == init;
        }
      }
      assert coords[..|coords|] == coords;
    } else if |coords| == 1 {
      assert coords[..1] == coords;
    }
  }

  /**
   * The first span j >= from with d[j] <= t <= d[j + 1]: the inner loop of
   * _interpolate_coordinates breaks at it.
   */
  function FirstSpanFrom(d: seq<real>, t: real, from: nat): (r: Option<nat>)
    ensures r.Some? ==> from <= r.value < |d| - 1
    decreases |d| - from
  {
    if from + 1 >= |d| then None
    else if d[from] <= t <= d[from + 1] then Some(from)
    else FirstSpanFrom(d, t, from + 1)
  }

  /**
   * FirstSpanFrom finds a span containing t with none before it, and
   * reports None only when no span from `from` on contains t.
   */
  lemma {:induction false} FirstSpanSpec(d: seq<real>, t: real, from: nat)
    ensures var r := FirstSpanFrom(d, t, from);
      && (r.Some? ==>
            d[r.value] <= t <= d[r.value + 1] &&
            forall k :: from <= k < r.value ==> !(d[k] <= t <= d[k + 1]))
      && (r.None? ==> forall k :: from <= k < |d| - 1 ==> !(d[k] <= t <= d[k + 1]))
    decreases |d| - from
  {
    if from + 1 < |d| && !(d[from] <= t <= d[from + 1]) {
      FirstSpanSpec(d, t, from + 1);
    }
  }

  /** In non-decreasing running lengths every t between d[from] and the last entry has a span. */
  lemma {:induction false} SpanExists(d: seq<real>, t: real, from: nat)
    requires forall k :: 0 <= k < |d| - 1 ==> d[k] <= d[k + 1]
    requires from < |d| - 1 && d[from] <= t <= d[|d| - 1]
    ensures FirstSpanFrom(d, t, from).Some?
    decreases |d| - from
  {
    if t > d[from + 1] {
      if from + 2 == |d| {
        assert false;
      } else {
        SpanExists(d, t, from + 1);
      }
    }
  }

  /** The span search loop. */
  method FindSpan(d: seq<real>, t: real) returns (r: Option<nat>)
    ensures r == FirstSpanFrom(d, t, 0)
  {
    var j := 0;
    while j + 1 < |d|
      invariant FirstSpanFrom(d, t, 0) == FirstSpanFrom(d, t, j)
      decreases |d| - j
    {
      if d[j] <= t && t <= d[j + 1] {
        return Some(j);
      }
      j := j + 1;
    }
    return None;
  }

  /** The point a fraction `ratio` of the way from a to b. */
  function Lerp(a: Point, b: Point, ratio: real): Point
  {
    Point(a.x + ratio * (b.x - a.x), a.y + ratio * (b.y - a.y))
  }

  /** Sample i of `target` samples sits at (i / (target - 1)) * total. */
  function Position(i: int, target: int, total: real): real
    requires target != 1
  {
    (i as real / (target - 1) as real) * total
  }

  /**
   * The sample at arc length t: none when no span contains t, an error when
   * the first span containing t has zero length, else the point at the
   * matching fraction of that span.
   */
  function SampleAt(coords: seq<Point>, d: seq<real>, t: real): Result<Option<Point>>
    requires |d| <= MaxInt(|coords|, 1)
  {
    match FirstSpanFrom(d, t, 0)
    case None => Ok(None)
    case Some(j) =>
      if d[j + 1] - d[j] == 0.0 then Err(ZeroDivision)
      else Ok(Some(Lerp(coords[j], coords[j + 1], (t - d[j]) / (d[j + 1] - d[j]))))
  }

  /** The samples i = 0 .. k - 1, or the first error among them. */
  function SamplesUpTo(coords: seq<Point>, d: seq<real>, target: int, k: nat): Result<seq<Point>>
    requires target != 1 && 1 <= |d| <= MaxInt(|coords|, 1)
  {
    if k == 0 then Ok([])
    else
      var prev := SamplesUpTo(coords, d, target, k - 1);
      if prev.Err? then prev
      else
        var s := SampleAt(coords, d, Position(k - 1, target, d[|d| - 1]));
        if s.Err? then Err(s.error)
        else if s.value.None? then prev
        else Ok(prev.value + [s.value.value])
  }

  /** What _interpolate_coordinates returns. */
  function Interpolated(lib: Libm, coords: seq<Point>, target: int): Result<seq<Point>>
  {
    if |coords| == target then Ok(coords)
    else if target == 1 then Err(ZeroDivision)
    else SamplesUpTo(coords, Distances(lib, coords), target, MaxInt(target, 0))
  }

  /**
   * One pass of the sampling loop: find the first span containing t and
   * take the point at the matching fraction of it.
   */
  method Sample(coords: seq<Point>, d: seq<real>, t: real) returns (s: Result<Option<Point>>)
    requires |d| <= MaxInt(|coords|, 1)
    ensures s == SampleAt(coords, d, t)
  {
    var j := FindSpan(d, t);
    if j.None? {
      return Ok(None);
    }
    var k := j.value;
    if d[k + 1] - d[k] == 0.0 {
      return Err(ZeroDivision);
    }
    var ratio := (t - d[k]) / (d[k + 1] - d[k]);
    return Ok(Some(Lerp(coords[k], coords[k + 1], ratio)));
  }

  /**
   * _interpolate_coordinates: a polyline that already has `target` points
   * is returned as it is; otherwise sample i is taken at arc length
   * (i / (target - 1)) * total on the first span containing it.
   */
  method InterpolateCoordinates(lib: Libm, coords: seq<Point>, target: int) returns (r: Result<seq<Point>>)
    ensures r == Interpolated(lib, coords, target)
  {
    if |coords| == target {
      return Ok(coords);
    }
    var d := BuildDistances(lib, coords);
    var total := d[|d| - 1];
    var out: seq<Point> := [];
    var i := 0;
    while i < target
      invariant 0 <= i <= MaxInt(target, 0)
      invariant i > 0 ==> target != 1
      invariant target != 1 ==> SamplesUpTo(coords, d, target, i) == Ok(out)
    {
      if target == 1 {
        return Err(ZeroDivision);
      }
      var s := Sample(coords, d, Position(i, target, total));
      SamplesNext(coords, d, target, i, out);
      if s.Err? {
        SamplesErrSticks(coords, d, target, i + 1, MaxInt(target, 0));
        return Err(s.error);
      }
      if s.value.Some? {
        out := out + [s.value.value];
      }
      i := i + 1;
    }
    return Ok(out);
  }

  /** One more sample: an error ends the run, a missing span adds nothing, a point is appended. */
  lemma SamplesNext(coords: seq<Point>, d: seq<real>, target: int, i: nat, out: seq<Point>)
    requires target != 1 && 1 <= |d| <= MaxInt(|coords|, 1)
    requires SamplesUpTo(coords, d, target, i) == Ok(out)
    ensures var s := SampleAt(coords, d, Position(i, target, d[|d| - 1]));
      SamplesUpTo(coords, d, target, i + 1) ==
        if s.Err? then Err(s.error) else if s.value.None? then Ok(out) else Ok(out + [s.value.value])
  {
  }

  /** For 0 <= f <= 1 and total >= 0, f * total lies in [0, total]. */
  lemma ScaleWithin(f: real, total: real)
    requires 0.0 <= f <= 1.0 && total >= 0.0
    ensures 0.0 <= f * total <= total
  {
    assert f * total <= 1.0 * total by {
      assert (1.0 - f) * total >= 0.0;
    }
  }

  /** Every sample position lies between 0 and the total length, the first at 0. */
  lemma PositionBounds(i: int, target: int, total: real)
    requires target >= 2 && 0 <= i <= target - 1 && total >= 0.0
    ensures 0.0 <= Position(i, target, total) <= total
    ensures i == 0 ==> Position(i, target, total) == 0.0
  {
    var f := i as real / (target - 1) as real;
    RatioWithin(i as real, (target - 1) as real);
    ScaleWithin(f, total);
    if i == 0 {
      assert f == 0.0;
    }
  }

  /**
   * With a non-negative sqrt and at least two points, every sample position
   * has a span: a sample is either a point or an error, never skipped.
   */
  lemma SampleFound(lib: Libm, coords: seq<Point>, target: int, i: int)
    requires SqrtNonNegative(lib) && |coords| >= 2 && target >= 2 && 0 <= i <= target - 1
    ensures var d := Distances(lib, coords);
      FirstSpanFrom(d, Position(i, target, d[|d| - 1]), 0).Some?
  {
    var d := Distances(lib, coords);
    DistancesArePathLengths(lib, coords);
    PathLengthNonNegative(lib, coords);
    PositionBounds(i, target, d[|d| - 1]);
    SpanExists(d, Position(i, target, d[|d| - 1]), 0);
  }

  /** A successful run over k sample positions that all have a span yields k points. */
  lemma {:induction false} SamplesCount(lib: Libm, coords: seq<Point>, target: int, k: nat)
    requires SqrtNonNegative(lib) && |coords| >= 2 && target >= 2 && k <= target
    ensures var r := SamplesUpTo(coords, Distances(lib, coords), target, k);
      r.Ok? ==> |r.value| == k
  {
    if k > 0 {
      SamplesCount(lib, coords, target, k - 1);
      SampleFound(lib, coords, target, k - 1);
    }
  }

  /**
   * With a non-negative sqrt, resampling a polyline of at least two points
   * to at least two points yields exactly `target` points when it succeeds.
   */
  lemma InterpolatedLength(lib: Libm, coords: seq<Point>, target: int)
    requires SqrtNonNegative(lib) && |coords| >= 2 && target >= 2
    ensures var r := Interpolated(lib, coords, target); r.Ok? ==> |r.value| == target
  {
    if |coords| != target {
      SamplesCount(lib, coords, target, target);
    }
  }

  /** Every failure of a run of samples is a division by zero. */
  lemma {:induction false} SamplesErrors(coords: seq<Point>, d: seq<real>, target: int, k: nat)
    requires target != 1 && 1 <= |d| <= MaxInt(|coords|, 1)
    ensures var r := SamplesUpTo(coords, d, target, k); r.Err? ==> r.error == ZeroDivision
  {
    if k > 0 {
      SamplesErrors(coords, d, target, k - 1);
    }
  }

  /** _interpolate_coordinates fails only by division by zero. */
  lemma InterpolatedErrors(lib: Libm, coords: seq<Point>, target: int)
    ensures var r := Interpolated(lib, coords, target); r.Err? ==> r.error == ZeroDivision
  {
    if |coords| != target && target != 1 {
      SamplesErrors(coords, Distances(lib, coords), target, MaxInt(target, 0));
    }
  }

  /** One point asked of a polyline of another size divides 0 by 0. */
  lemma InterpolatedSingleTarget(lib: Libm, coords: seq<Point>)
    requires |coords| != 1
    ensures Interpolated(lib, coords, 1) == Err(ZeroDivision)
  {
  }

  /** Once a sample fails, every longer run fails. */
  lemma {:induction false} SamplesErrSticks(coords: seq<Point>, d: seq<real>, target: int, j: nat, k: nat)
    requires target != 1 && 1 <= |d| <= MaxInt(|coords|, 1) && j <= k
    requires SamplesUpTo(coords, d, target, j).Err?
    ensures SamplesUpTo(coords, d, target, k) == SamplesUpTo(coords, d, target, j)
    decreases k
  {
    if j < k {
      SamplesErrSticks(coords, d, target, j, k - 1);
    }
  }

  /** The first sample sits at arc length 0, on the first span when that span starts there. */
  lemma FirstSample(lib: Libm, coords: seq<Point>, target: int)
    requires SqrtNonNegative(lib) && |coords| >= 2 && target >= 2
    ensures var d := Distances(lib, coords);
      Position(0, target, d[|d| - 1]) == 0.0 && FirstSpanFrom(d, 0.0, 0) == Some(0)
  {
    var d := Distances(lib, coords);
    DistancesArePathLengths(lib, coords);
    PathLengthNonNegative(lib, coords);
    PositionBounds(0, target, d[|d| - 1]);
  }

  /**
   * The division by zero of the source: when the first two points are a
   * zero distance apart, the sample at arc length 0 falls on an empty span
   * and the whole resampling fails.
   */
  lemma InterpolatedCoincidentStart(lib: Libm, coords: seq<Point>, target: int)
    requires SqrtNonNegative(lib) && |coords| >= 2 && target >= 2 && |coords| != target
    requires Dist(lib, coords[0], coords[1]) == 0.0
    ensures Interpolated(lib, coords, target) == Err(ZeroDivision)
  {
    var d := Distances(lib, coords);
    FirstSample(lib, coords, target);
    SecondDistance(lib, coords);
    assert SampleAt(coords, d, 0.0) == Err(ZeroDivision);
    assert SamplesUpTo(coords, d, target, 1).Err?;
    SamplesErrSticks(coords, d, target, 1, target);
  }

  /** The second running length is the distance between the first two points. */
  lemma SecondDistance(lib: Libm, coords: seq<Point>)
    requires |coords| >= 2
    ensures Distances(lib, coords)[1] == Dist(lib, coords[0], coords[1])
  {
    DistancesArePathLengths(lib, coords);
    var two := coords[..2];
    assert two[..1] == [coords[0]];
    assert PathLength(lib, two) == PathLength(lib, two[..1]) + Dist(lib, coords[0], coords[1]);
  }

  /**
   * A successful resampling starts at the first input point: sample 0 is
   * taken at fraction 0 of the first span.
   */
  lemma InterpolatedStartsAtFirst(lib: Libm, coords: seq<Point>, target: int)
    requires SqrtNonNegative(lib) && |coords| >= 2 && target >= 2
    ensures var r := Interpolated(lib, coords, target);
      r.Ok? ==> |r.value| == target && r.value[0] == coords[0]
  {
    InterpolatedLength(lib, coords, target);
    if |coords| != target && Interpolated(lib, coords, target).Ok? {
      FirstSample(lib, coords, target);
      SamplesStartAtFirst(coords, Distances(lib, coords), target, target);
    }
  }

  /** A successful run whose first sample falls at the start of span 0 begins with the first point. */
  lemma SamplesStartAtFirst(coords: seq<Point>, d: seq<real>, target: int, k: nat)
    requires target != 1 && 2 <= |d| <= MaxInt(|coords|, 1) && d[0] == 0.0 && k >= 1
    requires Position(0, target, d[|d| - 1]) == 0.0 && FirstSpanFrom(d, 0.0, 0) == Some(0)
    requires SamplesUpTo(coords, d, target, k).Ok?
    ensures SamplesUpTo(coords, d, target, k).value != []
    ensures SamplesUpTo(coords, d, target, k).value[0] == coords[0]
  {
    SamplesPrefix(coords, d, target, 1, k);
    var first := SampleAt(coords, d, 0.0);
    assert first.Ok? && first.value.Some?;
    assert first.value.value == Lerp(coords[0], coords[1], (0.0 - d[0]) / (d[1] - d[0]));
    assert (0.0 - d[0]) / (d[1] - d[0]) == 0.0;
    assert Lerp(coords[0], coords[1], 0.0) == coords[0];
    assert SamplesUpTo(coords, d, target, 0) == Ok([]);
    assert SamplesUpTo(coords, d, target, 1).value == [coords[0]];
  }

  /** A successful longer run extends every shorter run. */
  lemma {:induction false} SamplesPrefix(coords: seq<Point>, d: seq<real>, target: int, j: nat, k: nat)
    requires target != 1 && 1 <= |d| <= MaxInt(|coords|, 1) && j <= k
    requires SamplesUpTo(coords, d, target, k).Ok?
    ensures SamplesUpTo(coords, d, target, j).Ok?
    ensures SamplesUpTo(coords, d, target, j).value <= SamplesUpTo(coords, d, target, k).value
    decreases k
  {
    if j < k {
      SamplesPrefix(coords, d, target, j, k - 1);
    }
  }

  /**
   * Every resampled point lies on a span of the input: at fraction
   * (t - d[j]) / (d[j + 1] - d[j]), between 0 and 1, of the first span j
   * containing its arc length t.
   */
  lemma SampleOnSpan(coords: seq<Point>, d: seq<real>, t: real)
    requires |d| <= MaxInt(|coords|, 1)
    requires SampleAt(coords, d, t).Ok? && SampleAt(coords, d, t).value.Some?
    ensures var j := FirstSpanFrom(d, t, 0).value;
      var ratio := (t - d[j]) / (d[j + 1] - d[j]);
      && d[j] <= t <= d[j + 1] && d[j] < d[j + 1]
      && 0.0 <= ratio <= 1.0
      && SampleAt(coords, d, t).value.value == Lerp(coords[j], coords[j + 1], ratio)
  {
    FirstSpanSpec(d, t, 0);
    var j := FirstSpanFrom(d, t, 0).value;
    var span := d[j + 1] - d[j];
    RatioWithin(t - d[j], span);
  }

  /** For 0 <= a <= b and b != 0, a / b lies in [0, 1]. */
  lemma RatioWithin(a: real, b: real)
    requires 0.0 <= a <= b && b != 0.0
    ensures 0.0 <= a / b <= 1.0
  {
    assert b > 0.0;
    assert a / b * b == a;
  }
}
