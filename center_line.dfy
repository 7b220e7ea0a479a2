// _calculate_center_line and _simplify_width_data of the current
// GeometryConverter (SoftwareCopyright/shp2opendrive/geometry_converter.py):
// both boundaries of a lane surface are resampled by arc length to a common
// count, paired index by index, and each pair gives a centre point (their
// midpoint) and a width sample (their rounded distance) whose s is the
// centre line's length so far.

module CenterLine {
  import opened Common
  import opened Seqs
  import opened Resample

  /** One entry of width_data: s, width, left_point, right_point, center_point. */
  datatype WidthSample = WidthSample(s: real, width: real, left: Point, right: Point, center: Point)

  /**
   * How many points both boundaries are resampled to, given the larger
   * point count m: ten times as many (at least 50) for m <= 10, otherwise
   * twice as many (at least 100).
   */
  function TargetPoints(m: int): int
  {
    if m <= 10 then MaxInt(m * 10, 50) else MaxInt(m * 2, 100)
  }

  /** The width of a pair: their distance rounded to `precision` digits. */
  function PairWidth(lib: Libm, precision: int, left: Point, right: Point): real
  {
    lib.roundTo(Dist(lib, right, left), precision)
  }

  /** The midpoints of the pairs zip() forms, as many as the shorter side has points. */
  function Centers(left: seq<Point>, right: seq<Point>): seq<Point>
  {
    seq(MinInt(|left|, |right|), i requires 0 <= i < MinInt(|left|, |right|) => Midpoint(left[i], right[i]))
  }

  /** The width table of the pairs, s being the centre line's length up to each pair. */
  function Table(lib: Libm, precision: int, left: seq<Point>, right: seq<Point>): seq<WidthSample>
  {
    var c := Centers(left, right);
    seq(|c|, i requires 0 <= i < |c| =>
      WidthSample(PathLength(lib, c[..i + 1]), PairWidth(lib, precision, left[i], right[i]), left[i], right[i], c[i]))
  }

  /**
   * The pairing loop of _calculate_center_line. The look-ahead for the next
   * centre reads right[i + 1] while i < |left| - 1, so a right side that is
   * shorter but not empty raises IndexError.
   */
  function PairUp(lib: Libm, precision: int, left: seq<Point>, right: seq<Point>): Result<(seq<Point>, seq<WidthSample>)>
  {
    if 1 <= |right| < |left| then Err(IndexError)
    else Ok((Centers(left, right), Table(lib, precision, left, right)))
  }

  /** The centre points of a width table. */
  function CentersOf(ws: seq<WidthSample>): seq<Point>
  {
    seq(|ws|, i requires 0 <= i < |ws| => ws[i].center)
  }

  /** s starts at 0 and each entry adds the distance between consecutive centres. */
  ghost predicate SChained(lib: Libm, ws: seq<WidthSample>)
  {
    && (|ws| > 0 ==> ws[0].s == 0.0)
    && forall i :: 0 <= i < |ws| - 1 ==> ws[i + 1].s == ws[i].s + Dist(lib, ws[i].center, ws[i + 1].center)
  }

  /** s never decreases along the table. */
  ghost predicate SNondecreasing(ws: seq<WidthSample>)
  {
    forall i, j :: 0 <= i <= j < |ws| ==> ws[i].s <= ws[j].s
  }

  /** Each table entry whose s is the length of the centre line up to it is chained. */
  lemma ChainedFromLengths(lib: Libm, ws: seq<WidthSample>)
    requires forall i :: 0 <= i < |ws| ==> ws[i].s == PathLength(lib, CentersOf(ws)[..i + 1])
    ensures SChained(lib, ws)
    ensures SqrtNonNegative(lib) ==> SNondecreasing(ws)
  {
    var c := CentersOf(ws);
    forall i | 0 <= i < |ws| - 1
      ensures ws[i + 1].s == ws[i].s + Dist(lib, ws[i].center, ws[i + 1].center)
    {
      PathLengthSnoc(lib, c, i);
    }
    if SqrtNonNegative(lib) {
      forall i, j | 0 <= i <= j < |ws|
        ensures ws[i].s <= ws[j].s
      {
        PathLengthPrefixMono(lib, c, i, j);
      }
    }
  }

  /** The pairing loop, with its running s. */
  method BuildCenterTable(lib: Libm, precision: int, left: seq<Point>, right: seq<Point>)
    returns (r: Result<(seq<Point>, seq<WidthSample>)>)
    ensures r == PairUp(lib, precision, left, right)
  {
    var n := MinInt(|left|, |right|);
    ghost var c := Centers(left, right);
    var centers: seq<Point> := [];
    var data: seq<WidthSample> := [];
    var s := 0.0;
    for i := 0 to n
      invariant centers == c[..i] && data == Table(lib, precision, left, right)[..i]
      invariant i < n ==> s == PathLength(lib, c[..i + 1])
      invariant 1 <= |right| < |left| ==> i < n
    {
      var mid := Midpoint(left[i], right[i]);
      centers := centers + [mid];
      data := data + [WidthSample(s, PairWidth(lib, precision, left[i], right[i]), left[i], right[i], mid)];
      if i < |left| - 1 {
        if i + 1 >= |right| {
          return Err(IndexError);
        }
        var next := Midpoint(left[i + 1], right[i + 1]);
        PathLengthSnoc(lib, c, i);
        s := s + Dist(lib, mid, next);
      }
    }
    assert c[..n] == c;
    assert Table(lib, precision, left, right)[..n] == Table(lib, precision, left, right);
    return Ok((centers, data));
  }

  /**
   * The pairing fails exactly when the right side is shorter but not empty;
   * otherwise each centre is the midpoint of the pair of its entry, the
   * entries pair the two sides index by index, and s is chained from 0 and,
   * with a non-negative sqrt, never decreases.
   */
  lemma PairUpProperties(lib: Libm, precision: int, left: seq<Point>, right: seq<Point>)
    ensures var r := PairUp(lib, precision, left, right);
      && (r.Err? <==> 1 <= |right| < |left|)
      && (r.Ok? ==>
            var (c, w) := r.value;
            && |c| == |w| == MinInt(|left|, |right|)
            && CentersOf(w) == c
            && (forall i :: 0 <= i < |w| ==>
                  w[i].left == left[i] && w[i].right == right[i] && c[i] == Midpoint(left[i], right[i]))
            && SChained(lib, w)
            && (SqrtNonNegative(lib) ==> SNondecreasing(w)))
  {
    var w := Table(lib, precision, left, right);
    assert CentersOf(w) == Centers(left, right);
    ChainedFromLengths(lib, w);
  }

  /** The index of the first point of pts strictly nearest to p (0 when pts is empty). */
  function ClosestIndex(lib: Libm, p: Point, pts: seq<Point>): (k: nat)
    ensures k < MaxInt(|pts|, 1)
  {
    if |pts| <= 1 then 0
    else
      var k := ClosestIndex(lib, p, pts[..|pts| - 1]);
      if Dist(lib, pts[|pts| - 1], p) < Dist(lib, pts[k], p) then |pts| - 1 else k
  }

  /**
   * ClosestIndex is a nearest point, and strictly nearer than every point
   * before it.
   */
  lemma {:induction false} ClosestIndexSpec(lib: Libm, p: Point, pts: seq<Point>)
    requires |pts| >= 1
    ensures var k := ClosestIndex(lib, p, pts);
      && (forall j :: 0 <= j < |pts| ==> Dist(lib, pts[k], p) <= Dist(lib, pts[j], p))
      && (forall j :: 0 <= j < k ==> Dist(lib, pts[k], p) < Dist(lib, pts[j], p))
  {
    if |pts| >= 2 {
      var init := pts[..|pts| - 1];
      ClosestIndexSpec(lib, p, init);
      var k := ClosestIndex(lib, p, init);
      assert forall j :: 0 <= j < |init| ==> init[j] == pts[j];
    }
  }

  /** One more candidate: it replaces the best so far only when strictly nearer. */
  lemma ClosestStep(lib: Libm, p: Point, pts: seq<Point>, i: nat)
    requires 1 <= i < |pts|
    ensures var k := ClosestIndex(lib, p, pts[..i]);
      ClosestIndex(lib, p, pts[..i + 1]) == if Dist(lib, pts[i], p) < Dist(lib, pts[k], p) then i else k
  {
    assert pts[..i + 1][..i] == pts[..i];
  }

  /** The nearest-point scan of _simplify_width_data, starting from an infinite best distance. */
  method FindClosest(lib: Libm, p: Point, pts: seq<Point>) returns (k: nat)
    ensures k == ClosestIndex(lib, p, pts)
  {
    var best: Option<real> := None;
    k := 0;
    for i := 0 to |pts|
      invariant i == 0 ==> best.None? && k == 0
      invariant i >= 1 ==> k == ClosestIndex(lib, p, pts[..i]) && best == Some(Dist(lib, pts[k], p))
    {
      var d := Dist(lib, pts[i], p);
      if i >= 1 {
        ClosestStep(lib, p, pts, i);
      }
      if best.None? || d < best.value {
        best := Some(d);
        k := i;
      }
    }
    if |pts| > 0 {
      assert pts[..|pts|] == pts;
    }
  }

  /**
   * The entries kept for the simplified points: for each, the entry of the
   * nearest original point (if the table has one), moved to the simplified point.
   */
  function Picks(lib: Libm, data: seq<WidthSample>, original: seq<Point>, simplified: seq<Point>): seq<WidthSample>
  {
    if |simplified| == 0 then []
    else
      var prev := Picks(lib, data, original, simplified[..|simplified| - 1]);
      var sp := simplified[|simplified| - 1];
      var k := ClosestIndex(lib, sp, original);
      if k < |data| then prev + [data[k].(center := sp)] else prev
  }

  /** The table with each s recomputed as the length of its centre line up to the entry. */
  function Reseated(lib: Libm, ws: seq<WidthSample>): seq<WidthSample>
  {
    var c := CentersOf(ws);
    seq(|ws|, i requires 0 <= i < |ws| => ws[i].(s := PathLength(lib, c[..i + 1])))
  }

  /** What _simplify_width_data returns. */
  function SimplifiedWidthData(lib: Libm, data: seq<WidthSample>, original: seq<Point>, simplified: seq<Point>): seq<WidthSample>
  {
    if |data| == 0 || |simplified| == 0 then data
    else Reseated(lib, Picks(lib, data, original, simplified))
  }

  /** The s recomputation loop, assigning s entry by entry. */
  method Reseat(lib: Libm, ws: seq<WidthSample>) returns (r: seq<WidthSample>)
    ensures r == Reseated(lib, ws)
  {
    ghost var c := CentersOf(ws);
    ghost var target := Reseated(lib, ws);
    r := ws;
    var s := 0.0;
    for i := 0 to |ws|
      invariant |r| == |ws|
      invariant forall k :: 0 <= k < i ==> r[k] == target[k]
      invariant forall k :: i <= k < |ws| ==> r[k] == ws[k]
      invariant i < |ws| ==> s == PathLength(lib, c[..i + 1])
    {
      r := r[i := r[i].(s := s)];
      if i < |ws| - 1 {
        PathLengthSnoc(lib, c, i);
        s := s + Dist(lib, ws[i].center, ws[i + 1].center);
      }
    }
  }

  /** _simplify_width_data. */
  method SimplifyWidthData(lib: Libm, data: seq<WidthSample>, original: seq<Point>, simplified: seq<Point>)
    returns (r: seq<WidthSample>)
    ensures r == SimplifiedWidthData(lib, data, original, simplified)
  {
    if |data| == 0 || |simplified| == 0 {
      return data;
    }
    var picked: seq<WidthSample> := [];
    for j := 0 to |simplified|
      invariant picked == Picks(lib, data, original, simplified[..j])
    {
      var k := FindClosest(lib, simplified[j], original);
      assert simplified[..j + 1][..j] == simplified[..j];
      if k < |data| {
        picked := picked + [data[k].(center := simplified[j])];
      }
    }
    assert simplified[..|simplified|] == simplified;
    r := Reseat(lib, picked);
  }

  /** An entry whose width and boundary points are those of some entry of the table. */
  ghost predicate FromTable(x: WidthSample, data: seq<WidthSample>)
  {
    exists j :: 0 <= j < |data| && x.width == data[j].width && x.left == data[j].left && x.right == data[j].right
  }

  /**
   * The kept entries sit, in order, on simplified points and carry the width
   * and boundary points of table entries; when every original point has a
   * table entry, there is one entry per simplified point.
   */
  lemma {:induction false} PicksProperties(lib: Libm, data: seq<WidthSample>, original: seq<Point>, simplified: seq<Point>)
    ensures var p := Picks(lib, data, original, simplified);
      && |p| <= |simplified|
      && Subseq(CentersOf(p), simplified)
      && (forall k :: 0 <= k < |p| ==> FromTable(p[k], data))
      && (1 <= |data| && |original| <= |data| ==> CentersOf(p) == simplified)
    decreases |simplified|
  {
    if |simplified| > 0 {
      var init := simplified[..|simplified| - 1];
      var sp := simplified[|simplified| - 1];
      PicksProperties(lib, data, original, init);
      var prev := Picks(lib, data, original, init);
      var k := ClosestIndex(lib, sp, original);
      var p := Picks(lib, data, original, simplified);
      assert simplified == init + [sp];
      if k < |data| {
        assert p == prev + [data[k].(center := sp)];
        assert CentersOf(p) == CentersOf(prev) + [sp];
        SubseqSnoc(CentersOf(prev), init, sp);
        assert FromTable(p[|p| - 1], data);
      } else {
        SubseqExtend(CentersOf(prev), init, [sp]);
      }
    } else {
      SubseqRefl(simplified);
    }
  }

  /** Reseating keeps every field but s and chains s from 0 along the centres. */
  lemma ReseatedProperties(lib: Libm, ws: seq<WidthSample>)
    ensures var r := Reseated(lib, ws);
      && |r| == |ws|
      && (forall i :: 0 <= i < |ws| ==> r[i].(s := ws[i].s) == ws[i])
      && CentersOf(r) == CentersOf(ws)
      && SChained(lib, r)
      && (SqrtNonNegative(lib) ==> SNondecreasing(r))
  {
    var r := Reseated(lib, ws);
    assert CentersOf(r) == CentersOf(ws);
    ChainedFromLengths(lib, r);
  }

  /**
   * _simplify_width_data returns the table unchanged when it or the
   * simplified line is empty. Otherwise its entries sit, in order, on
   * simplified points with the widths of table entries, at most one per
   * simplified point, with s chained from 0; when every original point has
   * a table entry, the entries' centres are exactly the simplified points.
   */
  lemma SimplifiedWidthDataProperties(lib: Libm, data: seq<WidthSample>, original: seq<Point>, simplified: seq<Point>)
    requires |data| > 0 && |simplified| > 0
    ensures var r := SimplifiedWidthData(lib, data, original, simplified);
      && |r| <= |simplified|
      && Subseq(CentersOf(r), simplified)
      && (forall k :: 0 <= k < |r| ==> FromTable(r[k], data))
      && SChained(lib, r)
      && (SqrtNonNegative(lib) ==> SNondecreasing(r))
      && (|original| <= |data| ==> CentersOf(r) == simplified)
  {
    var p := Picks(lib, data, original, simplified);
    PicksProperties(lib, data, original, simplified);
    ReseatedProperties(lib, p);
    var r := Reseated(lib, p);
    forall k | 0 <= k < |r|
      ensures FromTable(r[k], data)
    {
      assert FromTable(p[k], data);
    }
  }

  /** What _calculate_center_line returns; `simplify` is _adaptive_simplify. */
  function CenterLine(lib: Libm, precision: int, preserveDetail: bool, simplify: seq<Point> -> seq<Point>,
                      left: seq<Point>, right: seq<Point>): Result<(seq<Point>, seq<WidthSample>)>
  {
    var target := TargetPoints(MaxInt(|left|, |right|));
    var li := Interpolated(lib, left, target);
    if li.Err? then Err(li.error)
    else
      var ri := Interpolated(lib, right, target);
      if ri.Err? then Err(ri.error)
      else
        var t := PairUp(lib, precision, li.value, ri.value);
        if t.Ok? && preserveDetail && |t.value.0| > 10 then
          var simplified := simplify(t.value.0);
          Ok((simplified, SimplifiedWidthData(lib, t.value.1, t.value.0, simplified)))
        else t
  }

  /**
   * _calculate_center_line: resample both boundaries, pair them, and with
   * preserve_detail simplify a centre line of more than 10 points together
   * with its width table.
   */
  method CalculateCenterLine(lib: Libm, precision: int, preserveDetail: bool, simplify: seq<Point> -> seq<Point>,
                             left: seq<Point>, right: seq<Point>)
    returns (r: Result<(seq<Point>, seq<WidthSample>)>)
    ensures r == CenterLine(lib, precision, preserveDetail, simplify, left, right)
  {
    var maxPoints := MaxInt(|left|, |right|);
    var target := if maxPoints <= 10 then MaxInt(maxPoints * 10, 50) else MaxInt(maxPoints * 2, 100);
    var li := InterpolateCoordinates(lib, left, target);
    if li.Err? {
      return Err(li.error);
    }
    var ri := InterpolateCoordinates(lib, right, target);
    if ri.Err? {
      return Err(ri.error);
    }
    r := BuildCenterTable(lib, precision, li.value, ri.value);
    if r.Ok? && preserveDetail && |r.value.0| > 10 {
      var original := r.value.0;
      var simplified := simplify(original);
      var data := SimplifyWidthData(lib, r.value.1, original, simplified);
      r := Ok((simplified, data));
    }
  }

  /** The resampling count is at least 50 and at least the larger point count. */
  lemma TargetPointsBounds(m: int)
    ensures TargetPoints(m) >= 50 && TargetPoints(m) >= m
    ensures m > 10 ==> TargetPoints(m) >= 2 * m
  {
  }

  /**
   * With a non-negative sqrt and at least two points per boundary,
   * _calculate_center_line can fail only by division by zero (never by the
   * IndexError of the pairing loop). Without preserve_detail a result has
   * exactly TargetPoints centres, each the midpoint of its entry's boundary
   * points, the first pair being the two boundaries' first points, with s
   * chained from 0 and never decreasing.
   */
  lemma CenterLineProperties(lib: Libm, precision: int, simplify: seq<Point> -> seq<Point>,
                             left: seq<Point>, right: seq<Point>)
    requires SqrtNonNegative(lib) && |left| >= 2 && |right| >= 2
    ensures var r := CenterLine(lib, precision, false, simplify, left, right);
      var target := TargetPoints(MaxInt(|left|, |right|));
      && (r.Err? ==> r.error == ZeroDivision)
      && (r.Ok? ==>
            var (c, w) := r.value;
            && |c| == |w| == target
            && CentersOf(w) == c
            && (forall i :: 0 <= i < |w| ==> c[i] == Midpoint(w[i].left, w[i].right))
            && w[0].left == left[0] && w[0].right == right[0]
            && SChained(lib, w) && SNondecreasing(w))
  {
    var target := TargetPoints(MaxInt(|left|, |right|));
    TargetPointsBounds(MaxInt(|left|, |right|));
    InterpolatedStartsAtFirst(lib, left, target);
    InterpolatedStartsAtFirst(lib, right, target);
    InterpolatedErrors(lib, left, target);
    InterpolatedErrors(lib, right, target);
    var li := Interpolated(lib, left, target);
    var ri := Interpolated(lib, right, target);
    if li.Ok? && ri.Ok? {
      PairUpProperties(lib, precision, li.value, ri.value);
    }
  }

  /**
   * With preserve_detail, a centre line of more than 10 points is replaced
   * by its simplification, with exactly one width entry per simplified
   * point, sitting on it, carrying the width of a table entry, and s
   * rechained from 0.
   */
  lemma CenterLinePreserveProperties(lib: Libm, precision: int, simplify: seq<Point> -> seq<Point>,
                                     left: seq<Point>, right: seq<Point>)
    ensures var r := CenterLine(lib, precision, true, simplify, left, right);
      var plain := CenterLine(lib, precision, false, simplify, left, right);
      && (r.Err? <==> plain.Err?)
      && (r.Ok? && |plain.value.0| > 10 && |simplify(plain.value.0)| > 0 ==>
            var (c, w) := r.value;
            && c == simplify(plain.value.0)
            && CentersOf(w) == c
            && (forall k :: 0 <= k < |w| ==> FromTable(w[k], plain.value.1))
            && SChained(lib, w))
  {
    var target := TargetPoints(MaxInt(|left|, |right|));
    var li := Interpolated(lib, left, target);
    var ri := Interpolated(lib, right, target);
    if li.Ok? && ri.Ok? {
      PairUpProperties(lib, precision, li.value, ri.value);
      var plain := PairUp(lib, precision, li.value, ri.value);
      if plain.Ok? && |plain.value.0| > 10 && |simplify(plain.value.0)| > 0 {
        SimplifiedWidthDataProperties(lib, plain.value.1, plain.value.0, simplify(plain.value.0));
      }
    }
  }
}
