// The lane-boundary part of ShapefileReader and ShapefileReadingHandler in
// SoftwareCopyright/shp2opendrive/shp_reader.py: boundaries of one road are
// sorted by their `index` string and adjacent ones are paired into lane
// surfaces, each with a truncated midpoint centre line, per-index widths and
// the merged attributes of its two boundaries.

module LaneShapefile {
  import opened Common
  import opened Dicts

  /** ShapefileReader's coordinate_precision, clamped to 1 .. 10. */
  function ClampPrecision(p: int): (r: int)
    ensures 1 <= r <= 10
    ensures 1 <= p <= 10 ==> r == p
    ensures p < 1 ==> r == 1
    ensures p > 10 ==> r == 10
  {
    MaxInt(1, MinInt(10, p))
  }

  // ------------------------------------------------------ format detection

  function UpperChar(c: char): char
  {
    if 'a' <= c <= 'z' then (c as int - 32) as char else c
  }

  /** str.upper() on ASCII letters. */
  function Upper(s: string): (r: string)
    ensures |r| == |s| && forall i :: 0 <= i < |s| ==> r[i] == UpperChar(s[i])
  {
    seq(|s|, i requires 0 <= i < |s| => UpperChar(s[i]))
  }

  /** _is_lane_shapefile: the upper-cased column names include ROADID and INDEX. */
  predicate IsLaneShapefile(columns: seq<string>)
  {
    var upper := seq(|columns|, i requires 0 <= i < |columns| => Upper(columns[i]));
    "ROADID" in upper && "INDEX" in upper
  }

  /** The check ignores case: the source's own RoadID and Index columns are detected. */
  lemma IsLaneShapefileIgnoresCase(columns: seq<string>)
    requires "RoadID" in columns && "Index" in columns
    ensures IsLaneShapefile(columns)
  {
    var upper := seq(|columns|, i requires 0 <= i < |columns| => Upper(columns[i]));
    var i :| 0 <= i < |columns| && columns[i] == "RoadID";
    var j :| 0 <= j < |columns| && columns[j] == "Index";
    assert upper[i] == "ROADID";
    assert upper[j] == "INDEX";
  }

  /**
   * _is_lane_format (also ShpToOpenDriveConverter._is_lane_format): false for
   * no records, otherwise whether the first record has road_id, lanes and
   * lane_surfaces.
   */
  predicate IsLaneFormat<V>(records: seq<Dict<V>>)
  {
    |records| > 0 && forall key :: key in ["road_id", "lanes", "lane_surfaces"] ==> Get(records[0], key).Some?
  }

  /** Only the first record is looked at, and a record without lane_surfaces is not lane format. */
  lemma IsLaneFormatFirstOnly<V>(records: seq<Dict<V>>, rest: seq<Dict<V>>)
    requires |records| > 0
    ensures IsLaneFormat(records + rest) == IsLaneFormat(records[..1])
    ensures Get(records[0], "lane_surfaces").None? ==> !IsLaneFormat(records)
  {
    assert (records + rest)[0] == records[..1][0];
  }

  // ------------------------------------------------------- string ordering

  /** Python's `<` on strings: code point by code point, a proper prefix first. */
  predicate LexLess(a: string, b: string)
  {
    if a == [] then b != []
    else if b == [] then false
    else if a[0] < b[0] then true
    else if a[0] == b[0] then LexLess(a[1..], b[1..])
    else false
  }

  lemma {:induction false} LexLessIrreflexive(a: string)
    ensures !LexLess(a, a)
  {
    if a != [] {
      LexLessIrreflexive(a[1..]);
    }
  }

  lemma {:induction false} LexLessTotal(a: string, b: string)
    ensures a == b || LexLess(a, b) || LexLess(b, a)
  {
    if a != [] && b != [] && a[0] == b[0] {
      LexLessTotal(a[1..], b[1..]);
      if a[1..] == b[1..] {
        assert a == [a[0]] + a[1..] && b == [b[0]] + b[1..];
      }
    }
  }

  lemma {:induction false} LexLessTransitive(a: string, b: string, c: string)
    requires LexLess(a, b) && LexLess(b, c)
    ensures LexLess(a, c)
  {
    if a != [] && a[0] == b[0] && b[0] == c[0] {
      LexLessTransitive(a[1..], b[1..], c[1..]);
    }
  }

  lemma LexLessAsymmetric(a: string, b: string)
    requires LexLess(a, b)
    ensures !LexLess(b, a)
  {
    if LexLess(b, a) {
      LexLessTransitive(a, b, a);
      LexLessIrreflexive(a);
    }
  }

  /** "10" sorts before "2": the comparison is on characters, not numbers. */
  lemma TenBeforeTwo()
    ensures LexLess("10", "2")
  {
  }

  // ---------------------------------------------------------------- sorting

  /** A boundary line of one road: its index string, its vertices and its attribute row. */
  datatype Boundary = Boundary(index: string, coordinates: seq<Point>, attributes: Dict<Value>)

  /** No index is smaller than an index before it. */
  ghost predicate SortedByIndex(bs: seq<Boundary>)
  {
    forall i, j :: 0 <= i < j < |bs| ==> !LexLess(bs[j].index, bs[i].index)
  }

  /** Inserts b after every boundary whose index is not greater (so equal indices keep their order). */
  function Insert(b: Boundary, sorted: seq<Boundary>): (r: seq<Boundary>)
    ensures |r| == |sorted| + 1
  {
    if sorted == [] then [b]
    else if LexLess(b.index, sorted[0].index) then [b] + sorted
    else [sorted[0]] + Insert(b, sorted[1..])
  }

  /** sorted(boundaries, key=lambda x: x['index']): a stable sort by the index string. */
  function SortByIndex(bs: seq<Boundary>): (r: seq<Boundary>)
    ensures |r| == |bs|
  {
    if bs == [] then [] else Insert(bs[|bs| - 1], SortByIndex(bs[..|bs| - 1]))
  }

  /** No boundary of s has an index below `key`. */
  ghost predicate NoneBelow(key: string, s: seq<Boundary>)
  {
    forall k :: 0 <= k < |s| ==> !LexLess(s[k].index, key)
  }

  lemma {:induction false} InsertMultiset(b: Boundary, sorted: seq<Boundary>)
    ensures multiset(Insert(b, sorted)) == multiset(sorted) + multiset{b}
  {
    if sorted != [] && !LexLess(b.index, sorted[0].index) {
      InsertMultiset(b, sorted[1..]);
      assert sorted == [sorted[0]] + sorted[1..];
    }
  }

  /** Inserting a boundary not below `key` into boundaries not below `key` keeps them all not below it. */
  lemma {:induction false} InsertNoneBelow(key: string, b: Boundary, sorted: seq<Boundary>)
    requires NoneBelow(key, sorted) && !LexLess(b.index, key)
    ensures NoneBelow(key, Insert(b, sorted))
  {
    if sorted != [] && !LexLess(b.index, sorted[0].index) {
      InsertNoneBelow(key, b, sorted[1..]);
      var r := Insert(b, sorted);
      assert forall k :: 1 <= k < |r| ==> r[k] == Insert(b, sorted[1..])[k - 1];
    }
  }

  /** A sorted list with a head no other index is below is sorted. */
  lemma ConsSorted(x: Boundary, s: seq<Boundary>)
    requires NoneBelow(x.index, s) && SortedByIndex(s)
    ensures SortedByIndex([x] + s)
  {
    var r := [x] + s;
    forall i, j | 0 <= i < j < |r|
      ensures !LexLess(r[j].index, r[i].index)
    {
      if i > 0 {
        assert r[i] == s[i - 1];
      }
      assert r[j] == s[j - 1];
    }
  }

  /** A boundary placed before a sorted list whose head is above it: nothing in the list is below it. */
  lemma FrontNoneBelow(b: Boundary, sorted: seq<Boundary>)
    requires sorted != [] && SortedByIndex(sorted) && LexLess(b.index, sorted[0].index)
    ensures NoneBelow(b.index, sorted)
  {
    forall k | 0 <= k < |sorted|
      ensures !LexLess(sorted[k].index, b.index)
    {
      if LexLess(sorted[k].index, b.index) {
        LexLessTransitive(sorted[k].index, b.index, sorted[0].index);
        if k == 0 {
          LexLessIrreflexive(sorted[0].index);
        }
      }
    }
  }

  lemma {:induction false} InsertSorted(b: Boundary, sorted: seq<Boundary>)
    requires SortedByIndex(sorted)
    ensures SortedByIndex(Insert(b, sorted))
  {
    if sorted != [] {
      var s0 := sorted[0];
      var tail := sorted[1..];
      if LexLess(b.index, s0.index) {
        FrontNoneBelow(b, sorted);
        ConsSorted(b, sorted);
      } else {
        assert SortedByIndex(tail) by {
          forall i, j | 0 <= i < j < |tail|
            ensures !LexLess(tail[j].index, tail[i].index)
          {
            assert tail[i] == sorted[i + 1] && tail[j] == sorted[j + 1];
          }
        }
        assert NoneBelow(s0.index, tail) by {
          forall k | 0 <= k < |tail|
            ensures !LexLess(tail[k].index, s0.index)
          {
            assert tail[k] == sorted[k + 1];
          }
        }
        InsertSorted(b, tail);
        InsertNoneBelow(s0.index, b, tail);
        ConsSorted(s0, Insert(b, tail));
      }
    }
  }

  /** The sort returns a permutation of its input, ordered by index. */
  lemma {:induction false} SortByIndexProperties(bs: seq<Boundary>)
    ensures multiset(SortByIndex(bs)) == multiset(bs)
    ensures SortedByIndex(SortByIndex(bs))
  {
    if bs != [] {
      var n := |bs|;
      SortByIndexProperties(bs[..n - 1]);
      InsertMultiset(bs[n - 1], SortByIndex(bs[..n - 1]));
      InsertSorted(bs[n - 1], SortByIndex(bs[..n - 1]));
      assert bs == bs[..n - 1] + [bs[n - 1]];
    }
  }

  // ---------------------------------------------------------------- surfaces

  /** The {index, coordinates} a lane surface keeps of each of its boundaries. */
  datatype BoundaryRef = BoundaryRef(index: string, coordinates: seq<Point>)

  datatype LaneSurface = LaneSurface(
    surfaceId: string,
    left: BoundaryRef,
    right: BoundaryRef,
    centerLine: seq<Point>,
    widthProfile: seq<real>,
    attributes: Dict<Value>)

  /** _calculate_center_line: midpoints of the pairs, both sides cut to the shorter length. */
  method CalculateCenterLine(left: seq<Point>, right: seq<Point>) returns (centers: seq<Point>)
    ensures |centers| == MinInt(|left|, |right|)
    ensures forall i :: 0 <= i < |centers| ==> centers[i] == Midpoint(left[i], right[i])
  {
    var n := MinInt(|left|, |right|);
    var l := left[..n];
    var r := right[..n];
    centers := [];
    for i := 0 to n
      invariant |centers| == i
      invariant forall k :: 0 <= k < i ==> centers[k] == Midpoint(left[k], right[k])
    {
      var cx := (l[i].x + r[i].x) / 2.0;
      var cy := (l[i].y + r[i].y) / 2.0;
      centers := centers + [Point(cx, cy)];
    }
  }

  /** sqrt((x_l - x_r)**2 + (y_l - y_r)**2): the pair's distance, in the source's operand order. */
  function PairDistance(lib: Libm, l: Point, r: Point): (d: real)
    ensures d == Dist(lib, l, r)
  {
    var squared := (l.x - r.x) * (l.x - r.x) + (l.y - r.y) * (l.y - r.y);
    assert squared == Dist2(l, r) by {
      assert (l.x - r.x) * (l.x - r.x) == (r.x - l.x) * (r.x - l.x);
      assert (l.y - r.y) * (l.y - r.y) == (r.y - l.y) * (r.y - l.y);
    }
    lib.sqrt(squared)
  }

  /** _calculate_width_profile: the distance of each pair rounded to `precision` places, both sides cut to the shorter length. */
  method CalculateWidthProfile(lib: Libm, precision: int, left: seq<Point>, right: seq<Point>) returns (widths: seq<real>)
    ensures |widths| == MinInt(|left|, |right|)
    ensures forall i :: 0 <= i < |widths| ==> widths[i] == lib.roundTo(Dist(lib, left[i], right[i]), precision)
  {
    var n := MinInt(|left|, |right|);
    var l := left[..n];
    var r := right[..n];
    widths := [];
    for i := 0 to n
      invariant |widths| == i
      invariant forall k :: 0 <= k < i ==> widths[k] == lib.roundTo(Dist(lib, left[k], right[k]), precision)
    {
      assert l[i] == left[i] && r[i] == right[i];
      var width := PairDistance(lib, l[i], r[i]);
      width := lib.roundTo(width, precision);
      widths := widths + [width];
    }
  }

  /** merged[key] from the left attributes, else from the right ones. */
  function MergedValue(left: Dict<Value>, right: Dict<Value>, key: string): Option<Value>
  {
    if Get(left, key).Some? then Get(left, key) else Get(right, key)
  }

  /**
   * _merge_boundary_attributes: a copy of the left attributes, then every
   * right key the copy lacks. Every key of either side is present and the
   * left value wins a conflict.
   */
  method MergeBoundaryAttributes(left: Dict<Value>, right: Dict<Value>) returns (merged: Dict<Value>)
    requires DistinctKeys(left)
    ensures DistinctKeys(merged)
    ensures forall key :: Get(merged, key) == MergedValue(left, right, key)
  {
    merged := [];
    for i := 0 to |left|
      invariant DistinctKeys(merged)
      invariant forall key :: Get(merged, key) == Get(left[..i], key)
    {
      MergeCopyStep(left, i, merged);
      merged := Put(merged, left[i].0, left[i].1);
    }
    assert left[..|left|] == left;
    for i := 0 to |right|
      invariant DistinctKeys(merged)
      invariant forall key :: Get(merged, key) == MergedValue(left, right[..i], key)
    {
      MergeRightStep(left, right, i, merged);
      if Get(merged, right[i].0).None? {
        merged := Put(merged, right[i].0, right[i].1);
      }
    }
    assert right[..|right|] == right;
  }

  /** One step of the copy: merged[k] = v after the first i pairs agrees with the first i + 1 pairs. */
  lemma MergeCopyStep(left: Dict<Value>, i: nat, merged: Dict<Value>)
    requires i < |left| && DistinctKeys(left) && DistinctKeys(merged)
    requires forall key :: Get(merged, key) == Get(left[..i], key)
    ensures DistinctKeys(Put(merged, left[i].0, left[i].1))
    ensures forall key :: Get(Put(merged, left[i].0, left[i].1), key) == Get(left[..i + 1], key)
  {
    PutKeys(merged, left[i].0, left[i].1);
    forall key
      ensures Get(Put(merged, left[i].0, left[i].1), key) == Get(left[..i + 1], key)
    {
      PutGet(merged, left[i].0, left[i].1, key);
      GetSnoc(left[..i], left[i], key);
      assert left[..i + 1] == left[..i] + [left[i]];
      if key == left[i].0 {
        assert Get(left[..i], key).None? by {
          GetSpec(left[..i], key);
        }
      }
    }
  }

  /** One step over the right attributes: a key the left lacks is added with its right value. */
  lemma MergeRightStep(left: Dict<Value>, right: Dict<Value>, i: nat, merged: Dict<Value>)
    requires i < |right| && DistinctKeys(merged)
    requires forall key :: Get(merged, key) == MergedValue(left, right[..i], key)
    ensures var next := if Get(merged, right[i].0).None? then Put(merged, right[i].0, right[i].1) else merged;
      && DistinctKeys(next)
      && forall key :: Get(next, key) == MergedValue(left, right[..i + 1], key)
  {
    var (k, v) := right[i];
    assert right[..i + 1] == right[..i] + [right[i]];
    PutKeys(merged, k, v);
    var next := if Get(merged, k).None? then Put(merged, k, v) else merged;
    forall key
      ensures Get(next, key) == MergedValue(left, right[..i + 1], key)
    {
      PutGet(merged, k, v, key);
      GetSnoc(right[..i], right[i], key);
    }
  }

  /** Appending a pair: the first pair with the key still wins, the new pair answers only a new key. */
  lemma {:induction false} GetSnoc<V>(d: Dict<V>, kv: (string, V), key: string)
    ensures Get(d + [kv], key) == if Get(d, key).Some? then Get(d, key) else if kv.0 == key then Some(kv.1) else None
  {
    if d != [] {
      assert (d + [kv])[1..] == d[1..] + [kv];
      GetSnoc(d[1..], kv, key);
    }
  }

  /** Surface s pairs boundary l (left) with boundary r (right), as _build_lanes_from_boundaries builds it. */
  ghost predicate SurfaceFrom(lib: Libm, precision: int, l: Boundary, r: Boundary, s: LaneSurface)
  {
    var n := MinInt(|l.coordinates|, |r.coordinates|);
    && s.surfaceId == l.index + "_" + r.index
    && s.left == BoundaryRef(l.index, l.coordinates)
    && s.right == BoundaryRef(r.index, r.coordinates)
    && |s.centerLine| == n
    && (forall k :: 0 <= k < n ==> s.centerLine[k] == Midpoint(l.coordinates[k], r.coordinates[k]))
    && |s.widthProfile| == n
    && (forall k :: 0 <= k < n ==> s.widthProfile[k] == lib.roundTo(Dist(lib, l.coordinates[k], r.coordinates[k]), precision))
    && DistinctKeys(s.attributes)
    && (forall key :: Get(s.attributes, key) == MergedValue(l.attributes, r.attributes, key))
  }

  /**
   * _build_lanes_from_boundaries: after sorting by index, one surface per
   * adjacent pair, so n boundaries give max(n - 1, 0) surfaces and each
   * surface's right boundary is the next surface's left one.
   */
  method BuildLanesFromBoundaries(lib: Libm, precision: int, boundaries: seq<Boundary>) returns (lanes: seq<LaneSurface>)
    requires forall b :: b in boundaries ==> DistinctKeys(b.attributes)
    ensures |lanes| == MaxInt(|boundaries| - 1, 0)
    ensures forall i :: 0 <= i < |lanes| ==> SurfaceFrom(lib, precision, SortByIndex(boundaries)[i], SortByIndex(boundaries)[i + 1], lanes[i])
    ensures forall i :: 0 <= i < |lanes| - 1 ==> lanes[i].right == lanes[i + 1].left
  {
    var sorted := SortByIndex(boundaries);
    SortedAttributes(boundaries);
    lanes := [];
    for i := 0 to MaxInt(|sorted| - 1, 0)
      invariant |lanes| == i
      invariant forall k :: 0 <= k < i ==> SurfaceFrom(lib, precision, sorted[k], sorted[k + 1], lanes[k])
    {
      var surface := BuildSurface(lib, precision, sorted[i], sorted[i + 1]);
      lanes := lanes + [surface];
    }
    SurfacesChain(lib, precision, sorted, lanes);
  }

  /** Surfaces built over consecutive pairs share their middle boundary. */
  lemma SurfacesChain(lib: Libm, precision: int, sorted: seq<Boundary>, lanes: seq<LaneSurface>)
    requires |lanes| < |sorted| || |lanes| == 0
    requires forall i :: 0 <= i < |lanes| ==> SurfaceFrom(lib, precision, sorted[i], sorted[i + 1], lanes[i])
    ensures forall i :: 0 <= i < |lanes| - 1 ==> lanes[i].right == lanes[i + 1].left
  {
    forall i | 0 <= i < |lanes| - 1
      ensures lanes[i].right == lanes[i + 1].left
    {
      assert SurfaceFrom(lib, precision, sorted[i], sorted[i + 1], lanes[i]);
      assert SurfaceFrom(lib, precision, sorted[i + 1], sorted[i + 2], lanes[i + 1]);
    }
  }

  /** Sorting moves boundaries without changing them, so every sorted boundary's attributes are a dict. */
  lemma SortedAttributes(boundaries: seq<Boundary>)
    requires forall b :: b in boundaries ==> DistinctKeys(b.attributes)
    ensures forall k :: 0 <= k < |SortByIndex(boundaries)| ==> DistinctKeys(SortByIndex(boundaries)[k].attributes)
  {
    SortByIndexProperties(boundaries);
    forall k | 0 <= k < |SortByIndex(boundaries)|
      ensures DistinctKeys(SortByIndex(boundaries)[k].attributes)
    {
      assert SortByIndex(boundaries)[k] in multiset(boundaries);
    }
  }

  /** The body of the pairing loop: one lane surface from a left and a right boundary. */
  method BuildSurface(lib: Libm, precision: int, l: Boundary, r: Boundary) returns (surface: LaneSurface)
    requires DistinctKeys(l.attributes)
    ensures SurfaceFrom(lib, precision, l, r, surface)
  {
    var center := CalculateCenterLine(l.coordinates, r.coordinates);
    var widths := CalculateWidthProfile(lib, precision, l.coordinates, r.coordinates);
    var attributes := MergeBoundaryAttributes(l.attributes, r.attributes);
    surface := LaneSurface(l.index + "_" + r.index, BoundaryRef(l.index, l.coordinates),
                           BoundaryRef(r.index, r.coordinates), center, widths, attributes);
  }

  /**
   * The index sort is on strings, so boundaries "1", "2", "10" are paired as
   * 1_10 and 10_2, not 1_2 and 2_10.
   */
  lemma LexicographicPairing(b1: Boundary, b2: Boundary, b10: Boundary)
    requires b1.index == "1" && b2.index == "2" && b10.index == "10"
    ensures SortByIndex([b1, b2, b10]) == [b1, b10, b2]
  {
    assert [b1, b2, b10][..2] == [b1, b2];
    assert [b1, b2][..1] == [b1];
    assert [b1][..0] == [];
    assert SortByIndex([b1]) == [b1];
    assert !LexLess(b2.index, b1.index);
    assert Insert(b2, [b1]) == [b1] + Insert(b2, []);
    assert SortByIndex([b1, b2]) == [b1, b2];
    assert !LexLess(b10.index, b1.index);
    assert LexLess(b10.index, b2.index);
    assert Insert(b10, [b1, b2]) == [b1] + Insert(b10, [b2]);
  }

  // ---------------------------------------------------------------- renaming

  /** mapping.get(key, key). */
  function RenameKey(mapping: Dict<string>, key: string): string
  {
    GetOr(mapping, key, key)
  }

  /** The attributes under their mapped names, a later pair overwriting an earlier one with the same mapped name. */
  function Renamed<V>(attrs: Dict<V>, mapping: Dict<string>): Dict<V>
  {
    if attrs == [] then []
    else
      var last := attrs[|attrs| - 1];
      Put(Renamed(attrs[..|attrs| - 1], mapping), RenameKey(mapping, last.0), last.1)
  }

  /** _map_attributes of ShapefileReadingHandler. */
  method MapAttributes<V>(attrs: Dict<V>, mapping: Dict<string>) returns (mapped: Dict<V>)
    ensures mapped == Renamed(attrs, mapping)
  {
    mapped := [];
    for i := 0 to |attrs|
      invariant mapped == Renamed(attrs[..i], mapping)
    {
      assert attrs[..i + 1][..i] == attrs[..i];
      var (key, value) := attrs[i];
      mapped := Put(mapped, RenameKey(mapping, key), value);
    }
    assert attrs[..|attrs|] == attrs;
  }

  /** Renaming: a name is present exactly when some key maps to it. */
  lemma {:induction false} RenamedKeys<V>(attrs: Dict<V>, mapping: Dict<string>, name: string)
    ensures Get(Renamed(attrs, mapping), name).Some? <==> exists i :: 0 <= i < |attrs| && RenameKey(mapping, attrs[i].0) == name
  {
    if attrs != [] {
      var n := |attrs|;
      var prefix := attrs[..n - 1];
      RenamedKeys(prefix, mapping, name);
      PutGet(Renamed(prefix, mapping), RenameKey(mapping, attrs[n - 1].0), attrs[n - 1].1, name);
      assert forall i :: 0 <= i < n - 1 ==> prefix[i] == attrs[i];
    }
  }

  /** The last key mapped to a name is the one whose value the name holds. */
  ghost predicate LastMappedTo<V>(attrs: Dict<V>, mapping: Dict<string>, name: string, i: int)
  {
    && 0 <= i < |attrs| && RenameKey(mapping, attrs[i].0) == name
    && forall j :: i < j < |attrs| ==> RenameKey(mapping, attrs[j].0) != name
  }

  /** Renaming keeps the value of the last key that maps to each name (unmapped keys keep their names). */
  lemma {:induction false} RenamedValues<V>(attrs: Dict<V>, mapping: Dict<string>, name: string, i: int)
    requires LastMappedTo(attrs, mapping, name, i)
    ensures Get(Renamed(attrs, mapping), name) == Some(attrs[i].1)
  {
    var n := |attrs|;
    var prefix := attrs[..n - 1];
    PutGet(Renamed(prefix, mapping), RenameKey(mapping, attrs[n - 1].0), attrs[n - 1].1, name);
    if i < n - 1 {
      assert LastMappedTo(prefix, mapping, name, i) by {
        assert forall j :: 0 <= j < n - 1 ==> prefix[j] == attrs[j];
      }
      RenamedValues(prefix, mapping, name, i);
    }
  }

  /** A key the mapping does not mention keeps its name. */
  lemma RenameKeyUnmapped(mapping: Dict<string>, key: string)
    requires Get(mapping, key).None?
    ensures RenameKey(mapping, key) == key
  {
  }
}
