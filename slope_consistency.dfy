// analyze_slope_consistency.py: whether roads that meet end to start in a
// written OpenDRIVE file also agree in heading there. Each road's first
// geometry gives a start pose and an end pose; each pair of roads is tried
// in both directions, and a joint is recorded where an end lies within the
// position tolerance of a start.

module SlopeConsistency {
  import opened Common
  import opened XmlTree
  import AttributeValues
  import XodrToObj
  import opened CubicBoundarySolve
  import opened Seqs

  const PositionTolerance: real := 0.1
  const HeadingTolerance: real := 1.0
  const ConversionError: string := "ValueError"

  /** road_info: the id, the length and the two poses, headings also in degrees. */
  datatype RoadEnds = RoadEnds(id: Option<string>, length: real,
                               startX: real, startY: real, endX: real, endY: real,
                               startHdg: real, endHdg: real, startHdgDeg: real, endHdgDeg: real)

  /** One recorded joint: road `from` ends where road `to` starts. */
  datatype Connection = Connection(fromId: Option<string>, toId: Option<string>, point: (real, real),
                                   fromEndHdg: real, toStartHdg: real, hdgDifference: real, isConsistent: bool)

  /** float(e.get(name)): None when the attribute is missing or does not parse. */
  function RequiredFloat(e: Element, name: string): Option<real>
  {
    match Attribute(e, name)
    case None => None
    case Some(v) => AttributeValues.ParseFloatString(v)
  }

  /** math.degrees. */
  function Degrees(lib: Libm, r: real): real
    requires lib.pi != 0.0
  {
    r * 180.0 / lib.pi
  }

  // ------------------------------------------------------------ end poses

  /** The end of a line geometry: length along the start heading, heading unchanged. */
  function LineEnd(lib: Libm, x: real, y: real, hdg: real, length: real): (real, real, real)
  {
    (x + length * lib.cos(hdg), y + length * lib.sin(hdg), hdg)
  }

  /**
   * The end of a paramPoly3 geometry: the local end point at t = 1 rotated
   * by hdg and moved to (x, y); the heading turns by the angle of the
   * local tangent at t = 1.
   */
  function ParamPoly3End(lib: Libm, x: real, y: real, hdg: real, u: Cubic, v: Cubic): (real, real, real)
  {
    var uEnd := u.a + u.b + u.c + u.d;
    var vEnd := v.a + v.b + v.c + v.d;
    var dudt := u.b + 2.0 * u.c + 3.0 * u.d;
    var dvdt := v.b + 2.0 * v.c + 3.0 * v.d;
    (x + uEnd * lib.cos(hdg) - vEnd * lib.sin(hdg),
     y + uEnd * lib.sin(hdg) + vEnd * lib.cos(hdg),
     hdg + lib.atan2(dvdt, dudt))
  }

  /** The line end is the point the mesh converter samples at s = length. */
  lemma LineEndIsLinePoint(lib: Libm, x: real, y: real, hdg: real, length: real)
    ensures var e := LineEnd(lib, x, y, hdg, length);
            var p := XodrToObj.LinePoint(lib, x, y, hdg, length);
            e.0 == p.x && e.1 == p.y && e.2 == p.heading
  {
  }

  /** The paramPoly3 end reads the polynomials at t = 1: position from Eval, heading from Slope. */
  lemma ParamPoly3EndIsEval(lib: Libm, x: real, y: real, hdg: real, u: Cubic, v: Cubic)
    ensures var e := ParamPoly3End(lib, x, y, hdg, u, v);
            e.0 == x + Eval(u, 1.0) * lib.cos(hdg) - Eval(v, 1.0) * lib.sin(hdg)
            && e.1 == y + Eval(u, 1.0) * lib.sin(hdg) + Eval(v, 1.0) * lib.cos(hdg)
            && e.2 == hdg + lib.atan2(Slope(v, 1.0), Slope(u, 1.0))
  {
    assert Eval(u, 1.0) == u.a + u.b + u.c + u.d;
    assert Eval(v, 1.0) == v.a + v.b + v.c + v.d;
    assert Slope(u, 1.0) == u.b + 2.0 * u.c + 3.0 * u.d;
    assert Slope(v, 1.0) == v.b + 2.0 * v.c + 3.0 * v.d;
  }

  /**
   * For a paramPoly3 solved from boundary conditions, the analysis finds the
   * end position and end tangent the solve was asked for, placed in the
   * global frame.
   */
  lemma SolvedParamPoly3End(lib: Libm, x: real, y: real, hdg: real, k: Boundary)
    ensures var uv := SolveConstraints(k);
            var e := ParamPoly3End(lib, x, y, hdg, uv.0, uv.1);
            e.0 == x + k.endU * lib.cos(hdg) - k.endV * lib.sin(hdg)
            && e.1 == y + k.endU * lib.sin(hdg) + k.endV * lib.cos(hdg)
            && e.2 == hdg + lib.atan2(k.endTangentV * k.totalLength, k.endTangentU * k.totalLength)
  {
    var uv := SolveConstraints(k);
    ParamPoly3EndIsEval(lib, x, y, hdg, uv.0, uv.1);
    AllConstraintsMet(k, uv.0, uv.1);
  }

  // -------------------------------------------------------- road extraction

  /** The eight aU..dV attributes of a paramPoly3 element. */
  function Coefficients(pp: Element): Option<(Cubic, Cubic)>
  {
    match (RequiredFloat(pp, "aU"), RequiredFloat(pp, "bU"), RequiredFloat(pp, "cU"), RequiredFloat(pp, "dU"))
    case (Some(aU), Some(bU), Some(cU), Some(dU)) =>
      (match (RequiredFloat(pp, "aV"), RequiredFloat(pp, "bV"), RequiredFloat(pp, "cV"), RequiredFloat(pp, "dV"))
       case (Some(aV), Some(bV), Some(cV), Some(dV)) => Some((Cubic(aU, bU, cU, dU), Cubic(aV, bV, cV, dV)))
       case _ => None)
    case _ => None
  }

  /** The end pose of a first geometry: paramPoly3 when it has one, a line otherwise. */
  function GeometryEnd(lib: Libm, g: Element, x: real, y: real, hdg: real, length: real): Result<(real, real, real)>
  {
    match Find(g, "paramPoly3")
    case Some(pp) =>
      (match Coefficients(pp)
       case Some(uv) => Ok(ParamPoly3End(lib, x, y, hdg, uv.0, uv.1))
       case None => Err(ConversionError))
    case None => Ok(LineEnd(lib, x, y, hdg, length))
  }

  /**
   * One road of the loop: Ok(None) when it has no planView or no geometry,
   * Err when float() raises on its length or on a geometry attribute.
   */
  function RoadEndsOf(lib: Libm, road: Element): Result<Option<RoadEnds>>
    requires lib.pi != 0.0
  {
    match RequiredFloat(road, "length")
    case None => Err(ConversionError)
    case Some(length) =>
      match Find(road, "planView")
      case None => Ok(None)
      case Some(pv) =>
        match Find(pv, "geometry")
        case None => Ok(None)
        case Some(g) =>
          match (RequiredFloat(g, "x"), RequiredFloat(g, "y"), RequiredFloat(g, "hdg"))
          case (Some(x), Some(y), Some(hdg)) =>
            (match GeometryEnd(lib, g, x, y, hdg, length)
             case Ok(e) =>
               Ok(Some(RoadEnds(Attribute(road, "id"), length, x, y, e.0, e.1, hdg, e.2,
                                Degrees(lib, hdg), Degrees(lib, e.2))))
             case Err(m) => Err(m))
          case _ => Err(ConversionError)
  }

  /** Every road element's outcome, in document order. */
  function Outcomes(lib: Libm, roads: seq<Element>): (r: seq<Result<Option<RoadEnds>>>)
    requires lib.pi != 0.0
    ensures |r| == |roads| && forall i :: 0 <= i < |roads| ==> r[i] == RoadEndsOf(lib, roads[i])
  {
    seq(|roads|, i requires 0 <= i < |roads| => RoadEndsOf(lib, roads[i]))
  }

  /** The roads list: the extracted roads in order, or the first error raised. */
  function Collect(outcomes: seq<Result<Option<RoadEnds>>>): Result<seq<RoadEnds>>
  {
    if outcomes == [] then Ok([])
    else
      match Collect(outcomes[..|outcomes| - 1])
      case Err(m) => Err(m)
      case Ok(done) =>
        match outcomes[|outcomes| - 1]
        case Err(m) => Err(m)
        case Ok(None) => Ok(done)
        case Ok(Some(r)) => Ok(done + [r])
  }

  function RoadsEnds(lib: Libm, roads: seq<Element>): Result<seq<RoadEnds>>
    requires lib.pi != 0.0
  {
    Collect(Outcomes(lib, roads))
  }

  /**
   * Collect fails exactly when some road fails, and otherwise keeps, in
   * order, the roads that had a planView and a geometry.
   */
  lemma {:induction false} CollectSpec(outcomes: seq<Result<Option<RoadEnds>>>)
    ensures Collect(outcomes).Err? <==> exists i :: 0 <= i < |outcomes| && outcomes[i].Err?
    ensures Collect(outcomes).Ok? ==>
              |Collect(outcomes).value| <= |outcomes|
              && forall r :: r in Collect(outcomes).value ==> Ok(Some(r)) in outcomes
  {
    if outcomes != [] {
      var init := outcomes[..|outcomes| - 1];
      CollectSpec(init);
      assert forall i :: 0 <= i < |init| ==> init[i] == outcomes[i];
      assert outcomes == init + [outcomes[|outcomes| - 1]];
    }
  }

  /** Every extracted road comes from a road element of the file; one failing road fails them all. */
  lemma RoadsEndsFrom(lib: Libm, roads: seq<Element>)
    requires lib.pi != 0.0
    ensures RoadsEnds(lib, roads).Err? <==> exists i :: 0 <= i < |roads| && RoadEndsOf(lib, roads[i]).Err?
    ensures RoadsEnds(lib, roads).Ok? ==>
              |RoadsEnds(lib, roads).value| <= |roads|
              && forall r :: r in RoadsEnds(lib, roads).value ==>
                   exists i :: 0 <= i < |roads| && RoadEndsOf(lib, roads[i]) == Ok(Some(r))
  {
    var outs := Outcomes(lib, roads);
    CollectSpec(outs);
    if RoadsEnds(lib, roads).Ok? {
      forall r | r in RoadsEnds(lib, roads).value
        ensures exists i :: 0 <= i < |roads| && RoadEndsOf(lib, roads[i]) == Ok(Some(r))
      {
        var i :| 0 <= i < |outs| && outs[i] == Ok(Some(r));
      }
    }
  }

  /** Once an outcome is an error, every longer prefix collects to the first error. */
  lemma {:induction false} CollectErrSticks(outcomes: seq<Result<Option<RoadEnds>>>, n: nat)
    requires n <= |outcomes| && Collect(outcomes[..n]).Err?
    ensures Collect(outcomes) == Collect(outcomes[..n])
    decreases |outcomes| - n
  {
    if n == |outcomes| {
      assert outcomes[..n] == outcomes;
    } else {
      assert outcomes[..n + 1][..n] == outcomes[..n];
      CollectErrSticks(outcomes, n + 1);
    }
  }

  /** The extraction loop. */
  method ExtractRoads(lib: Libm, roadElements: seq<Element>) returns (r: Result<seq<RoadEnds>>)
    requires lib.pi != 0.0
    ensures r == RoadsEnds(lib, roadElements)
  {
    ghost var outs := Outcomes(lib, roadElements);
    var roads: seq<RoadEnds> := [];
    for i := 0 to |roadElements|
      invariant Collect(outs[..i]) == Ok(roads)
    {
      assert outs[..i + 1][..i] == outs[..i];
      var one := RoadEndsOf(lib, roadElements[i]);
      if one.Err? {
        CollectErrSticks(outs, i + 1);
        return Err(one.error);
      }
      if one.value.Some? {
        roads := roads + [one.value.value];
      }
    }
    assert outs[..|roadElements|] == outs;
    r := Ok(roads);
  }

  // --------------------------------------------------------------- joints

  /**
   * The heading difference in degrees as written: the absolute difference,
   * folded once by 360 - diff when it exceeds 180.
   */
  function FoldedDifferenceAsWritten(a: real, b: real): real
  {
    var diff := Abs(a - b);
    if diff > 180.0 then 360.0 - diff else diff
  }

  /** The angular distance between two headings in degrees, reduced modulo 360 before folding. */
  function FoldedDifference(a: real, b: real): (r: real)
    ensures 0.0 <= r <= 180.0
  {
    var diff := Abs(a - b);
    var reduced := diff - 360.0 * ((diff / 360.0).Floor as real);
    if reduced > 180.0 then 360.0 - reduced else reduced
  }

  /** The two agree whenever the headings are at most a full turn apart. */
  lemma FoldedDifferenceAgrees(a: real, b: real)
    requires Abs(a - b) < 360.0
    ensures FoldedDifference(a, b) == FoldedDifferenceAsWritten(a, b)
  {
    var diff := Abs(a - b);
    assert (diff / 360.0).Floor == 0;
  }

  /**
   * The fold is symmetric and shift-invariant by full turns: headings that
   * differ by a whole number of turns are zero apart.
   */
  lemma FoldedDifferenceTurns(a: real, b: real, turns: int)
    ensures FoldedDifference(a, b) == FoldedDifference(b, a)
    ensures FoldedDifference(a + 360.0 * turns as real, a) == 0.0
  {
    assert Abs(a - b) == Abs(b - a);
    var diff := Abs(a + 360.0 * turns as real - a);
    var n := if turns >= 0 then turns else -turns;
    assert diff == 360.0 * n as real;
    assert diff / 360.0 == n as real;
  }

  /**
   * As written, an end heading of 370 degrees meeting a start heading of 0
   * gives a difference of -10 and counts as consistent, though the headings
   * are 10 degrees apart.
   */
  lemma FoldedDifferenceAsWrittenMisses()
    ensures FoldedDifferenceAsWritten(370.0, 0.0) == -10.0 < HeadingTolerance
    ensures FoldedDifference(370.0, 0.0) == 10.0 > HeadingTolerance
  {
    assert (370.0 / 360.0).Floor == 1;
  }

  /** The connection record for road a's end meeting road b's start, given their folded heading difference. */
  function Connect(a: RoadEnds, b: RoadEnds, diff: real): Connection
  {
    Connection(a.id, b.id, (a.endX, a.endY), a.endHdgDeg, b.startHdgDeg, diff, diff < HeadingTolerance)
  }

  /** Road a's end lies within tolerance of road b's start in both coordinates. */
  predicate Meets(a: RoadEnds, b: RoadEnds)
  {
    Abs(a.endX - b.startX) < PositionTolerance && Abs(a.endY - b.startY) < PositionTolerance
  }

  /**
   * A joint from road a's end to road b's start, when both coordinates are
   * within tolerance, with the heading difference folded as written.
   */
  function Joint(a: RoadEnds, b: RoadEnds): Option<Connection>
  {
    if Meets(a, b) then Some(Connect(a, b, FoldedDifferenceAsWritten(a.endHdgDeg, b.startHdgDeg))) else None
  }

  /**
   * A joint is recorded exactly when both offsets are within tolerance, and
   * is consistent exactly when its difference is below 1 degree. The
   * difference never exceeds 180, and is not negative while the headings
   * are at most a full turn apart.
   */
  lemma JointRule(a: RoadEnds, b: RoadEnds)
    ensures Joint(a, b).Some? <==> Abs(a.endX - b.startX) < PositionTolerance && Abs(a.endY - b.startY) < PositionTolerance
    ensures Joint(a, b).Some? ==>
              var c := Joint(a, b).value;
              c.fromId == a.id && c.toId == b.id && c.point == (a.endX, a.endY)
              && c.hdgDifference <= 180.0
              && (Abs(a.endHdgDeg - b.startHdgDeg) <= 360.0 ==> 0.0 <= c.hdgDifference)
              && (c.isConsistent <==> c.hdgDifference < HeadingTolerance)
  {
  }

  /** The joint with the heading difference reduced modulo 360 before folding. */
  function CorrectedJoint(a: RoadEnds, b: RoadEnds): Option<Connection>
  {
    if Meets(a, b) then Some(Connect(a, b, FoldedDifference(a.endHdgDeg, b.startHdgDeg))) else None
  }

  /** The corrected joint is recorded under the same rule, and its difference always lies in [0, 180]. */
  lemma CorrectedJointRule(a: RoadEnds, b: RoadEnds)
    ensures CorrectedJoint(a, b).Some? <==> Joint(a, b).Some?
    ensures CorrectedJoint(a, b).Some? ==>
              var c := CorrectedJoint(a, b).value;
              c.fromId == a.id && c.toId == b.id && c.point == (a.endX, a.endY)
              && 0.0 <= c.hdgDifference <= 180.0
              && (c.isConsistent <==> c.hdgDifference < HeadingTolerance)
  {
  }

  /** The two joints coincide while the headings are less than a full turn apart. */
  lemma CorrectedJointAgrees(a: RoadEnds, b: RoadEnds)
    requires Abs(a.endHdgDeg - b.startHdgDeg) < 360.0
    ensures CorrectedJoint(a, b) == Joint(a, b)
  {
    FoldedDifferenceAgrees(a.endHdgDeg, b.startHdgDeg);
  }

  /**
   * Road a ending at (0, 0) with heading 370 degrees meets road b starting
   * there with heading 0: the joint as written is consistent with a
   * difference of -10, the corrected one is not, with a difference of 10.
   */
  lemma JointAsWrittenMisses(a: RoadEnds, b: RoadEnds)
    requires a.endX == 0.0 && a.endY == 0.0 && a.endHdgDeg == 370.0
    requires b.startX == 0.0 && b.startY == 0.0 && b.startHdgDeg == 0.0
    ensures Joint(a, b).Some? && Joint(a, b).value.hdgDifference == -10.0 && Joint(a, b).value.isConsistent
    ensures CorrectedJoint(a, b).Some? && CorrectedJoint(a, b).value.hdgDifference == 10.0
            && !CorrectedJoint(a, b).value.isConsistent
  {
    FoldedDifferenceAsWrittenMisses();
  }

  function AsSeq(o: Option<Connection>): seq<Connection>
  {
    match o
    case None => []
    case Some(c) => [c]
  }

  /** Both directions of one pair: i's end to j's start, then j's end to i's start. */
  function PairJoints(a: RoadEnds, b: RoadEnds): seq<Connection>
  {
    AsSeq(Joint(a, b)) + AsSeq(Joint(b, a))
  }

  // The nested loops over i and j > i, generic in what one pair yields.

  /** What the inner loop for item i adds at each j: f(xs[i], xs[j]) when j > i, else nothing. */
  function RowParts<R, C>(f: (R, R) -> seq<C>, xs: seq<R>, i: nat): (r: seq<seq<C>>)
    requires i < |xs|
    ensures |r| == |xs|
    ensures forall j :: 0 <= j < |xs| ==> r[j] == if i < j then f(xs[i], xs[j]) else []
  {
    seq(|xs|, j requires 0 <= j < |xs| => if i < j then f(xs[i], xs[j]) else [])
  }

  /** What the inner loop yields for each i. */
  function Rows<R, C>(f: (R, R) -> seq<C>, xs: seq<R>): (r: seq<seq<C>>)
    ensures |r| == |xs| && forall i :: 0 <= i < |xs| ==> r[i] == Flatten(RowParts(f, xs, i))
  {
    seq(|xs|, i requires 0 <= i < |xs| => Flatten(RowParts(f, xs, i)))
  }

  /** Everything the two loops yield, row after row. */
  function AllPairs<R, C>(f: (R, R) -> seq<C>, xs: seq<R>): seq<C>
  {
    Flatten(Rows(f, xs))
  }

  /** An element is yielded exactly when some pair i < j yields it. */
  lemma AllPairsMember<R, C>(f: (R, R) -> seq<C>, xs: seq<R>, c: C)
    ensures c in AllPairs(f, xs) <==> exists i, j :: 0 <= i < j < |xs| && c in f(xs[i], xs[j])
  {
    var rows := Rows(f, xs);
    FlattenMember(rows, c);
    forall i | 0 <= i < |xs|
      ensures c in rows[i] <==> exists j :: i < j < |xs| && c in f(xs[i], xs[j])
    {
      FlattenMember(RowParts(f, xs, i), c);
    }
  }

  lemma {:induction false} FlattenBound<C>(parts: seq<seq<C>>, bound: nat)
    requires forall k :: 0 <= k < |parts| ==> |parts[k]| <= bound
    ensures |Flatten(parts)| <= bound * |parts|
  {
    if parts != [] {
      FlattenBound(parts[..|parts| - 1], bound);
    }
  }

  /** With at most `bound` items per pair, at most bound·n² items in all. */
  lemma AllPairsCount<R, C>(f: (R, R) -> seq<C>, xs: seq<R>, bound: nat)
    requires forall a, b :: |f(a, b)| <= bound
    ensures |AllPairs(f, xs)| <= bound * |xs| * |xs|
  {
    var rows := Rows(f, xs);
    forall i | 0 <= i < |xs|
      ensures |rows[i]| <= bound * |xs|
    {
      FlattenBound(RowParts(f, xs, i), bound);
    }
    FlattenBound(rows, bound * |xs|);
  }

  /** All joints, row after row. */
  function Joints(roads: seq<RoadEnds>): seq<Connection>
  {
    AllPairs(PairJoints, roads)
  }

  /** A pair yields exactly its joints in the two directions. */
  lemma PairJointsMembers(a: RoadEnds, b: RoadEnds, c: Connection)
    ensures c in PairJoints(a, b) <==> Joint(a, b) == Some(c) || Joint(b, a) == Some(c)
    ensures |PairJoints(a, b)| <= 2
  {
  }

  /**
   * Each unordered pair is examined once, in both directions: a connection
   * is recorded exactly when some road's end meets a different road's start,
   * and there are at most two per pair.
   */
  lemma JointsSound(roads: seq<RoadEnds>, c: Connection)
    ensures c in Joints(roads) <==>
              exists i, j :: 0 <= i < j < |roads| && (Joint(roads[i], roads[j]) == Some(c) || Joint(roads[j], roads[i]) == Some(c))
    ensures |Joints(roads)| <= 2 * |roads| * |roads|
  {
    AllPairsMember(PairJoints, roads, c);
    forall i, j | 0 <= i < j < |roads|
      ensures c in PairJoints(roads[i], roads[j]) <==> Joint(roads[i], roads[j]) == Some(c) || Joint(roads[j], roads[i]) == Some(c)
    {
      PairJointsMembers(roads[i], roads[j], c);
    }
    forall a, b
      ensures |PairJoints(a, b)| <= 2
    {
      PairJointsMembers(a, b, c);
    }
    AllPairsCount(PairJoints, roads, 2);
  }

  /** The two end-to-start checks of one pair. */
  method CheckPair(a: RoadEnds, b: RoadEnds, connections0: seq<Connection>) returns (connections: seq<Connection>)
    ensures connections == connections0 + PairJoints(a, b)
  {
    connections := connections0;
    var forward := Joint(a, b);
    if forward.Some? {
      connections := connections + [forward.value];
    }
    var backward := Joint(b, a);
    if backward.Some? {
      connections := connections + [backward.value];
    }
  }

  /** The inner loop over j. */
  method AnalyzeRow(roads: seq<RoadEnds>, i: nat, connections0: seq<Connection>) returns (connections: seq<Connection>)
    requires i < |roads|
    ensures connections == connections0 + Flatten(RowParts(PairJoints, roads, i))
  {
    ghost var row := RowParts(PairJoints, roads, i);
    connections := connections0;
    for j := 0 to |roads|
      invariant connections == connections0 + Flatten(row[..j])
    {
      FlattenSnoc(row, j);
      Append(connections0, Flatten(row[..j]), row[j]);
      if i >= j {
        assert row[j] == [];
        continue;
      }
      connections := CheckPair(roads[i], roads[j], connections);
    }
    assert row[..|roads|] == row;
  }

  lemma Append(a: seq<Connection>, b: seq<Connection>, c: seq<Connection>)
    ensures a + b + c == a + (b + c)
  {
  }

  /** The pairwise loop of analyze_xodr_slope_consistency. */
  method AnalyzeJoints(roads: seq<RoadEnds>) returns (connections: seq<Connection>)
    ensures connections == Joints(roads)
  {
    ghost var rows := Rows(PairJoints, roads);
    connections := [];
    for i := 0 to |roads|
      invariant connections == Flatten(rows[..i])
    {
      FlattenSnoc(rows, i);
      connections := AnalyzeRow(roads, i, connections);
    }
    assert rows[..|roads|] == rows;
  }

  // -------------------------------------------------------------- summary

  function ConsistentCount(connections: seq<Connection>): (n: nat)
    ensures n <= |connections|
  {
    if connections == [] then 0
    else ConsistentCount(connections[..|connections| - 1]) + (if connections[|connections| - 1].isConsistent then 1 else 0)
  }

  /** The consistent count reaches the total exactly when every joint is consistent. */
  lemma {:induction false} AllConsistent(connections: seq<Connection>)
    ensures ConsistentCount(connections) == |connections| <==> forall c :: c in connections ==> c.isConsistent
  {
    if connections != [] {
      var init := connections[..|connections| - 1];
      AllConsistent(init);
      assert connections == init + [connections[|connections| - 1]];
    }
  }

  /** analyze_xodr_slope_consistency: the connections of the file's roads, or the exception that stopped it. */
  function Analyze(lib: Libm, doc: Document): Result<seq<Connection>>
    requires lib.pi != 0.0
  {
    match doc
    case Parsed(root) =>
      (match RoadsEnds(lib, FindAll(root, "road"))
       case Ok(roads) => Ok(Joints(roads))
       case Err(m) => Err(m))
    case _ => Err("ParseError")
  }

  method AnalyzeXodrSlopeConsistency(lib: Libm, doc: Document) returns (r: Result<seq<Connection>>)
    requires lib.pi != 0.0
    ensures r == Analyze(lib, doc)
  {
    if !doc.Parsed? {
      return Err("ParseError");
    }
    var roads := ExtractRoads(lib, FindAll(doc.root, "road"));
    if roads.Err? {
      return Err(roads.error);
    }
    var connections := AnalyzeJoints(roads.value);
    r := Ok(connections);
  }
}
