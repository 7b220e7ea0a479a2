// cubic_polynomial_solver.py: the boundary-constraint solve behind the
// paramPoly3 geometry (ASAM OpenDRIVE 1.7 section 7.7.3). A parametric cubic
// u(t), v(t) on t in [0, 1] is pinned by eight conditions: position and
// tangent at both ends. The start conditions fix a and b outright; the end
// conditions leave, per axis, the 2x2 system [[1, 1], [2, 3]] (c, d) = rhs,
// whose determinant is 1, so Cramer's rule solves it exactly.

module CubicBoundarySolve {
  import opened Common

  /** a + b·t + c·t² + d·t³. */
  datatype Cubic = Cubic(a: real, b: real, c: real, d: real)

  function Eval(p: Cubic, t: real): real
  {
    p.a + p.b * t + p.c * t * t + p.d * t * t * t
  }

  /** The derivative b + 2c·t + 3d·t². */
  function Slope(p: Cubic, t: real): real
  {
    p.b + 2.0 * p.c * t + 3.0 * p.d * t * t
  }

  /** The end position and the two unit tangents, in the start's local frame, with the curve length. */
  datatype Boundary = Boundary(endU: real, endV: real,
                               startTangentU: real, startTangentV: real,
                               endTangentU: real, endTangentV: real,
                               totalLength: real)

  /** The coefficient matrix [[1, 1], [2, 3]] shared by both axes. */
  const M11: real := 1.0
  const M12: real := 1.0
  const M21: real := 2.0
  const M22: real := 3.0

  function Determinant(): (r: real)
    ensures r == 1.0
  {
    M11 * M22 - M12 * M21
  }

  /** np.linalg.solve on [[1, 1], [2, 3]] (c, d) = (r1, r2), by Cramer's rule. */
  function Solve2x2(r1: real, r2: real): (cd: (real, real))
  {
    ((r1 * M22 - M12 * r2) / Determinant(), (M11 * r2 - r1 * M21) / Determinant())
  }

  /** Cramer's solution satisfies both equations, and it is the only pair that does. */
  lemma Solve2x2Spec(r1: real, r2: real, c: real, d: real)
    ensures var cd := Solve2x2(r1, r2);
            M11 * cd.0 + M12 * cd.1 == r1 && M21 * cd.0 + M22 * cd.1 == r2
    ensures M11 * c + M12 * d == r1 && M21 * c + M22 * d == r2 ==> (c, d) == Solve2x2(r1, r2)
  {
  }

  /**
   * One axis: a = 0 and b = start tangent · length from the start
   * conditions, then (c, d) from the end position and end tangent.
   */
  function SolveAxis(endPos: real, startTangent: real, endTangent: real, length: real): Cubic
  {
    var b := startTangent * length;
    var cd := Solve2x2(endPos - b, endTangent * length - b);
    Cubic(0.0, b, cd.0, cd.1)
  }

  /** The u and v polynomials for the given boundary. */
  function SolveConstraints(k: Boundary): (uv: (Cubic, Cubic))
  {
    (SolveAxis(k.endU, k.startTangentU, k.endTangentU, k.totalLength),
     SolveAxis(k.endV, k.startTangentV, k.endTangentV, k.totalLength))
  }

  /** The four conditions one axis must meet. */
  predicate MeetsAxis(p: Cubic, endPos: real, startTangent: real, endTangent: real, length: real)
  {
    Eval(p, 0.0) == 0.0 && Slope(p, 0.0) == startTangent * length
    && Eval(p, 1.0) == endPos && Slope(p, 1.0) == endTangent * length
  }

  /** The solved axis meets its four conditions, and is the only cubic that does. */
  lemma SolveAxisExact(endPos: real, startTangent: real, endTangent: real, length: real, p: Cubic)
    ensures MeetsAxis(SolveAxis(endPos, startTangent, endTangent, length), endPos, startTangent, endTangent, length)
    ensures MeetsAxis(p, endPos, startTangent, endTangent, length) ==> p == SolveAxis(endPos, startTangent, endTangent, length)
  {
    var b := startTangent * length;
    Solve2x2Spec(endPos - b, endTangent * length - b, p.c, p.d);
  }

  /** The start coefficients: au = av = 0, bu = start_tangent_u · L and bv = start_tangent_v · L. */
  lemma StartCoefficients(k: Boundary)
    ensures SolveConstraints(k).0.a == 0.0 && SolveConstraints(k).1.a == 0.0
    ensures SolveConstraints(k).0.b == k.startTangentU * k.totalLength
    ensures SolveConstraints(k).1.b == k.startTangentV * k.totalLength
  {
  }

  /** Cramer's rule written out: cu = 3(end_u − bu) − (T_u − bu) and du = (T_u − bu) − 2(end_u − bu). */
  lemma CramerCoefficients(k: Boundary)
    ensures var u := SolveConstraints(k).0;
            var bu := k.startTangentU * k.totalLength;
            var tu := k.endTangentU * k.totalLength;
            u.c == 3.0 * (k.endU - bu) - (tu - bu) && u.d == (tu - bu) - 2.0 * (k.endU - bu)
    ensures var v := SolveConstraints(k).1;
            var bv := k.startTangentV * k.totalLength;
            var tv := k.endTangentV * k.totalLength;
            v.c == 3.0 * (k.endV - bv) - (tv - bv) && v.d == (tv - bv) - 2.0 * (k.endV - bv)
  {
  }

  /** The values the verification block reads back: positions and tangents at t = 0 and t = 1. */
  datatype Verification = Verification(startPosition: (real, real), endPosition: (real, real),
                                       startTangent: (real, real), endTangent: (real, real))

  function Verify(uv: (Cubic, Cubic)): Verification
  {
    Verification((Eval(uv.0, 0.0), Eval(uv.1, 0.0)), (Eval(uv.0, 1.0), Eval(uv.1, 1.0)),
                 (Slope(uv.0, 0.0), Slope(uv.1, 0.0)), (Slope(uv.0, 1.0), Slope(uv.1, 1.0)))
  }

  /**
   * All eight conditions hold exactly: the curve starts at the origin along
   * the start tangent scaled by L, and ends at (end_u, end_v) along the end
   * tangent scaled by L; no other pair of cubics does so.
   */
  lemma AllConstraintsMet(k: Boundary, u: Cubic, v: Cubic)
    ensures Verify(SolveConstraints(k)) ==
              Verification((0.0, 0.0), (k.endU, k.endV),
                           (k.startTangentU * k.totalLength, k.startTangentV * k.totalLength),
                           (k.endTangentU * k.totalLength, k.endTangentV * k.totalLength))
    ensures Verify((u, v)) == Verify(SolveConstraints(k)) ==> (u, v) == SolveConstraints(k)
  {
    SolveAxisExact(k.endU, k.startTangentU, k.endTangentU, k.totalLength, u);
    SolveAxisExact(k.endV, k.startTangentV, k.endTangentV, k.totalLength, v);
  }

  /** The coefficients and the verification block, as solve_cubic_polynomial_constraints returns them. */
  datatype SolveResult = SolveResult(u: Cubic, v: Cubic, verification: Verification)

  /**
   * The worked example: end (100, 20), start tangent (1, 0), length 105 and
   * an end heading 15 degrees off the start heading.
   */
  function ExampleBoundary(lib: Libm): Boundary
  {
    var headingDiff := 15.0 * lib.pi / 180.0;
    Boundary(100.0, 20.0, 1.0, 0.0, lib.cos(headingDiff), lib.sin(headingDiff), 105.0)
  }

  /** solve_cubic_polynomial_constraints. */
  function SolveExample(lib: Libm): (r: SolveResult)
    ensures r.u.a == 0.0 && r.u.b == 105.0 && r.v.a == 0.0 && r.v.b == 0.0
    ensures r.verification.startPosition == (0.0, 0.0) && r.verification.endPosition == (100.0, 20.0)
  {
    var k := ExampleBoundary(lib);
    var uv := SolveConstraints(k);
    AllConstraintsMet(k, uv.0, uv.1);
    SolveResult(uv.0, uv.1, Verify(uv))
  }
}
