// _optimize_boundary_conditions of the current GeometryConverter
// (SoftwareCopyright/shp2opendrive/geometry_converter.py): the adjustment of
// a fitted paramPoly3 pair u(p), v(p) = a + b p + c p^2 + d p^3 so that it
// starts at the local origin and ends, at p = 1, at the last local sample
// (ASAM OpenDRIVE 1.7 section 7, parametric cubic curves).

module BoundaryConditions {
  import opened Common

  /** The eight paramPoly3 coefficients aU..dU, aV..dV. */
  datatype Coeffs = Coeffs(au: real, bu: real, cu: real, du: real, av: real, bv: real, cv: real, dv: real)

  /** One coordinate polynomial at p = 1: a + b + c + d. */
  function EndValue(a: real, b: real, c: real, d: real): real
  {
    a + b + c + d
  }

  /** Threshold below which a coefficient sum counts as zero. */
  const Negligible: real := 0.0000000001

  /**
   * The b, c, d of one coordinate: unchanged shape scaled so that their sum
   * is the end value, or b set to the end value when the sum is negligible.
   */
  function Rescale(b: real, c: real, d: real, target: real): (r: (real, real, real))
  {
    var sum := b + c + d;
    if Abs(sum) < Negligible then (target, c, d)
    else
      var scale := target / sum;
      (b * scale, c * scale, d * scale)
  }

  /**
   * _optimize_boundary_conditions: both constant terms become 0; degree 1
   * gives the straight segment b = end, c = d = 0; otherwise each
   * coordinate's b, c, d are rescaled. An empty sample list has no last
   * element, which the source reports as an IndexError.
   */
  function OptimizeBoundaryConditions(localU: seq<real>, localV: seq<real>, k: Coeffs, degree: int): (r: Result<Coeffs>)
    ensures r.Ok? <==> |localU| > 0 && |localV| > 0
    ensures r.Ok? ==> r.value.au == 0.0 && r.value.av == 0.0
  {
    if |localU| == 0 || |localV| == 0 then Err(IndexError)
    else
      var endU, endV := localU[|localU| - 1], localV[|localV| - 1];
      if degree == 1 then Ok(Coeffs(0.0, endU, 0.0, 0.0, 0.0, endV, 0.0, 0.0))
      else
        var (bu, cu, du) := Rescale(k.bu, k.cu, k.du, endU);
        var (bv, cv, dv) := Rescale(k.bv, k.cv, k.dv, endV);
        Ok(Coeffs(0.0, bu, cu, du, 0.0, bv, cv, dv))
  }

  /** Scaling by target / sum turns a non-negligible sum into the target. */
  lemma RescaleHitsTarget(b: real, c: real, d: real, target: real)
    requires Abs(b + c + d) >= Negligible
    ensures var (b', c', d') := Rescale(b, c, d, target); b' + c' + d' == target
  {
    var sum := b + c + d;
    var scale := target / sum;
    assert b * scale + c * scale + d * scale == sum * scale;
    assert sum * (target / sum) == target;
  }

  /**
   * The adjusted curve starts at the local origin, and, unless a coefficient
   * sum was negligible, ends at the last local sample: u(1) = end_u and
   * v(1) = end_v. Degree 1 always ends there.
   */
  lemma OptimizeBoundaryConditionsEnds(localU: seq<real>, localV: seq<real>, k: Coeffs, degree: int)
    requires |localU| > 0 && |localV| > 0
    requires degree == 1 || (Abs(k.bu + k.cu + k.du) >= Negligible && Abs(k.bv + k.cv + k.dv) >= Negligible)
    ensures var c := OptimizeBoundaryConditions(localU, localV, k, degree).value;
      EndValue(c.au, c.bu, c.cu, c.du) == localU[|localU| - 1] &&
      EndValue(c.av, c.bv, c.cv, c.dv) == localV[|localV| - 1]
  {
    if degree != 1 {
      RescaleHitsTarget(k.bu, k.cu, k.du, localU[|localU| - 1]);
      RescaleHitsTarget(k.bv, k.cv, k.dv, localV[|localV| - 1]);
    }
  }

  /** Degree 1 yields the straight segment from the origin to the last sample. */
  lemma OptimizeBoundaryConditionsLinear(localU: seq<real>, localV: seq<real>, k: Coeffs)
    requires |localU| > 0 && |localV| > 0
    ensures OptimizeBoundaryConditions(localU, localV, k, 1) ==
      Ok(Coeffs(0.0, localU[|localU| - 1], 0.0, 0.0, 0.0, localV[|localV| - 1], 0.0, 0.0))
  {
  }

  /**
   * A negligible sum keeps c and d and sets b to the end value, so the end
   * is then missed by exactly c + d.
   */
  lemma RescaleNegligible(b: real, c: real, d: real, target: real)
    requires Abs(b + c + d) < Negligible
    ensures var (b', c', d') := Rescale(b, c, d, target);
      b' == target && c' == c && d' == d && b' + c' + d' - target == c + d
  {
  }

  /** Rescaling keeps the ratios between b, c and d: the shape of the curve is kept. */
  lemma RescaleKeepsShape(b: real, c: real, d: real, target: real)
    requires Abs(b + c + d) >= Negligible
    ensures var (b', c', d') := Rescale(b, c, d, target);
      b' * c == c' * b && c' * d == d' * c
  {
    var scale := target / (b + c + d);
    assert (b * scale) * c == (c * scale) * b;
    assert (c * scale) * d == (d * scale) * c;
  }
}
