// Settings of the current GeometryConverter
// (SoftwareCopyright/shp2opendrive/geometry_converter.py): the constructor's
// clamping of its numeric options, the tolerance actually used for
// simplification, and the choice of fitting routine in convert_road_geometry.

module ConverterConfig {

  /** The converter's fixed cap on points per road before fit_line_segments thins them. */
  const MaxSegmentsPerRoad: int := 50

  /** The routine convert_road_geometry hands a polyline to. */
  datatype Routine =
    | NoSegments          // fewer than two points
    | AdaptiveLines       // _fit_adaptive_line_segments
    | SmoothCurves        // fit_smooth_curve_segments
    | Lines               // fit_line_segments
    | PolynomialCurves    // _fit_polynomial_curves
    | SplineCurves        // _fit_spline_curves

  /** The converter's options once the constructor has run. */
  datatype Settings = Settings(
    tolerance: real,
    smoothCurves: bool,
    preserveDetail: bool,
    fittingMode: string,
    polynomialDegree: int,
    curveSmoothness: real,
    coordinatePrecision: int,
    effectiveTolerance: real)

  function ClampInt(lo: int, hi: int, v: int): int
    requires lo <= hi
  {
    if v < lo then lo else if v > hi then hi else v
  }

  function ClampReal(lo: real, hi: real, v: real): real
    requires lo <= hi
  {
    if v < lo then lo else if v > hi then hi else v
  }

  /**
   * GeometryConverter.__init__: the degree is clamped to [2, 5], the
   * smoothness to [0, 1] and the precision to [1, 10]; the effective
   * tolerance is 0.8 times the tolerance when detail is preserved and 1.5
   * times it otherwise.
   */
  function NewSettings(tolerance: real, smoothCurves: bool, preserveDetail: bool, fittingMode: string,
                       polynomialDegree: int, curveSmoothness: real, coordinatePrecision: int): (c: Settings)
    ensures 2 <= c.polynomialDegree <= 5 && 0.0 <= c.curveSmoothness <= 1.0
    ensures 1 <= c.coordinatePrecision <= 10
    ensures 2 <= polynomialDegree <= 5 ==> c.polynomialDegree == polynomialDegree
    ensures 0.0 <= curveSmoothness <= 1.0 ==> c.curveSmoothness == curveSmoothness
    ensures 1 <= coordinatePrecision <= 10 ==> c.coordinatePrecision == coordinatePrecision
    ensures polynomialDegree < 2 ==> c.polynomialDegree == 2
    ensures polynomialDegree > 5 ==> c.polynomialDegree == 5
    ensures c.effectiveTolerance == if preserveDetail then tolerance * 0.8 else tolerance * 1.5
    ensures c.tolerance == tolerance && c.fittingMode == fittingMode
  {
    Settings(tolerance, smoothCurves, preserveDetail, fittingMode,
             ClampInt(2, 5, polynomialDegree), ClampReal(0.0, 1.0, curveSmoothness),
             ClampInt(1, 10, coordinatePrecision),
             if preserveDetail then tolerance * 0.8 else tolerance * 1.5)
  }

  /** The constructor's defaults: tolerance 3.0, smooth curves, paramPoly3, degree 3, smoothness 0.5, precision 3. */
  function DefaultSettings(): Settings
  {
    NewSettings(3.0, true, false, "parampoly3", 3, 0.5, 3)
  }

  /**
   * Re-clamping is harmless: a converter built from another converter's
   * clamped options and its original tolerance ends up with the same options.
   */
  lemma NewSettingsIdempotent(tolerance: real, smoothCurves: bool, preserveDetail: bool, fittingMode: string,
                              polynomialDegree: int, curveSmoothness: real, coordinatePrecision: int)
    ensures var c := NewSettings(tolerance, smoothCurves, preserveDetail, fittingMode,
                                 polynomialDegree, curveSmoothness, coordinatePrecision);
      NewSettings(tolerance, smoothCurves, preserveDetail, fittingMode,
                  c.polynomialDegree, c.curveSmoothness, c.coordinatePrecision) == c
  {
  }

  /**
   * convert_road_geometry's dispatch on the fitting mode for a polyline of
   * n points: "polyline" uses adaptive lines above 50 points, smooth curves
   * from 3 points when smoothing is on, plain lines otherwise; "polynomial"
   * and "parampoly3" fit polynomials, "spline" splines, and an unknown mode
   * falls back to plain lines.
   */
  function ChooseRoutine(c: Settings, n: nat): (r: Routine)
    ensures n < 2 <==> r == NoSegments
    ensures r == AdaptiveLines <==> c.fittingMode == "polyline" && n > 50
    ensures r == SmoothCurves <==> c.fittingMode == "polyline" && c.smoothCurves && 3 <= n <= 50
    ensures c.fittingMode == "polyline" && 2 <= n <= 50 && (!c.smoothCurves || n == 2) ==> r == Lines
    ensures r == Lines <==> n >= 2 && (if c.fittingMode == "polyline" then n <= 50 && (!c.smoothCurves || n == 2)
                                       else c.fittingMode !in {"polynomial", "spline", "parampoly3"})
    ensures r == PolynomialCurves <==> n >= 2 && (c.fittingMode == "polynomial" || c.fittingMode == "parampoly3")
    ensures r == SplineCurves <==> n >= 2 && c.fittingMode == "spline"
    ensures n >= 2 && c.fittingMode !in {"polyline", "polynomial", "spline", "parampoly3"} ==> r == Lines
  {
    if n < 2 then NoSegments
    else if c.fittingMode == "polyline" then
      if n > 50 then AdaptiveLines
      else if c.smoothCurves && n >= 3 then SmoothCurves
      else Lines
    else if c.fittingMode == "polynomial" then PolynomialCurves
    else if c.fittingMode == "spline" then SplineCurves
    else if c.fittingMode == "parampoly3" then PolynomialCurves
    else Lines
  }
}
