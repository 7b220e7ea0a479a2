# ShpToOpenDrive, modelled in Dafny

ShpToOpenDrive converts road shapefiles into ASAM OpenDRIVE 1.7 road networks. It also reads OpenDRIVE files back, to sample their geometry, mesh them as Wavefront OBJ, check them and analyse them.

This project models the deterministic core of that pipeline and proves what it promises.

- **Polyline to plan view.** Covers both geometry converters:
  - Douglas-Peucker simplification;
  - `line` emission with a running `s`;
  - curve-run detection, three-point circumcircles and `arc` records;
  - the segment planning and thinning of piecewise fitting;
  - the configuration clamps;
  - the paramPoly3 boundary adjustment and its closed-form cubic solve.
- **Lane surfaces.**
  - Boundary pairing, truncated midpoint centre lines, per-index widths and attribute merging.
  - Arc-length resampling, width stations, width smoothing and thinning, and one cubic width polynomial per interval.
- **Road assembly.** The OpenDriveGenerator road-id counter and road list, the reference-line choice, the constant/variable width rules and the validation of the road set.
- **Front ends.** The two ShpToOpenDriveConverter classes:
  - configuration merges;
  - attribute mapping with Python's `float()`/`int()`;
  - stage sequencing;
  - conversion statistics.
  
  Also the shapefile reader's table steps: UTM zone arithmetic, record extraction, the local origin and the length filter.
- **Consumers.**
  - The OpenDRIVE reader: parse defaults, geometry sampling, centre lines and statistics.
  - The OBJ mesh bookkeeping.
  - The structural validator and the compliance check.
  - The slope-consistency joint rule.
- **Web helpers.** The pure helpers of the two Flask servers: upload checks, GeoJSON building and centring, total length, quality modes, the coordinate offset, the CRS choice and the roads of the basic XODR export.

Code that changes state step by step is modelled as classes with `modifies` clauses, or as methods with loop invariants. Each is proved against a specification function, and the functions carry the lemmas.

Floating-point library calls (`sqrt`, `atan2`, `sin`, `cos`, `round`) are fields of a `Libm` value passed as a parameter. Lemmas assume no more of them than they state. Coordinates are `real`.

## Model

| member | source | states |
|---|---|---|
| Arcs.CurveEnd | src/geometry_converter.py:234-269 | the curve run found from a cursor ends strictly after it and at most at the last point, so the cursor of fit_arc_segments always advances |
| Arcs.CurveScanIsFirstStraight | src/geometry_converter.py:250-269 | every turn inside a run is at least 10 degrees, and a run that stops before the last point stops at the first turn below 10 degrees |
| Arcs.CurveEndIsFirstStraight | src/geometry_converter.py:234-269 | the same first-straight-point rule, stated from the cursor |
| Arcs.DetectCurveSegment | src/geometry_converter.py:234-269 | the early-return scan returns the run end CurveEnd describes |
| Arcs.EquidistantIffBisector | src/geometry_converter.py:328-360 | a point is as far from p as from q exactly when it lies on their perpendicular bisector (both directions) |
| Arcs.CircumcentreEquidistant12 | src/geometry_converter.py:340-355 | when d is not 0, the centre formula is as far from the first point as from the middle one |
| Arcs.CircumcentreEquidistant13 | src/geometry_converter.py:340-355 | when d is not 0, the centre formula is as far from the first point as from the last one |
| Arcs.FitCircle | src/geometry_converter.py:328-360 | fewer than three points or abs(d) < 1e-10 give radius None and centre (0, 0); otherwise the centre is the circumcentre of the first, len // 2 and last points and the radius its distance to the first |
| Arcs.FitCircleThroughPoints | src/geometry_converter.py:328-360 | a fitted circle passes through all three of the points it was fitted to |
| Arcs.ArcRecord | src/geometry_converter.py:296-318 | the arc record has abs(curvature) = 1 / radius, positive exactly when the sweep is positive, length abs(sweep) * radius, and always carries x, y |
| Arcs.FitSingleArc | src/geometry_converter.py:271-326 | None exactly for fewer than three points, a None radius or a radius below 1; otherwise an `arc` at start_s that carries x, y and heads along the run's first step |
| Arcs.FitSingleArcGeometry | src/geometry_converter.py:271-326 | a fitted arc's curvature is 1 / the fitted radius, signed by the once-normalised sweep, and its length is that sweep of the circle |
| Arcs.FitSingleArcIsArcFitter | src/geometry_converter.py:271-326 | every record _fit_single_arc returns is an `arc` at the requested s with x, y set |
| Arcs.ArcFitFromSkipStep | src/geometry_converter.py:137-143 | a curve run whose arc fit fails emits nothing, leaves s unchanged and moves the cursor past the run |
| Arcs.ArcFitFromArcStep | src/geometry_converter.py:137-143 | a curve run whose arc fit succeeds emits that arc and advances s by its length |
| Arcs.ArcFitFromLineStep | src/geometry_converter.py:144-167 | a straight step emits one line to the next point and advances s by its length |
| Arcs.ArcFitFromCount | src/geometry_converter.py:129-167 | fewer than two remaining points emit nothing; otherwise at most one record per remaining step |
| Arcs.ArcFitFromChained | src/geometry_converter.py:129-167 | each record's s is the starting s plus the lengths of the records emitted before it |
| Arcs.ArcFitFromPlacement | src/geometry_converter.py:160-163 | the first record carries x, y; a later `line` record never does; an `arc` record always does |
| Arcs.ArcFitProperties | src/geometry_converter.py:119-169 | for the whole polyline: at most n - 1 records, none for n < 2, cumulative s from 0, x, y on the first record and on no later line |
| Arcs.FitArcSegmentsWith | src/geometry_converter.py:129-169 | the cursor loop, with the arc fitter as a parameter, returns exactly ArcFitFrom from cursor 0 and s = 0 |
| Arcs.FitArcSegments | src/geometry_converter.py:119-169 | fit_arc_segments returns exactly ArcFit of the polyline |
| AttributeValues.Strip | src/main.py:229-244 | the text float() and int() read is never longer than the value's text |
| AttributeValues.StripSpec | src/main.py:229-244 | the text float() and int() read is the value's text with exactly its leading and trailing whitespace removed: a slice between a whitespace prefix and a whitespace suffix, empty or neither starting nor ending with whitespace |
| AttributeValues.StripEnds | src/main.py:229-244 | the stripped text neither starts nor ends with whitespace |
| AttributeValues.DecimalMantissa | src/main.py:231-232 | float() reads digits w '.' digits f as w + 0.f |
| AttributeValues.DigitsMantissa | src/main.py:231-232 | float() reads a plain run of digits as its value |
| AttributeValues.SignedExponent | src/main.py:231-232 | the exponent after 'e' or 'E' is an optionally negative digit run |
| AttributeValues.Scientific | src/main.py:231-232 | float() reads w 'e' [-] d, the form str() writes very small and very large floats in, as w * 10^(+-d) |
| AttributeValues.ExponentExampleBody | src/main.py:231-232 | '1e2' reads as 100 |
| AttributeValues.UnsignedText | src/main.py:231-232 | text with no padding and no sign reads as its unsigned value |
| AttributeValues.ExponentExample | src/main.py:231-232 | float('1e2') is 100 |
| AttributeValues.NegativeExponentExample | src/main.py:231-232 | '1e-05' reads as 0.00001 |
| AttributeValues.IntOfDigits | src/main.py:235-237 | int() of an optional '-' and digits is their signed value |
| AttributeValues.DigitsFloat | src/main.py:231-232 | float() of a run of digits is their value |
| AttributeValues.NegatedDigitsFloat | src/main.py:231-232 | float() of '-' and a run of digits is their value negated |
| AttributeValues.ParseShowInt | src/main.py:235-237 | int() reads back every integer str() writes |
| AttributeValues.ParseShowIntAsFloat | src/main.py:231-232 | float() reads back every integer str() writes, as a real |
| AttributeValues.DecimalExample | tests/test_main.py:80-102 | float('4.0') is 4.0 |
| AttributeValues.IntExample | tests/test_main.py:80-102 | int('2') is 2 |
| AttributeValues.WholeFloatExample | tests/test_main.py:80-102 | float('60') is 60.0 |
| AttributeValues.InvalidIsNotFloat | tests/test_main.py:104-123 | float('invalid') raises (None) |
| AttributeValues.NotANumberIsNotInt | tests/test_main.py:104-123 | int('not_a_number') raises (None) |
| AttributeValues.DecimalIsNotInt | src/main.py:235-237 | int() refuses '4.0', which float() accepts |
| AttributeValues.MappedGet | src/main.py:224-244 | after the mapping, a name reads as the last value written under it, or keeps its starting value when no entry writes it |
| AttributeValues.LastWriteNone | src/main.py:224-244 | nothing is written under a name exactly when no entry for it names a present column whose value converts |
| AttributeValues.MappedDistinct | src/main.py:216-246 | the mapped attributes keep distinct keys |
| AttributeValues.MapAttributes | src/main.py:206-246 | the loop over the mapping returns MappedAttributes of the initial dict (configured lane width, lane count and speed limit, 'urban', False) |
| AttributeValues.EmptyMappingGivesDefaults | tests/test_main.py:66-78 | an empty mapping yields exactly the defaults: road_type 'urban', bidirectional False, the configured lane width |
| AttributeValues.LastWriteIs | src/main.py:224-244 | when entry i writes a name and no later entry does, the name reads as entry i's converted value |
| AttributeValues.MappedReads | src/main.py:224-244 | the mapped attributes hold that converted value |
| AttributeValues.MappedKeeps | src/main.py:224-244 | when no entry writes a name, it keeps its starting value |
| AttributeValues.CustomMappingExample | tests/test_main.py:80-102 | the tests' custom mapping gives lane_width 4.0, num_lanes 2, speed_limit 60.0 and copies TYPE to road_type |
| AttributeValues.InvalidValuesKeepDefaults | tests/test_main.py:104-123 | refused values leave lane_width, num_lanes and speed_limit at their defaults |
| BoundaryConditions.OptimizeBoundaryConditions | SoftwareCopyright/shp2opendrive/geometry_converter.py:224-253 | the result is an error exactly when a sample list is empty (local_u[-1] raises); otherwise au = av = 0 |
| BoundaryConditions.RescaleHitsTarget | SoftwareCopyright/shp2opendrive/geometry_converter.py:237-252 | scaling by end / sum makes a non-negligible coefficient sum equal the end value |
| BoundaryConditions.OptimizeBoundaryConditionsEnds | SoftwareCopyright/shp2opendrive/geometry_converter.py:224-253 | the adjusted curve starts at the local origin and ends at the last local sample (u(1) = end_u, v(1) = end_v) for degree 1 or non-negligible sums |
| BoundaryConditions.OptimizeBoundaryConditionsLinear | SoftwareCopyright/shp2opendrive/geometry_converter.py:232-235 | degree 1 gives exactly bu = end_u, bv = end_v and every c, d = 0 |
| BoundaryConditions.RescaleNegligible | SoftwareCopyright/shp2opendrive/geometry_converter.py:239-240 | a sum with abs below 1e-10 sets only b to the end value, keeping c and d, so the end is missed by exactly c + d |
| BoundaryConditions.RescaleKeepsShape | SoftwareCopyright/shp2opendrive/geometry_converter.py:241-245 | rescaling keeps the ratios of b, c and d |
| Common.Midpoint | src/opendrive_generator.py:244-269 | the midpoint is equally far from both points, at half their distance |
| Common.Trunc | src/shp_reader.py:153 | int() of a float truncates toward zero, for negative values too |
| Common.PathLengthNonNegative | SoftwareCopyright/shp2opendrive/shp2xodr.py:241-251 | with a non-negative sqrt, a polyline's length is never negative |
| Common.PathLengthSnoc | SoftwareCopyright/shp2opendrive/shp2xodr.py:246-250 | extending a prefix by one point adds that step's distance |
| Common.PathLengthPrefixMono | SoftwareCopyright/shp2opendrive/shp2xodr.py:246-250 | the length of a prefix never decreases as the prefix grows |
| Common.Lower | src/shp_reader.py:110-134 | str.lower() keeps the length and lowers each character |
| ConversionChain.Chain.constructor | SoftwareCopyright/shp2opendrive/geometry_converter.py:13-14 | a new handler has no next handler |
| ConversionChain.Chain.SetNext | SoftwareCopyright/shp2opendrive/geometry_converter.py:15-17 | set_next links the new handler after the current last one |
| ConversionChain.UnclaimedStagePassesThrough | SoftwareCopyright/shp2opendrive/geometry_converter.py:21-24 | a request whose stage no handler acts on comes back unchanged; a handler with no next handler returns the request as it is |
| ConversionChain.BuildStandardChain | SoftwareCopyright/shp2opendrive/shp2xodr.py:33-52 | the chain visits shapefile reading, geometry conversion and OpenDRIVE generation in that order |
| ConversionChain.IsLaneFormatOfExtraction | SoftwareCopyright/shp2opendrive/shp_reader.py:79-83 | _is_lane_format holds exactly for a non-empty list of lane roads |
| ConversionChain.ReadShapefileOutcome | SoftwareCopyright/shp2opendrive/shp_reader.py:41-78 | the stage either sets success False and an error and leaves the stage, or moves to geometry_conversion with one roads_data entry per extracted record; a missing path fails without reading |
| ConversionChain.LaneColumnsExact | SoftwareCopyright/shp2opendrive/shp_reader.py:176-192 | a table recognised as a Lane.shp by upper-cased names extracts exactly when RoadID (and, for a table with rows, Index) are spelt exactly so; columns roadid and index are recognised and then raise KeyError |
| ConversionChain.ExtractionErrorLeavesChain | SoftwareCopyright/shp2opendrive/shp_reader.py:41-78 | an error raised while the shapefile stage extracts leaves the whole chain, since handle has no exception handler |
| ConversionChain.MissingPathThroughChain | SoftwareCopyright/shp2opendrive/shp_reader.py:47-50 | on the whole chain, a loading request without a path comes back marked failed and otherwise unchanged |
| ConversionChain.ProcessLaneDataSpec | SoftwareCopyright/shp2opendrive/shp_reader.py:84-94 | one lane_based record per road, carrying its id and surfaces; no lanes give empty attributes |
| ConversionChain.SuccessesSpec | SoftwareCopyright/shp2opendrive/geometry_converter.py:37-43 | the kept values are exactly the successful conversions, never more than the inputs |
| ConversionChain.SuccessesEmpty | SoftwareCopyright/shp2opendrive/geometry_converter.py:37-43 | nothing is kept exactly when every conversion fails |
| ConversionChain.ConvertLaneSurfaceGeometry | SoftwareCopyright/shp2opendrive/geometry_converter.py:678-699 | the loop keeps exactly the surfaces whose conversion did not raise, in order |
| ConversionChain.ConvertRoadSpec | SoftwareCopyright/shp2opendrive/geometry_converter.py:47-82 | a converted lane road keeps its id and attributes and holds the converted surfaces; a converted plain road carries the summed length of its non-empty segments |
| ConversionChain.ConvertGeometriesSpec | SoftwareCopyright/shp2opendrive/geometry_converter.py:32-46 | the geometry stage moves to opendrive_generation and keeps exactly the roads that converted |
| ConverterConfig.NewSettings | SoftwareCopyright/shp2opendrive/geometry_converter.py:84-97 | degree clamped to [2, 5], smoothness to [0, 1], precision to [1, 10], in-range values kept; effective tolerance 0.8 or 1.5 times the tolerance |
| ConverterConfig.NewSettingsIdempotent | SoftwareCopyright/shp2opendrive/geometry_converter.py:84-97 | clamping again changes nothing |
| ConverterConfig.ChooseRoutine | SoftwareCopyright/shp2opendrive/geometry_converter.py:101-124 | each routine exactly when its branch is taken: no segments below two points; in polyline mode adaptive lines iff more than 50 points, smooth curves iff smoothing is on with 3 to 50 points, plain lines otherwise (at most 50 points, no smoothing or exactly 2); polynomials iff the mode is polynomial or parampoly3, splines iff spline; plain lines for any other mode |
| CubicBoundarySolve.Determinant | cubic_polynomial_solver.py:84-106 | the matrix [[1, 1], [2, 3]] has determinant 1 |
| CubicBoundarySolve.Solve2x2Spec | cubic_polynomial_solver.py:84-106 | Cramer's solution satisfies both equations and is the only pair that does |
| CubicBoundarySolve.SolveAxisExact | cubic_polynomial_solver.py:59-106 | the solved axis meets u(0) = 0, u'(0) = T0 * L, u(1) = end and u'(1) = T1 * L, and is the only cubic that does |
| CubicBoundarySolve.StartCoefficients | cubic_polynomial_solver.py:59-62 | au = av = 0, bu = start_tangent_u * L, bv = start_tangent_v * L |
| CubicBoundarySolve.CramerCoefficients | cubic_polynomial_solver.py:84-106 | cu = 3(end_u - bu) - (T_u - bu) and du = (T_u - bu) - 2(end_u - bu), likewise for v |
| CubicBoundarySolve.AllConstraintsMet | cubic_polynomial_solver.py:108-146 | the verification block reads back start (0, 0), start tangents T0 * L, end (end_u, end_v) and end tangents T1 * L exactly, and no other pair of cubics gives that block |
| CubicBoundarySolve.SolveExample | cubic_polynomial_solver.py:31-146 | for the worked example (end (100, 20), L = 105) au = av = bv = 0, bu = 105, and the curve runs from (0, 0) to (100, 20) |
| Dicts.GetFirst | src/xodr_parser.py:377-398 | dict.get returns the value of the first pair with the key |
| Dicts.GetMissing | src/xodr_parser.py:377-398 | a key no pair carries reads as None |
| Dicts.GetSpec | src/xodr_parser.py:377-398 | with distinct keys, get finds a key exactly when some pair carries it, with that pair's value |
| Dicts.PutGet | src/xodr_parser.py:390-393 | after d[k] = v, k reads as v and every other key as before |
| Dicts.PutKeys | src/xodr_parser.py:390-393 | d[k] = v keeps the key order, appends a new key, and keeps keys distinct |
| Dicts.UpdateGet | SoftwareCopyright/shp2opendrive/shp2xodr.py:125-126 | after d.update(other) a key reads as in other when other has it, else as before |
| Dicts.UpdateDistinct | SoftwareCopyright/shp2opendrive/shp2xodr.py:125-126 | update keeps the keys distinct |
| Dicts.HistogramSnoc | src/xodr_parser.py:388-393 | counting one more kind increments its entry, counts.get(k, 0) + 1 |
| Dicts.HistogramCounts | src/xodr_parser.py:388-393 | each kind's count is its number of occurrences, and only kinds that occur appear |
| Dicts.HistogramTotal | src/xodr_parser.py:388-393 | the counts have distinct keys and add up to the number of kinds counted |
| Dicts.IncrementTotal | src/xodr_parser.py:388-393 | adding one to a count adds one to the total |
| LaneConverter.ConfigMerge | SoftwareCopyright/shp2opendrive/shp2xodr.py:94-126 | a key the user gives reads as the user's value, whole (a user lane_format_settings replaces the default block); any other key keeps its default |
| LaneConverter.DefaultLaneSettings | SoftwareCopyright/shp2opendrive/shp2xodr.py:94-124 | the default configuration holds the lane_format_settings block and tolerance 1.0 |
| LaneConverter.ToleranceRule | SoftwareCopyright/shp2opendrive/shp2xodr.py:128-130 | with lane data enabled a numeric tolerance t becomes min(t, 0.3), so 1.0 becomes 0.3 by default; a user block without 'enabled' keeps t |
| LaneConverter.LaneRoadsDataSpec | SoftwareCopyright/shp2opendrive/shp2xodr.py:216-240 | one lane_based record per road, in order, with lane_count the number of lanes, a non-negative length equal to the first lane's centre-line length, and the first lane's attributes |
| LaneConverter.ConvertedRoadsSpec | SoftwareCopyright/shp2opendrive/shp2xodr.py:310-382 | exactly the roads whose conversion returned a record are kept, never more than given; a kept plain road has its routine's segments and their summed length |
| LaneConverter.DefaultRoutine | SoftwareCopyright/shp2opendrive/shp2xodr.py:357-362 | with the default flags plain roads go through convert_road_geometry |
| LaneConverter.SmoothRoutine | SoftwareCopyright/shp2opendrive/shp2xodr.py:357-358 | use_smooth_curves True picks convert_road_geometry whatever use_arc_fitting says |
| LaneConverter.TotalLengthSnoc | SoftwareCopyright/shp2opendrive/shp2xodr.py:318-320 | keeping one more road adds its total_length to the statistic |
| LaneConverter.ShpToOpenDriveConverter.constructor | SoftwareCopyright/shp2opendrive/shp2xodr.py:93-148 | the configuration is the defaults updated by the user's dict, the geometry tolerance follows the lane cap, and the statistics start at zero |
| LaneConverter.ShpToOpenDriveConverter.CalculateLineLength | SoftwareCopyright/shp2opendrive/shp2xodr.py:241-251 | 0 for fewer than two points, else the summed consecutive distances |
| LaneConverter.ShpToOpenDriveConverter.ExtractLaneAttributes | SoftwareCopyright/shp2opendrive/shp2xodr.py:272-280 | {} without lanes; the first lane's attributes, mapped only when a non-empty mapping is given |
| LaneConverter.ShpToOpenDriveConverter.ProcessLaneData | SoftwareCopyright/shp2opendrive/shp2xodr.py:216-240 | the loop returns LaneRoadsData |
| LaneConverter.ShpToOpenDriveConverter.ConvertRoad | SoftwareCopyright/shp2opendrive/shp2xodr.py:326-382 | one record converts as ConvertRecord says: no surfaces or no segments give None |
| LaneConverter.ShpToOpenDriveConverter.ConvertGeometries | SoftwareCopyright/shp2opendrive/shp2xodr.py:310-325 | returns ConvertedRoads and adds exactly their summed lengths to total_length |
| LaneShapefile.ClampPrecision | SoftwareCopyright/shp2opendrive/shp_reader.py:120 | the precision lies in [1, 10], in-range values kept, lower values become 1 and higher ones 10 |
| LaneShapefile.Upper | SoftwareCopyright/shp2opendrive/shp_reader.py:179 | str.upper() keeps the length and raises each character |
| LaneShapefile.IsLaneShapefileIgnoresCase | SoftwareCopyright/shp2opendrive/shp_reader.py:176-180 | columns RoadID and Index are detected, the check comparing upper-cased names |
| LaneShapefile.IsLaneFormatFirstOnly | SoftwareCopyright/shp2opendrive/shp_reader.py:79-83 | only the first record is looked at, and one without lane_surfaces is not lane format |
| LaneShapefile.LexLessIrreflexive | SoftwareCopyright/shp2opendrive/shp_reader.py:238 | Python's string < is irreflexive |
| LaneShapefile.LexLessTotal | SoftwareCopyright/shp2opendrive/shp_reader.py:238 | any two distinct strings are ordered one way or the other |
| LaneShapefile.LexLessTransitive | SoftwareCopyright/shp2opendrive/shp_reader.py:238 | string < is transitive |
| LaneShapefile.LexLessAsymmetric | SoftwareCopyright/shp2opendrive/shp_reader.py:238 | string < is asymmetric |
| LaneShapefile.TenBeforeTwo | SoftwareCopyright/shp2opendrive/shp_reader.py:238 | "10" sorts before "2": the key is the index string |
| LaneShapefile.SortByIndex | SoftwareCopyright/shp2opendrive/shp_reader.py:238 | the sort keeps the number of boundaries |
| LaneShapefile.InsertMultiset | SoftwareCopyright/shp2opendrive/shp_reader.py:238 | inserting adds exactly that boundary |
| LaneShapefile.InsertSorted | SoftwareCopyright/shp2opendrive/shp_reader.py:238 | inserting into a sorted list keeps it sorted |
| LaneShapefile.SortByIndexProperties | SoftwareCopyright/shp2opendrive/shp_reader.py:238 | the sort returns a permutation of its input ordered by the index string |
| LaneShapefile.LexicographicPairing | SoftwareCopyright/shp2opendrive/shp_reader.py:194-238 | boundaries "1", "2", "10" sort as 1, 10, 2, so the earlier numeric sort is overridden |
| LaneShapefile.CalculateCenterLine | SoftwareCopyright/shp2opendrive/shp_reader.py:291-301 | min(len) centre points, each the midpoint of its pair |
| LaneShapefile.PairDistance | SoftwareCopyright/shp2opendrive/shp_reader.py:310 | the source's operand order gives the same distance as Dist |
| LaneShapefile.CalculateWidthProfile | SoftwareCopyright/shp2opendrive/shp_reader.py:302-313 | min(len) widths, each the pair's distance rounded to the precision |
| LaneShapefile.MergeBoundaryAttributes | SoftwareCopyright/shp2opendrive/shp_reader.py:314-320 | the merged dict has distinct keys, holds every key of either side, and the left value wins a conflict |
| LaneShapefile.MergeCopyStep | SoftwareCopyright/shp2opendrive/shp_reader.py:316 | copying one more left pair keeps the merged dict equal to that prefix |
| LaneShapefile.MergeRightStep | SoftwareCopyright/shp2opendrive/shp_reader.py:317-319 | one right pair is added only when the key is absent |
| LaneShapefile.BuildLanesFromBoundaries | SoftwareCopyright/shp2opendrive/shp_reader.py:235-273 | max(n - 1, 0) surfaces; surface i pairs sorted boundary i (left) with i + 1 (right), id "left_right", and each surface's right boundary is the next one's left |
| LaneShapefile.SurfacesChain | SoftwareCopyright/shp2opendrive/shp_reader.py:241-243 | adjacent surfaces share exactly their middle boundary |
| LaneShapefile.SortedAttributes | SoftwareCopyright/shp2opendrive/shp_reader.py:238 | sorting does not change any boundary, so attributes stay dicts |
| LaneShapefile.BuildSurface | SoftwareCopyright/shp2opendrive/shp_reader.py:242-270 | one surface from a left and a right boundary: id, boundaries, centre line, widths, merged attributes |
| LaneShapefile.MapAttributes | SoftwareCopyright/shp2opendrive/shp_reader.py:111-116 | the loop returns the attributes renamed through mapping.get(key, key) |
| LaneShapefile.RenamedKeys | SoftwareCopyright/shp2opendrive/shp_reader.py:111-116 | a name is present exactly when some key maps to it |
| LaneShapefile.RenamedValues | SoftwareCopyright/shp2opendrive/shp_reader.py:111-116 | each name holds the value of the last key mapped to it |
| LaneShapefile.RenameKeyUnmapped | SoftwareCopyright/shp2opendrive/shp_reader.py:114 | a key the mapping does not mention keeps its name |
| LegacyGeometry.ConvertRoadGeometry | src/geometry_converter.py:33-76 | the loop returns LinesFrom from s = 0: no record below two points, one line per consecutive pair otherwise |
| LegacyGeometry.FitLineSegments | src/geometry_converter.py:78-117 | the method returns LineFit: lines over the Douglas-Peucker points |
| LegacyGeometry.LineFitShape | src/geometry_converter.py:78-117 | one record fewer than the simplification keeps points, none for 0 or 1 points, each record joining consecutive kept points |
| LegacyGeometry.LineFitTwoPoints | tests/test_geometry_converter.py:224-231 | two points give exactly one record, from the first to the second |
| LegacyGeometry.LineFitOfPositive | src/geometry_converter.py:78-117 | with a positive numeric tolerance fit_line_segments gives the records over the Douglas-Peucker simplification |
| LegacyGeometry.LineFitOfErrors | src/geometry_converter.py:171-205 | fit_line_segments raises only on three or more points: TypeError exactly when the tolerance is not a number, RecursionError only for a tolerance of 0 or less |
| LegacyGeometry.LineFitOfOffChord | src/geometry_converter.py:171-205 | at a tolerance of 0 or less three points with the middle one off the chord give two line records |
| LegacyGeometry.LineFitMonotone | tests/test_geometry_converter.py:233-251 | raising the tolerance never increases the number of records |
| LegacyGeometry.LineFitCollinear | tests/test_geometry_converter.py:68-82 | (0,0), (10,0), (20,0) give one line of length 20 from the origin |
| LegacyGeometry.LineFitCorner | tests/test_geometry_converter.py:84-98 | the L-shaped path keeps its corner and gives two lines |
| LegacyGeometry.RoadLengthExample | tests/test_geometry_converter.py:187-205 | calculate_road_length of lengths 10, 15.7 and 20 is 45.7 |
| LineFitting.FitLineSegments | SoftwareCopyright/shp2opendrive/geometry_converter.py:492-517 | the method returns LineFit: simplify, thin above 50 points, emit lines |
| LineFitting.KeptPointsProperties | SoftwareCopyright/shp2opendrive/geometry_converter.py:492-517 | at most 50 input points, in order; fewer than two points kept as given; otherwise first and last kept |
| LineFitting.ThinnedKept | SoftwareCopyright/shp2opendrive/geometry_converter.py:579-590 | thinning a long simplification keeps subsequence and both ends |
| LineFitting.LineFitProperties | SoftwareCopyright/shp2opendrive/geometry_converter.py:468-517 | no record below two points, otherwise one fewer than kept points (at most 49), chained from s = 0, x, y only on the first, which starts at the first input point |
| MainConverter.AsWrittenConstructorRaises | src/main.py:53-57 | as written, the constructor passes smooth_curves and preserve_detail, which src/geometry_converter.py's GeometryConverter does not accept, so construction raises TypeError whatever the configuration |
| MainConverter.CorrectedConstructorBuilds | src/geometry_converter.py:24-31 | passing the tolerance alone builds a converter that keeps it |
| MainConverter.DefaultConfigValues | tests/test_main.py:35-46 | tolerance 1.0, min_road_length 10.0, lane width 3.5, arcs False, precision 3, and no use_smooth_curves key |
| MainConverter.CustomConfigOverrides | tests/test_main.py:48-64 | a user key replaces its default, other defaults stay, and the converter gets the merged tolerance |
| MainConverter.TotalLengthSnoc | src/main.py:286-296 | keeping one more road adds its total_length |
| MainConverter.RoadsDataSpec | src/main.py:165-204 | one record per extracted road, in order, with its id, points and length, and attributes starting from the configured defaults |
| MainConverter.ConvertedRoadsSpec | src/main.py:250-303 | exactly the roads whose routine gave segments are kept, each with the summed length of its segments; none kept iff every routine result is empty |
| MainConverter.RoutineChoice | src/main.py:266-272 | on the defaults updated by the user's keys: convert_road_geometry unless use_smooth_curves is given falsy, so never fit_line_segments while it is truthy; then fit_arc_segments when use_arc_fitting is given truthy; fit_line_segments with the configured tolerance otherwise |
| MainConverter.FirstRaise | src/main.py:262-272 | the first road whose routine raises: every earlier one returns, and it is the length of the list when none raises |
| MainConverter.ConvertedForOutcome | src/main.py:259-303 | once a road's routine raises no road is kept; when none raises exactly the roads whose routine gave segments are kept |
| MainConverter.ZeroToleranceKeepsRoad | src/main.py:270-272 | line fitting at a tolerance of 0 or less still keeps a road of three points in general position, with one line per step |
| MainConverter.CreatedRoadsBounds | src/main.py:321-329 | never more roads than converted roads, with positive ids below the counter, increasing in creation order |
| MainConverter.CreatedRoadsAll | src/main.py:321-329 | when every road has segments and is accepted, one road per converted road, with ids 1, 2, ... in order |
| MainConverter.CounterAllNonEmpty | src/opendrive_generator.py:47-94 | with no empty plan view each road takes one id |
| MainConverter.CreatedRoadsStep | src/main.py:322-329 | one more converted road advances the counter and the road list by what create_road_from_segments does |
| MainConverter.MapRoads | src/main.py:186-200 | the loop maps each road's info to its record |
| MainConverter.CreateOne | src/main.py:322-329 | one loop pass keeps the generator's roads and counter equal to the spec over the prefix, and records a positive id |
| MainConverter.CreateRoadStep | src/opendrive_generator.py:47-94 | create_road_from_segments on one road adds Made's road and advances the counter unless the plan view is empty |
| MainConverter.ShpToOpenDriveConverter.constructor | src/main.py:30-68 | the corrected constructor: defaults updated by the user's keys, the tolerance alone handed on, statistics at zero |
| MainConverter.ShpToOpenDriveConverter.LoadShapefile | src/main.py:122-163 | succeeds exactly when a loaded, filtered table is non-empty, and then records input_roads |
| MainConverter.ShpToOpenDriveConverter.ExtractRoadsData | src/main.py:165-204 | [] without a reader; otherwise RoadsData of the reader's table |
| MainConverter.ShpToOpenDriveConverter.ConvertGeometries | src/main.py:250-303 | returns the kept roads, or [] once a routine raises, and adds to total_length exactly the lengths of the roads kept before the loop ended or raised |
| MainConverter.ShpToOpenDriveConverter.ConvertWith | src/main.py:259-303 | the loop with its handler: [] when some road's routine raises, else the roads that gave segments; total_length grows by the roads kept before the first raise |
| MainConverter.ShpToOpenDriveConverter.CreateRoads | src/main.py:321-329 | the generator ends with CreatedRoads and the returned ids are theirs |
| MainConverter.ShpToOpenDriveConverter.GenerateOpenDrive | src/main.py:305-355 | succeeds exactly when some road was created and the file was written, and then sets output_roads to the number of roads |
| MainConverter.ShpToOpenDriveConverter.Convert | src/main.py:70-120 | returns True exactly when every stage succeeds, then with the elapsed time and positive input and output counts recorded; no error message is added |
| MainConverter.ShpToOpenDriveConverter.GetConversionStats | src/main.py:398-404 | returns the statistics as they stand |
| PlanView.RoadLengthSnoc | SoftwareCopyright/shp2opendrive/geometry_converter.py:657-658 | one more record adds its length |
| PlanView.ChainedSnoc | SoftwareCopyright/shp2opendrive/geometry_converter.py:468-475 | a record at the running s extends a chained list |
| PlanView.ChainedCons | SoftwareCopyright/shp2opendrive/geometry_converter.py:468-475 | a record at s followed by records chained from s + its length is chained from s |
| PlanView.LinesFromLength | SoftwareCopyright/shp2opendrive/geometry_converter.py:468-475 | n - 1 records for n points, none below two |
| PlanView.LinesFromAt | SoftwareCopyright/shp2opendrive/geometry_converter.py:476-491 | record k runs from point k to point k + 1, and only record 0 carries x, y |
| PlanView.LinesFromChained | SoftwareCopyright/shp2opendrive/geometry_converter.py:468-475 | the records are chained from start_s and their lengths add up to the polyline length |
| PlanView.LinesFromProperties | SoftwareCopyright/shp2opendrive/geometry_converter.py:468-491 | count, geometry, placement and chaining of the emitted lines together |
| PlanView.EmitLinesStep | SoftwareCopyright/shp2opendrive/geometry_converter.py:470-474 | one loop pass extends the records and s by one point |
| PlanView.EmitLines | SoftwareCopyright/shp2opendrive/geometry_converter.py:468-491 | the loop returns LinesFrom from start_s |
| PlanView.EmitKeptLines | SoftwareCopyright/shp2opendrive/geometry_converter.py:499-516 | the loop of fit_line_segments returns LinesFrom from 0 |
| PlanView.ValidateGeometryContinuity | SoftwareCopyright/shp2opendrive/geometry_converter.py:659-677 | every record list is accepted |
| Resample.BuildDistances | SoftwareCopyright/shp2opendrive/geometry_converter.py:876-880 | the accumulation loop yields the running arc lengths of the polyline |
| Resample.DistancesArePathLengths | SoftwareCopyright/shp2opendrive/geometry_converter.py:876-880 | entry k is the length of the polyline up to point k, and with a non-negative sqrt the entries never decrease |
| Resample.FirstSpanSpec | SoftwareCopyright/shp2opendrive/geometry_converter.py:885-887 | the span search finds the first span with d[j] <= t <= d[j+1] and none before it, and reports none only when no span contains t |
| Resample.SpanExists | SoftwareCopyright/shp2opendrive/geometry_converter.py:885-887 | in non-decreasing running lengths every arc length between the first and the last entry has a span |
| Resample.FindSpan | SoftwareCopyright/shp2opendrive/geometry_converter.py:885-892 | the inner loop with its break stops at the first span containing the target arc length |
| Resample.Sample | SoftwareCopyright/shp2opendrive/geometry_converter.py:884-892 | one pass of the sampling loop: the point at the matching fraction of the first span containing the arc length, or a division by zero on an empty span |
| Resample.InterpolateCoordinates | SoftwareCopyright/shp2opendrive/geometry_converter.py:872-893 | a polyline that already has target points is returned unchanged; otherwise sample i is taken at arc length (i / (target - 1)) * total |
| Resample.PositionBounds | SoftwareCopyright/shp2opendrive/geometry_converter.py:884 | every sample position lies between 0 and the total length, the first at 0 |
| Resample.SampleFound | SoftwareCopyright/shp2opendrive/geometry_converter.py:882-892 | with at least two points every sample position has a span, so no sample is skipped |
| Resample.InterpolatedLength | SoftwareCopyright/shp2opendrive/geometry_converter.py:872-893 | resampling a polyline of at least two points to at least two points yields exactly target points when it succeeds |
| Resample.InterpolatedErrors | SoftwareCopyright/shp2opendrive/geometry_converter.py:872-893 | the only failure is a division by zero |
| Resample.InterpolatedSingleTarget | SoftwareCopyright/shp2opendrive/geometry_converter.py:884 | asking one point of a polyline of another size divides 0 by 0 |
| Resample.SamplesErrSticks | SoftwareCopyright/shp2opendrive/geometry_converter.py:882-892 | once a sample fails, the whole resampling fails with that error |
| Resample.FirstSample | SoftwareCopyright/shp2opendrive/geometry_converter.py:884-887 | the first sample sits at arc length 0, on the first span |
| Resample.InterpolatedCoincidentStart | SoftwareCopyright/shp2opendrive/geometry_converter.py:886 | when the first two points coincide, the first sample falls on an empty span and the resampling fails |
| Resample.InterpolatedStartsAtFirst | SoftwareCopyright/shp2opendrive/geometry_converter.py:882-892 | a successful resampling starts at the first input point |
| Resample.SamplesPrefix | SoftwareCopyright/shp2opendrive/geometry_converter.py:882-892 | a successful longer run of samples extends every shorter one |
| Resample.SampleOnSpan | SoftwareCopyright/shp2opendrive/geometry_converter.py:886-890 | every resampled point lies on a span of the input, at a fraction between 0 and 1 of it |
| RoadAssembly.FirstZeroBoundarySpec | src/opendrive_generator.py:171-186 | the scan finds a boundary exactly when some surface has one with index '0', stops at the first such surface and prefers its left boundary |
| RoadAssembly.ReferenceFallbackOrder | src/opendrive_generator.py:165-227 | a non-empty index-'0' boundary wins; otherwise the first surface's center_line, then the midpoints of its boundaries; nothing is fitted when the chosen coordinates are empty |
| RoadAssembly.CenterLineCoordsProperties | src/opendrive_generator.py:244-269 | min(len) centre points when both sides are non-empty, none otherwise, each as far from its left point as from its right one |
| RoadAssembly.CalculateCenterLineCoords | src/opendrive_generator.py:244-269 | the midpoint loop computes the paired midpoints |
| RoadAssembly.FindZeroBoundary | src/opendrive_generator.py:171-186 | the scan loop with its break returns the first index-'0' boundary |
| RoadAssembly.CalculateRoadReferenceLine | src/opendrive_generator.py:141-228 | the reference line is the fitted segments of the chosen coordinates, or [] when none are found or conversion fails |
| RoadAssembly.FilteredProperties | src/opendrive_generator.py:604-641 | profiles of at most two samples are returned unchanged; otherwise the first and last samples are kept, the result is a subsequence, and every sample followed by a change above 0.05 is kept |
| RoadAssembly.KeptSamplesKeepSteps | src/opendrive_generator.py:627-637 | a sample whose width differs from the next by more than the threshold is always kept |
| RoadAssembly.FilterSignificantWidthChanges | src/opendrive_generator.py:604-641 | the filtering loop computes the filtered profile |
| RoadAssembly.VariableWidthRule | src/opendrive_generator.py:478-501 | a lane is variable-width exactly when its widths spread by more than 0.1 m and by more than 3% of the smallest positive width (or of the mean, or infinitely); equal widths are never variable |
| RoadAssembly.ValidWidths | src/opendrive_generator.py:551 | the widths above 0.001, and every such width |
| RoadAssembly.LaneWidthsRules | src/opendrive_generator.py:472-563 | a variable lane gets between 1 and 8 records starting with its first sample's; a constant lane starts with its first width at s = 0, gets a second record exactly when that width is at most 0.001, and is dropped exactly when no width exceeds 0.001; a surface without a profile gets the default width |
| RoadAssembly.SurfaceLanesBounds | src/opendrive_generator.py:462-573 | no more lanes than surfaces, and each has between one and eight width records |
| RoadAssembly.CreateLaneSectionFromSurfaces | src/opendrive_generator.py:440-580 | the loop over the surfaces builds the right lanes of the one lane section |
| RoadAssembly.AttributeLaneSectionRules | src/opendrive_generator.py:396-438 | max(num_lanes, 0) right lanes of the attribute width at s = 0, mirrored on the left exactly when bidirectional; with the default attributes one 3.5 m right lane |
| RoadAssembly.OpenDriveGenerator.constructor | src/opendrive_generator.py:24-45 | a generator with the given name, no roads and the id counter at 1 |
| RoadAssembly.OpenDriveGenerator.AddRoad | src/opendrive_generator.py:69-94 | the next id is consumed whether or not the road can be built, and the road is appended exactly when it can |
| RoadAssembly.OpenDriveGenerator.CreateRoadFromSegments | src/opendrive_generator.py:47-94 | an empty list returns -1 without taking an id; otherwise the id is taken, and the road list grows exactly when a positive id is returned |
| RoadAssembly.OpenDriveGenerator.CreateRoadFromLaneSurfaces | src/opendrive_generator.py:96-139 | no surfaces or no reference segments return -1 without taking an id; otherwise the reference line becomes the plan view and the lanes come from the surfaces |
| RoadAssembly.OpenDriveGenerator.CreateMultipleRoads | src/opendrive_generator.py:582-602 | the returned ids are exactly the positive ids of the roads added, in order, and earlier roads stay |
| RoadAssembly.OpenDriveGenerator.AddRecord | src/opendrive_generator.py:591-597 | absent keys read as an empty segment list and empty attributes; at most one road is added and its id is returned |
| RoadAssembly.OpenDriveGenerator.ValidateOpenDrive | src/opendrive_generator.py:754-799 | invalid exactly when there are no roads, with one error then; each road counts 100 m and there are no warnings |
| SegmentPoints.DetermineSegmentPoints | SoftwareCopyright/shp2opendrive/geometry_converter.py:309-331 | the cut indices start at 0 and end at the last point index; when every change point lies before the last point they strictly increase by at most 15 |
| SegmentPoints.CutAtChanges | SoftwareCopyright/shp2opendrive/geometry_converter.py:311-323 | the loop over the change points keeps the cuts ending at the current start, stepped by at most 15 |
| SegmentPoints.CutRemainder | SoftwareCopyright/shp2opendrive/geometry_converter.py:324-330 | past the last change a cut every 15 points while more than 15 remain, then the last index unless already cut |
| SegmentPoints.SteppedIncreasing | SoftwareCopyright/shp2opendrive/geometry_converter.py:309-331 | cuts that step upwards are strictly increasing |
| SegmentPoints.StepAboveOne | SoftwareCopyright/shp2opendrive/geometry_converter.py:583 | for more points than max_segments the step exceeds 1 and spans the polyline |
| SegmentPoints.PickIndexBounds | SoftwareCopyright/shp2opendrive/geometry_converter.py:584-585 | with round-to-nearest the picks for i = 1 .. max_segments - 2 are interior indices and increase with i |
| SegmentPoints.LimitSegments | SoftwareCopyright/shp2opendrive/geometry_converter.py:579-590 | the picking loop computes what _limit_segments returns |
| SegmentPoints.PickedInOrder | SoftwareCopyright/shp2opendrive/geometry_converter.py:584-587 | after each step the kept points are taken in order from the polyline up to the last pick |
| SegmentPoints.LimitedProperties | SoftwareCopyright/shp2opendrive/geometry_converter.py:579-590 | a polyline of at most max_segments points is kept as it is; a longer one becomes at least two and at most max_segments of its points, in order, from its first to its last |
| ShapefileReading.LoSpec | src/shp_reader.py:136-160 | the minimum of the bounds is a lower bound of the coordinates and one of them |
| ShapefileReading.HiSpec | src/shp_reader.py:136-160 | the maximum of the bounds is an upper bound of the coordinates and one of them |
| ShapefileReading.TotalBoundsContain | src/shp_reader.py:147-158 | every vertex lies inside the total bounds |
| ShapefileReading.UtmEpsgRange | src/shp_reader.py:148-160 | a centre longitude in [-180, 180) gives a zone in 1 .. 60, so the code is 32601 .. 32660 in the north and 32701 .. 32760 in the south |
| ShapefileReading.UtmZoneStep | src/shp_reader.py:153 | zones are six degrees wide |
| ShapefileReading.UtmZoneAtAntimeridian | src/shp_reader.py:153 | a centre longitude of exactly 180 gives zone 61, one past the last UTM zone |
| ShapefileReading.MapPoints | src/shp_reader.py:200-207 | each point is mapped in place, the count kept |
| ShapefileReading.ShiftKeepsLength | src/shp_reader.py:198-210 | a translation keeps a polyline's length |
| ShapefileReading.TranslatedProperties | src/shp_reader.py:181-221 | after the translation every line vertex lies in the quadrant x >= 0, y >= 0, and every line keeps its length |
| ShapefileReading.LongRowsSpec | src/shp_reader.py:223-240 | the filter keeps exactly the rows at least min_length long, in their order |
| ShapefileReading.AttributesOfSpec | src/shp_reader.py:99-102 | the attributes hold exactly the non-geometry columns, each with the row's cell |
| ShapefileReading.ExtractedErrSticks | src/shp_reader.py:77-104 | once a row fails, the whole extraction fails with that error |
| ShapefileReading.ExtractedSpec | src/shp_reader.py:65-108 | extraction fails exactly when some LineString has no vertex; otherwise one record per LineString row, in order, with its index label, vertices, length, end points and attributes |
| ShapefileReading.AttributesMappingSpec | src/shp_reader.py:110-134 | a key is suggested exactly when it is the lower-cased name of a non-geometry column, with the first keyword group it matches |
| ShapefileReading.SuggestionPriority | src/shp_reader.py:124-132 | a name matching two groups takes the earlier: speed_type suggests road_type |
| ShapefileReading.ShapefileReader.constructor | src/shp_reader.py:22-30 | a reader of the path with no table and no records |
| ShapefileReading.ShapefileReader.LoadShapefile | src/shp_reader.py:32-46 | succeeds exactly when reading succeeds, and then holds the table |
| ShapefileReading.ShapefileReader.ConvertToUtm | src/shp_reader.py:136-179 | fails without a table or CRS; a geographic table is projected to the EPSG code of its centre's UTM zone, a projected one is kept |
| ShapefileReading.ShapefileReader.ConvertToLocalCoordinates | src/shp_reader.py:181-221 | fails without a table; otherwise every line is translated so the bounds' minimum becomes the origin |
| ShapefileReading.ShapefileReader.FilterRoadsByLength | src/shp_reader.py:223-240 | keeps the long enough rows and returns how many remain, 0 without a table |
| ShapefileReading.ShapefileReader.GetRoadAttributesMapping | src/shp_reader.py:110-134 | {} without a table, else the suggestions for its columns |
| ShapefileReading.ShapefileReader.ExtractRoadGeometries | src/shp_reader.py:65-108 | [] without a table; else the extracted records, which are also kept in roads_data |
| Simplify.PointToLineDistance | SoftwareCopyright/shp2opendrive/geometry_converter.py:568-578 | the distance from p to the line through a and b (cross product over chord length), the distance to a when the chord has zero length, never negative |
| Simplify.ChordEndsOnChord | SoftwareCopyright/shp2opendrive/geometry_converter.py:568-578 | both ends of a chord of non-zero length are at distance 0 from it |
| Simplify.FarthestIsFirstMaximum | SoftwareCopyright/shp2opendrive/geometry_converter.py:556-562 | the scan finds the first interior point at the greatest distance from the chord: none is farther, none before it is as far |
| Simplify.DouglasPeucker | SoftwareCopyright/shp2opendrive/geometry_converter.py:551-567 | ranges of at most two points are returned as they are; the result of two or more points has at least two points |
| Simplify.DouglasPeuckerCollapses | SoftwareCopyright/shp2opendrive/geometry_converter.py:563-564 | a range whose interior is within tolerance collapses to its two ends |
| Simplify.DouglasPeuckerSplits | SoftwareCopyright/shp2opendrive/geometry_converter.py:565-567 | otherwise it is split at the farthest point, an interior index, and the halves are joined with that point written once |
| Simplify.DouglasPeuckerKeepsEnds | SoftwareCopyright/shp2opendrive/geometry_converter.py:551-567 | the simplified polyline keeps the first and the last point |
| Simplify.DouglasPeuckerEndsOnly | SoftwareCopyright/shp2opendrive/geometry_converter.py:556-564 | a range of three or more points is reduced to its two ends exactly when no interior point is as far from the chord as the tolerance |
| Simplify.DouglasPeuckerSubseq | SoftwareCopyright/shp2opendrive/geometry_converter.py:551-567 | the simplified polyline keeps points of the original, in their order |
| Simplify.DouglasPeuckerMonotone | SoftwareCopyright/shp2opendrive/geometry_converter.py:551-567 | a larger tolerance keeps a subsequence of what a smaller one keeps, never more points |
| Simplify.Simplified | src/geometry_converter.py:171-205 | for any tolerance, a simplification that ends has at least two points when the input has |
| Simplify.SimplifiedPositive | src/geometry_converter.py:171-205 | for a positive tolerance the recursion always ends, with DouglasPeucker's result |
| Simplify.SimplifiedSubseq | src/geometry_converter.py:171-205 | a simplification that ends keeps points of the input in order, the first and last among them |
| Simplify.SimplifiedOnChordDiverges | src/geometry_converter.py:193-202 | with a tolerance of 0 or less a range whose interior lies on its chord makes the recursion run forever |
| Simplify.SimplifiedOffChord | src/geometry_converter.py:171-205 | with a tolerance of 0 or less three points whose middle one is off the chord are all kept |
| Simplify.ZeroToleranceMakesNoProgress | SoftwareCopyright/shp2opendrive/geometry_converter.py:556-566 | with tolerance 0 or less a range whose interior lies on the chord is split at index 0, so the right-hand call receives the same range and the recursion does not end |
| SlopeConsistency.LineEndIsLinePoint | analyze_slope_consistency.py:67-71 | the end of a line geometry is its start moved length along the heading, heading unchanged |
| SlopeConsistency.ParamPoly3EndIsEval | analyze_slope_consistency.py:48-66 | the paramPoly3 end is the cubics at t = 1 rotated by hdg and moved to the start; its heading turns by the angle of the tangent at t = 1 |
| SlopeConsistency.SolvedParamPoly3End | analyze_slope_consistency.py:48-66 | for a paramPoly3 solved from boundary conditions the analysis finds the requested end position and tangent in the global frame |
| SlopeConsistency.Outcomes | analyze_slope_consistency.py:22-86 | one outcome per road element, in document order |
| SlopeConsistency.CollectSpec | analyze_slope_consistency.py:22-86 | the roads list fails exactly when some road raises, and otherwise keeps in order the roads with a planView and a geometry |
| SlopeConsistency.RoadsEndsFrom | analyze_slope_consistency.py:22-86 | every extracted road comes from a road element; one failing road fails the analysis |
| SlopeConsistency.CollectErrSticks | analyze_slope_consistency.py:22-86 | once a road raises, the first error is the result |
| SlopeConsistency.ExtractRoads | analyze_slope_consistency.py:19-86 | the extraction loop computes the roads list |
| SlopeConsistency.FoldedDifference | analyze_slope_consistency.py:111-114 | the corrected heading difference always lies in [0, 180] |
| SlopeConsistency.FoldedDifferenceAgrees | analyze_slope_consistency.py:111-114 | the corrected and the written fold agree whenever the headings are at most a full turn apart |
| SlopeConsistency.FoldedDifferenceTurns | analyze_slope_consistency.py:111-114 | the corrected fold is symmetric, and headings a whole number of turns apart are 0 apart |
| SlopeConsistency.FoldedDifferenceAsWrittenMisses | analyze_slope_consistency.py:111-114 | as written, end heading 370 against start heading 0 gives -10 and counts as consistent, though the headings are 10 degrees apart |
| SlopeConsistency.JointRule | analyze_slope_consistency.py:107-126 | a joint is recorded exactly when both offsets are below 0.1, and is consistent exactly when its difference is below 1 degree; the difference never exceeds 180 |
| SlopeConsistency.CorrectedJointRule | analyze_slope_consistency.py:107-126 | the corrected joint is recorded under the same rule and its difference lies in [0, 180] |
| SlopeConsistency.CorrectedJointAgrees | analyze_slope_consistency.py:107-126 | the corrected and the written joint coincide while the headings are less than a full turn apart |
| SlopeConsistency.JointAsWrittenMisses | analyze_slope_consistency.py:107-126 | a road ending at heading 370 meets one starting at 0: the written joint is consistent with difference -10, the corrected one is not, with difference 10 |
| SlopeConsistency.AllPairsMember | analyze_slope_consistency.py:102-105 | the nested loops visit each pair i < j exactly |
| SlopeConsistency.AllPairsCount | analyze_slope_consistency.py:102-105 | at most bound times n squared items in all |
| SlopeConsistency.PairJointsMembers | analyze_slope_consistency.py:107-162 | a pair yields exactly its joints in the two directions, at most two |
| SlopeConsistency.JointsSound | analyze_slope_consistency.py:100-162 | a connection is recorded exactly when some road's end meets a different road's start, at most two per pair |
| SlopeConsistency.CheckPair | analyze_slope_consistency.py:107-162 | the two end-to-start checks of one pair append its joints |
| SlopeConsistency.AnalyzeRow | analyze_slope_consistency.py:103-162 | the inner loop over j appends the joints of row i |
| SlopeConsistency.AnalyzeJoints | analyze_slope_consistency.py:100-162 | the pairwise loop computes all joints, row after row |
| SlopeConsistency.ConsistentCount | analyze_slope_consistency.py:169 | the consistent count is at most the total |
| SlopeConsistency.AllConsistent | analyze_slope_consistency.py:169-177 | the consistent count reaches the total exactly when every joint is consistent |
| SlopeConsistency.AnalyzeXodrSlopeConsistency | analyze_slope_consistency.py:10-181 | the connections of the file's roads, or the exception that stopped the analysis |
| WebCommon.RFind | web_server.py:45 | the index of the last occurrence, -1 when there is none |
| WebCommon.SplitExtParts | web_server.py:45 | splitext's two parts give back the name, and a non-empty extension is a dot followed by neither a dot nor a slash |
| WebCommon.SplitExtJoin | web_server.py:66 | a base and a dotted tail split back into the base and the tail |
| WebCommon.HiddenNameHasNoExtension | web_server.py:45 | a name that is only a dot and a suffix, such as .shp, has no extension |
| WebCommon.Extensions | web_server.py:45 | the lowercased extension of each uploaded name |
| WebCommon.FirstMissingSpec | web_server.py:47-51 | complete exactly when every required extension is present; otherwise the first absent one is reported |
| WebCommon.ValidateUploadedFilesSpec | web_server.py:42-51 | an upload passes exactly when .shp, .shx and .dbf each appear after lowercasing; a failing one names the first absent, in that order |
| WebCommon.AllCoordinatesEmpty | web/web_server.py:273-280 | no road has a coordinate exactly when the joined list is empty |
| WebCommon.Normalised | web/web_server.py:301-302 | each coordinate minus the centre, the count kept |
| WebCommon.MinusBounds | web/web_server.py:282-293 | shifting every value shifts its minimum and maximum by the same amount |
| WebCommon.CentredIsSymmetric | web/web_server.py:285-293 | values minus their mid-range reach as far below 0 as above |
| WebCommon.NormalisedIsSymmetric | web/web_server.py:282-302 | the centred coordinates have x, y and z extents symmetric about 0 |
| WebService.SavedFilesKeys | web_server.py:61-71 | the dict holds each allowed extension at most once and nothing else |
| WebService.SavedFilesPresent | web_server.py:61-71 | an extension is present exactly when some stored file has it |
| WebService.SavedFilesLastWins | web_server.py:61-71 | a present extension maps to the path of the last stored file with it |
| WebService.StoreFiles | web_server.py:57-77 | the loop fills the dict and the last stored .shp path, or fails exactly when a save fails |
| WebService.Web3DServer.constructor | web_server.py:36-40 | no uploaded files and no loaded data |
| WebService.Web3DServer.SaveUploadedFiles | web_server.py:53-80 | fails exactly when a save fails, leaving the state; otherwise the uploaded files become the new dict and the .shp entry is returned |
| WebService.ServiceFeaturesCoordinates | web_server.py:239-321 | the features' coordinates joined are all the coordinates, centred |
| WebService.XodrToGeoJsonSpec | web_server.py:239-321 | None exactly when no road has a coordinate; otherwise one feature per road with its id, length and centred coordinates, counted, with symmetric extents |
| WebService.FeaturesAgree | web_server.py:239-321 | when every road has coordinates, this server's features are exactly those of web/web_server.py |
| WebService.GeoJsonServersAgree | web_server.py:239-321 | the two servers' GeoJSON helpers build the same collection when every road has coordinates |
| WebService.SelectCrsSpec | web_server.py:670-679 | the CRS is customCRS exactly when crs is 'custom' and customCRS is non-empty; EPSG:4326 by default |
| WebService.FindChar | web_server.py:388 | the index of the first dot, none before it |
| WebService.VersionPartsJoin | web_server.py:388 | major.minor[.rest] splits back into major and minor |
| WebService.VersionPartsFails | web_server.py:388 | a version without a dot has no minor part and fails |
| WebService.LaneIds | web_server.py:426-431 | lane ids -1 .. -lane_count, none for a count below 1 |
| WebService.BasicRoadsFails | web_server.py:394-413 | the roads fail exactly when some feature's start cannot be unpacked |
| WebService.BasicRoadsShape | web_server.py:394-431 | road k comes from feature id - 1, which has coordinates; its length is 10 per coordinate, its lanes are -1 .. -lane_count with the road width |
| WebService.BasicRoadsIncrease | web_server.py:394-399 | road ids increase and stay within 1 .. the feature count |
| WebService.BasicRoadsCover | web_server.py:394-399 | every feature with coordinates has its road |
| WebService.BasicXodrFails | web_server.py:379-449 | the document fails exactly when nothing is loaded, the version has no dot or some feature's start cannot be unpacked |
| WebService.Web3DServer.RightLaneIds | web_server.py:426-431 | the inner loop appends lanes -1 .. -lane_count |
| WebService.Web3DServer.CreateBasicXodr | web_server.py:379-449 | writes the basic document when it can be built and written; the flag says whether it did |
| WebViewer.TotalLengthAdditive | web/web_server.py:156-172 | without a failing road the total is additive over a split of the list |
| WebViewer.TotalLengthFails | web/web_server.py:169-171 | a road whose length cannot be added makes the total 0 |
| WebViewer.AddLaneLengths | web/web_server.py:166-168 | the lane loop adds the left-boundary lengths of the lanes that have one |
| WebViewer.CalculateTotalLength | web/web_server.py:156-172 | the loop computes the sum of the road lengths or lane lengths, 0 when one raises |
| WebViewer.ViewerFeaturesSpec | web/web_server.py:295-319 | every feature has coordinates and together they carry every coordinate, centred, in order |
| WebViewer.XodrToGeoJsonNone | web/web_server.py:265-280 | None exactly when no road has a coordinate |
| WebViewer.XodrToGeoJsonCentred | web/web_server.py:282-345 | a built collection counts its features, carries every coordinate centred, and its extents are symmetric about 0 |
| WebViewer.QualitySettingsSpec | web/web_server.py:912-918 | the requested values stand exactly when the mode is neither high nor low or already asks for its settings; the mode is idempotent; high and low override the request |
| WebViewer.ExportSettingsDefaults | web/web_server.py:905-918 | a request without settings gets resolution 0.2 and no lane height |
| WebViewer.LowerAllIsLowest | web/web_server.py:998-1016 | the running minimum from infinity is the smallest x and the smallest y |
| WebViewer.CoordinateOffsetIsMinimum | web/web_server.py:998-1022 | the offset is a lower bound of every x and y and is attained; the origin without points |
| WebViewer.AddLine | web/web_server.py:1009-1012 | the vertex loop lowers the running minimum by the vertices, or fails where float raises |
| WebViewer.AddFeature | web/web_server.py:1003-1016 | one feature lowers the running minimum by its points |
| WebViewer.ComputeCoordinateOffset | web/web_server.py:998-1022 | the offset loop computes the offset |
| WebViewer.ShpToObjGuardMisses | web/web_server.py:966-967 | as written the guard negates a non-empty tuple, so a lone .shp passes although .shx is missing |
| WebViewer.ShpToObjRejectsSpec | web/web_server.py:966-967 | the intended guard rejects exactly the uploads lacking one of .shp, .shx and .dbf |
| WidthGeometry.FirstMinExceptSpec | SoftwareCopyright/shp2opendrive/geometry_converter.py:1122-1126 | the index picked comes before every other remaining index in the stable order by distance |
| WidthGeometry.ClosestTwoIndices | SoftwareCopyright/shp2opendrive/geometry_converter.py:1122-1127 | two indices into the polyline |
| WidthGeometry.ClosestTwoProperties | SoftwareCopyright/shp2opendrive/geometry_converter.py:1116-1127 | [target, target] for no point, the point twice for one, else the points at the first two positions of the stable sort by distance |
| WidthGeometry.LineIntersectionProperties | SoftwareCopyright/shp2opendrive/geometry_converter.py:1183-1195 | no intersection exactly when the two directions are parallel to within 1e-10; otherwise the point lies on both lines |
| WidthGeometry.IntersectionOnBoth | SoftwareCopyright/shp2opendrive/geometry_converter.py:1189-1195 | the intersection lies on both lines |
| WidthGeometry.DenominatorIsDet | SoftwareCopyright/shp2opendrive/geometry_converter.py:1189 | the denominator is the cross product of the two directions |
| WidthGeometry.NumeratorIsDet | SoftwareCopyright/shp2opendrive/geometry_converter.py:1192 | the numerator is the cross product of p4 - p3 with p1 - p3 |
| WidthGeometry.AcrossIndependentOfReference | SoftwareCopyright/shp2opendrive/geometry_converter.py:1132-1140 | the offset across the heading does not depend on the reference point |
| WidthGeometry.PerpendicularWidthProperties | SoftwareCopyright/shp2opendrive/geometry_converter.py:1128-1150 | the perpendicular width is the same for every reference point and symmetric in the two sides |
| WidthGeometry.IntersectionWidthProperties | SoftwareCopyright/shp2opendrive/geometry_converter.py:1151-1182 | with two points per side the width is either the perpendicular width of the first points or the rounded distance, above 1 mm, between the points where the boundary lines cross the perpendicular |
| WidthGeometry.IntersectionWidthParallel | SoftwareCopyright/shp2opendrive/geometry_converter.py:1169-1173 | a boundary line parallel to the perpendicular falls back to the projection |
| WidthPolynomials.Kept | SoftwareCopyright/shp2opendrive/geometry_converter.py:955-965 | the kept stations number between one and the stations examined |
| WidthPolynomials.SimplifyWidthProfile | SoftwareCopyright/shp2opendrive/geometry_converter.py:952-969 | the simplification loop computes the simplified profile |
| WidthPolynomials.KeptProperties | SoftwareCopyright/shp2opendrive/geometry_converter.py:955-965 | the kept prefix starts with the first station, is in order, and holds every examined station that is a local extremum or differs from its successor by more than 0.02 |
| WidthPolynomials.SimplifiedProfileProperties | SoftwareCopyright/shp2opendrive/geometry_converter.py:952-978 | two or fewer stations are returned unchanged; a longer profile keeps its first and last station, the rest in order, and never drops a strict local extremum or a station differing from its successor by more than 0.02 |
| WidthPolynomials.SimplifiedAtLeastTwo | SoftwareCopyright/shp2opendrive/geometry_converter.py:952-966 | two or more stations simplify to two or more |
| WidthPolynomials.SimplifiedIncreasing | SoftwareCopyright/shp2opendrive/geometry_converter.py:952-966 | simplification keeps s strictly increasing |
| WidthPolynomials.PairCoefficients | SoftwareCopyright/shp2opendrive/geometry_converter.py:765-803 | the loop body computes interval i's polynomial, none when ds <= 0, or a division by zero |
| WidthPolynomials.PolysErrSticks | SoftwareCopyright/shp2opendrive/geometry_converter.py:764-803 | once an interval fails, the whole computation fails with that error |
| WidthPolynomials.CubicCoefficientsErrors | SoftwareCopyright/shp2opendrive/geometry_converter.py:759-804 | the only error is a division by zero |
| WidthPolynomials.CalculateCubicPolynomialCoefficients | SoftwareCopyright/shp2opendrive/geometry_converter.py:759-804 | the loop computes the polynomials of the simplified profile |
| WidthPolynomials.HermiteEnds | SoftwareCopyright/shp2opendrive/geometry_converter.py:788-791 | the Hermite cubic starts at w0 with slope dw0 and ends after ds at w1 with slope dw1 |
| WidthPolynomials.PairPolyProperties | SoftwareCopyright/shp2opendrive/geometry_converter.py:765-803 | interval i's polynomial starts at station i's width with slope dw0 and reaches station i + 1's width with slope dw1 after a length equal to the gap in s; none exactly when s does not advance |
| WidthPolynomials.SegmentEnds | SoftwareCopyright/shp2opendrive/geometry_converter.py:788-803 | a segment reaches its end width with its end slope |
| WidthPolynomials.PairPolyDefined | SoftwareCopyright/shp2opendrive/geometry_converter.py:772-773 | with strictly increasing s every interval has a polynomial |
| WidthPolynomials.PolysAll | SoftwareCopyright/shp2opendrive/geometry_converter.py:764-803 | with strictly increasing s the first k intervals give k polynomials, in order |
| WidthPolynomials.PolysJoin | SoftwareCopyright/shp2opendrive/geometry_converter.py:774-791 | consecutive polynomials join at the shared station's width and slope |
| WidthPolynomials.CubicCoefficientsProperties | SoftwareCopyright/shp2opendrive/geometry_converter.py:759-804 | nothing for fewer than two stations; for increasing s one polynomial per interval of the simplified profile, covering s from the first to the last station without gaps, joined smoothly |
| WidthPolynomials.BezierSmooth | SoftwareCopyright/shp2opendrive/geometry_converter.py:805-840 | the smoothing loop computes the smoothed widths |
| WidthPolynomials.BezierValueBounds | SoftwareCopyright/shp2opendrive/geometry_converter.py:823-836 | a smoothed width is at least 0.8 times its window's minimum, at most 1.2 times its maximum unless those cross, and a one-width window smooths to that width |
| WidthPolynomials.HermiteBlendConstant | SoftwareCopyright/shp2opendrive/geometry_converter.py:826-833 | the blend of a constant window is that constant |
| WidthPolynomials.SmoothWidthProfileBezier | SoftwareCopyright/shp2opendrive/geometry_converter.py:745-758 | every station's width is overwritten in place with the smoothed profile's |
| WidthPolynomials.OverwriteWidths | SoftwareCopyright/shp2opendrive/geometry_converter.py:752-754 | station i takes width max(0.1, smoothed[i]) while i is in range, its other fields unchanged |
| WidthPolynomials.SmoothedProfileProperties | SoftwareCopyright/shp2opendrive/geometry_converter.py:745-758 | smoothing keeps the count, s and boundary points, leaves fewer than four stations alone, keeps the end widths raised to at least 0.1, and makes every width at least 0.1 |
| WidthPolynomials.SmoothedConstant | SoftwareCopyright/shp2opendrive/geometry_converter.py:745-840 | a profile of one constant width of at least 0.1 is unchanged |
| WidthPolynomials.SmoothedIncreasing | SoftwareCopyright/shp2opendrive/geometry_converter.py:745-758 | smoothing keeps s strictly increasing |
| WidthProfile.NumSamplesBounds | SoftwareCopyright/shp2opendrive/geometry_converter.py:907-915 | never more than 20 stations nor more than the shorter boundary has points, and at least 3 when both have 3 points |
| WidthProfile.SamplePositions | SoftwareCopyright/shp2opendrive/geometry_converter.py:916-918 | the first sample sits at s = 0 and, with two or more, the last at the total length |
| WidthProfile.IntervalPositive | SoftwareCopyright/shp2opendrive/geometry_converter.py:916 | a positive length over two or more samples gives a positive interval |
| WidthProfile.SampleSIncreasing | SoftwareCopyright/shp2opendrive/geometry_converter.py:918 | a later sample lies further along a positive interval |
| WidthProfile.MeasureRecords | SoftwareCopyright/shp2opendrive/geometry_converter.py:923-936 | each station records the s and the reference pose it was measured at |
| WidthProfile.RawProfile | SoftwareCopyright/shp2opendrive/geometry_converter.py:917-937 | exactly one station per sample |
| WidthProfile.RawProfileStations | SoftwareCopyright/shp2opendrive/geometry_converter.py:917-937 | station i is the measurement made at s_i = i * sample_interval with the reference pose found there, and records that s and pose |
| WidthProfile.RawProfileIncreasing | SoftwareCopyright/shp2opendrive/geometry_converter.py:917-937 | with a positive interval the stations' s strictly increase and none lies beyond the last sample |
| WidthProfile.RawProfileStartsAtZero | SoftwareCopyright/shp2opendrive/geometry_converter.py:917-937 | with at least one sample the first station sits at s = 0 |
| WidthProfile.SampleStations | SoftwareCopyright/shp2opendrive/geometry_converter.py:917-937 | the sampling loop computes the raw stations |
| WidthProfile.AttachPolynomials | SoftwareCopyright/shp2opendrive/geometry_converter.py:941-949 | the attaching loop overwrites the stations in place with the attached profile |
| WidthProfile.AttachedProperties | SoftwareCopyright/shp2opendrive/geometry_converter.py:941-949 | attaching changes nothing but the polynomial entries and gives station i polynomial i exactly when i is below both counts |
| WidthProfile.SimpleRow | SoftwareCopyright/shp2opendrive/geometry_converter.py:983-992 | row i of the simple profile is pair i with its rounded distance |
| WidthProfile.CalculateWidthProfileSimple | SoftwareCopyright/shp2opendrive/geometry_converter.py:979-1000 | the loop computes the simple profile or its IndexError |
| WidthProfile.SimpleProfileProperties | SoftwareCopyright/shp2opendrive/geometry_converter.py:979-1000 | fails exactly when the right side is shorter but not empty; otherwise one station per pair, width the pair's rounded distance, s from 0 growing by the distance between consecutive midpoints |
| WidthProfile.CalculateWidthProfile | SoftwareCopyright/shp2opendrive/geometry_converter.py:894-951 | computes the profile: resampling unequal boundaries, the simple profile without a reference line, else sampling, smoothing and attaching |
| WidthProfile.FinishProfile | SoftwareCopyright/shp2opendrive/geometry_converter.py:938-949 | smoothing, fitting and attaching on an array compute the finished profile |
| WidthProfile.FinishedIncreasing | SoftwareCopyright/shp2opendrive/geometry_converter.py:938-949 | stations of increasing s always get their polynomials, and smoothing and attaching keep each station's s and pose |
| WidthProfile.WidthProfileMeasured | SoftwareCopyright/shp2opendrive/geometry_converter.py:894-951 | along a reference line of positive length, with boundaries resampled without error, the profile is produced with exactly num_samples stations (at most 20, no more than the shorter boundary), station i at s = i * sample_interval with the pose found there, strictly increasing in s |
| WidthProfile.MeasuredProfileProperties | SoftwareCopyright/shp2opendrive/geometry_converter.py:906-937 | exactly num_samples measured stations (at most 20, no more than the shorter boundary), station i at s = i * sample_interval with the pose found there, strictly increasing in s |
| WidthProfile.WidthProfileErrors | SoftwareCopyright/shp2opendrive/geometry_converter.py:894-951 | the profile fails only with ZeroDivisionError or IndexError |
| WidthProfile.FinishedErrors | SoftwareCopyright/shp2opendrive/geometry_converter.py:938-949 | smoothing, fitting and attaching fail only with ZeroDivisionError |
| CenterLine.ChainedFromLengths | SoftwareCopyright/shp2opendrive/geometry_converter.py:712-732 | entries whose s is the centre line's length up to them are chained from 0 and, with a non-negative sqrt, never decrease |
| CenterLine.BuildCenterTable | SoftwareCopyright/shp2opendrive/geometry_converter.py:713-732 | the pairing loop with its running s computes the centres and width table, or the IndexError of its look-ahead |
| CenterLine.PairUpProperties | SoftwareCopyright/shp2opendrive/geometry_converter.py:713-732 | the pairing fails exactly when the right side is shorter but not empty; otherwise each centre is its pair's midpoint, the sides are paired index by index, widths are the rounded distances and s is chained from 0 |
| CenterLine.ClosestIndex | SoftwareCopyright/shp2opendrive/geometry_converter.py:847-854 | an index into the points (0 when there are none) |
| CenterLine.ClosestIndexSpec | SoftwareCopyright/shp2opendrive/geometry_converter.py:847-854 | the index is a nearest point, strictly nearer than every point before it |
| CenterLine.FindClosest | SoftwareCopyright/shp2opendrive/geometry_converter.py:847-854 | the scan from an infinite best distance finds the first nearest point |
| CenterLine.Reseat | SoftwareCopyright/shp2opendrive/geometry_converter.py:860-869 | the s recomputation loop computes the reseated table |
| CenterLine.SimplifyWidthData | SoftwareCopyright/shp2opendrive/geometry_converter.py:841-871 | the loops compute what _simplify_width_data returns |
| CenterLine.PicksProperties | SoftwareCopyright/shp2opendrive/geometry_converter.py:845-858 | the kept entries sit, in order, on simplified points with the width and boundary points of table entries; one per simplified point when every original point has an entry |
| CenterLine.ReseatedProperties | SoftwareCopyright/shp2opendrive/geometry_converter.py:860-869 | reseating keeps every field but s and chains s from 0 along the centres |
| CenterLine.SimplifiedWidthDataProperties | SoftwareCopyright/shp2opendrive/geometry_converter.py:841-871 | the table is returned unchanged when it or the simplified line is empty; otherwise its entries sit in order on simplified points, at most one per point, with table widths and rechained s |
| CenterLine.CalculateCenterLine | SoftwareCopyright/shp2opendrive/geometry_converter.py:700-739 | resamples both boundaries, pairs them, and with preserve_detail simplifies a centre line of more than 10 points with its table |
| CenterLine.TargetPointsBounds | SoftwareCopyright/shp2opendrive/geometry_converter.py:702-706 | the resampling count is at least 50 and at least the larger point count, twice it above 10 |
| CenterLine.CenterLineProperties | SoftwareCopyright/shp2opendrive/geometry_converter.py:700-739 | with at least two points per boundary the only failure is a division by zero; without preserve_detail a result has one width entry per centre point, the midpoints of the resampled sides, s chained from 0 |
| CenterLine.CenterLinePreserveProperties | SoftwareCopyright/shp2opendrive/geometry_converter.py:733-738 | with preserve_detail a centre line of more than 10 points is replaced by its simplification, with one width entry per simplified point, sitting on it, carrying a table width, s rechained |
| XmlTree.FirstWithTag | src/xodr_parser.py:72 | the position of the first child with the tag, none before it |
| XmlTree.Find | src/xodr_parser.py:72 | find returns a child with the tag exactly when there is one |
| XmlTree.WithTagSpec | src/xodr_parser.py:95 | findall keeps exactly the children with the tag, no more than there are children |
| XmlTree.ZeroParses | src/xodr_parser.py:130-134 | the default text "0" parses as 0 |
| XmlTree.AbsentAttributeIsZero | src/xodr_parser.py:130-134 | an absent numeric attribute reads as its default 0 |
| XodrParser.FirstFailure | src/xodr_parser.py:95-116 | the position of the first element that raises, every earlier one parsing |
| XodrParser.Prefix | src/xodr_parser.py:95-116 | the loop appends exactly the records before the first element that raises |
| XodrParser.ParseAll | src/xodr_parser.py:95-116 | the whole list exactly when no element raises, one record per element |
| XodrParser.GeometryDefaults | src/xodr_parser.py:129-135 | absent geometry attributes read as 0 |
| XodrParser.GeometryTypeRule | src/xodr_parser.py:140-159 | a line child wins over the other types; the type is None exactly when none of line, arc, spiral, poly3 is present |
| XodrParser.ParamPoly3Unrecognised | src/xodr_parser.py:140-159 | a geometry whose only child is paramPoly3 has no type and no parameters |
| XodrParser.LaneDefaults | src/xodr_parser.py:221-249 | level is true exactly for the text "true", an absent type reads as driving, one width entry per width element |
| XodrParser.WidthDefaults | src/xodr_parser.py:239-247 | absent width coefficients read as 0 |
| XodrParser.SampleCount | src/xodr_parser.py:321 | at least two points per geometry |
| XodrParser.Samples | src/xodr_parser.py:308-352 | max(2, int(length / resolution) + 1) points |
| XodrParser.StationEnds | src/xodr_parser.py:325-326 | the first station is 0 and the last is the geometry's length |
| XodrParser.StationsGrow | src/xodr_parser.py:325-326 | for a non-negative length the stations never decrease |
| XodrParser.SamplesStart | src/xodr_parser.py:323-350 | every geometry's samples start at its (x, y) and lie at z = 0 |
| XodrParser.LineSamplesEnd | src/xodr_parser.py:328-330 | a line ends at (x + length cos hdg, y + length sin hdg) |
| XodrParser.RoadSamplesCount | src/xodr_parser.py:289-306 | each geometry contributes at least two points, so a non-empty plan view gives points |
| XodrParser.GenerateGeometryPoints | src/xodr_parser.py:308-352 | ZeroDivisionError for a zero resolution, otherwise the samples |
| XodrParser.GenerateRoadPoints | src/xodr_parser.py:289-306 | the geometries' points extended in plan-view order |
| XodrParser.CenterLinesZeroResolution | src/xodr_parser.py:354-375 | with a zero resolution it raises exactly when some road has a plan view |
| XodrParser.CenterLinesKeys | src/xodr_parser.py:354-375 | the centre lines hold exactly the ids of the roads with a plan view |
| XodrParser.CenterLinesLast | src/xodr_parser.py:366-373 | each id holds the points and length of the last road with that id and a plan view |
| XodrParser.CenterLinesErrStays | src/xodr_parser.py:364-373 | once a road raises, the whole call raises with that error |
| XodrParser.StatisticsSpec | src/xodr_parser.py:377-399 | one count per road and junction; a total length that is 0 without roads and never negative when no road length is; a type histogram counting each type's occurrences and adding up to the number of geometries |
| XodrParser.StatisticsSnoc | src/xodr_parser.py:384 | one more road adds exactly its length to the total and one to the road count |
| XodrParser.LengthsNonNegative | src/xodr_parser.py:384 | the summed road length is never negative when no road length is |
| XodrParser.KindsCount | src/xodr_parser.py:387-390 | one type entry per geometry of every road |
| XodrParser.XodrParser.constructor | src/xodr_parser.py:23-29 | no roads, no junctions and no header |
| XodrParser.XodrParser.ParseFile | src/xodr_parser.py:31-63 | a document ElementTree rejects or a header that raises changes nothing; otherwise the header is replaced when present and roads and junctions hold what was read before any failure |
| XodrParser.XodrParser.ParseRoads | src/xodr_parser.py:86-116 | roads is emptied, then each road is appended until one raises |
| XodrParser.XodrParser.ParseJunctions | src/xodr_parser.py:251-287 | junctions is emptied, then each junction is appended until one raises |
| XodrParser.XodrParser.GetRoadCenterLines | src/xodr_parser.py:354-375 | the loop computes the centre lines of the parsed roads |
| XodrParser.XodrParser.GetStatistics | src/xodr_parser.py:377-399 | the statistics of the parsed state |
| XodrParser.CountTypes | src/xodr_parser.py:387-390 | the nested loop computes the histogram of the geometry types |
| XodrParser.CountPlanView | src/xodr_parser.py:388-390 | one more count per geometry of a plan view |
| XodrParser.AppendParsed | src/xodr_parser.py:95-116 | the loop appends each record until one raises |
| XodrToObj.LineStarts | src/xodr_to_obj_converter.py:178-192 | a line geometry starts at its start point with its own heading |
| XodrToObj.ArcStarts | src/xodr_to_obj_converter.py:194-217 | an arc starts at its start point, turns its heading by s times the curvature, and degenerates to the line below abs(curvature) 1e-10 |
| XodrToObj.ArcIsCircle | src/xodr_to_obj_converter.py:207-217 | above the threshold the arc point lies on the circle of radius 1/curvature that the OpenDRIVE reader samples |
| XodrToObj.MeshSamples | src/xodr_to_obj_converter.py:139-176 | a geometry is sampled at max(2, int(length/resolution) + 1) stations, the reader's count |
| XodrToObj.CenterlineCount | src/xodr_to_obj_converter.py:109-125 | the centre line has at least two points per plan-view geometry |
| XodrToObj.ParsedArcHasCurvature | src/xodr_to_obj_converter.py:151-153 | an arc produced by the reader always carries its curvature, so the params lookup cannot raise |
| XodrToObj.SamplesAgreeWithReader | src/xodr_to_obj_converter.py:127-176 | for lines, untyped geometries and arcs not exactly at the threshold, the mesh samples the same points as the reader's generate_road_points |
| XodrToObj.WidestSectionSpec | src/xodr_to_obj_converter.py:344-358 | the widest section is non-negative, at least every section's width, and 0 or some section's width |
| XodrToObj.RoadWidthRule | src/xodr_to_obj_converter.py:331-361 | the road width is the widest section when some section is wider than 0, and the default width otherwise |
| XodrToObj.SumStartWidths | src/xodr_to_obj_converter.py:349-356 | the side loop adds width[0].a of exactly the lanes that have a width entry |
| XodrToObj.LeftEdges | src/xodr_to_obj_converter.py:484-522 | one left boundary point per centre point |
| XodrToObj.RightEdges | src/xodr_to_obj_converter.py:484-522 | one right boundary point per centre point |
| XodrToObj.EdgesSymmetric | src/xodr_to_obj_converter.py:512-522 | the left and right boundary points lie symmetrically about their centre point, at its height |
| XodrToObj.StripFacesPattern | src/xodr_to_obj_converter.py:536-552 | two triangles per quad, (L_i, R_i, L_i+1) then (L_i+1, R_i, R_i+1), in quad order |
| XodrToObj.StripFacesInRange | src/xodr_to_obj_converter.py:525-552 | the strip of n - 1 quads names only its own 2n vertices, numbered from 1 |
| XodrToObj.BoundaryPoints | src/xodr_to_obj_converter.py:484-522 | the boundary loop computes exactly the left and right rows |
| XodrToObj.RoadMeshShape | src/xodr_to_obj_converter.py:88-107 | a road with a plan view gets n >= 2 centre points, 2n vertices and 2(n - 1) faces naming only those vertices |
| XodrToObj.RoadsMeshSpec | src/xodr_to_obj_converter.py:76-77 | across all roads every face names an existing vertex, and each road with a plan view adds two more vertices than faces |
| XodrToObj.LaneOffsetStep | src/xodr_to_obj_converter.py:554-581 | neighbouring lane centres lie half of each lane's width apart |
| XodrToObj.WidthsBeforeMirror | src/xodr_to_obj_converter.py:568-577 | summing the widths from the other side, the lanes before k and the lanes after them add up to the total width |
| XodrToObj.LaneOffsetMirror | src/xodr_to_obj_converter.py:554-581 | the lanes are centred on the middle: with the lane order reversed, every lane centre lies at the opposite offset |
| XodrToObj.CalculateLaneOffset | src/xodr_to_obj_converter.py:554-581 | the two accumulating loops compute the lane centre measured from the middle of all lanes, a missing width counting 3.5 |
| XodrToObj.ReadRoads | src/xodr_to_obj_converter.py:67-69 | a fresh parser's roads, or nothing when parsing raises |
| XodrToObj.XodrToObjConverter.constructor | src/xodr_to_obj_converter.py:25-39 | the defaults are stored and the mesh and material tables start empty |
| XodrToObj.XodrToObjConverter.GetConversionStats | src/xodr_to_obj_converter.py:728-742 | the reported counts are the vertex and face counts, with the width and resolution |
| XodrToObj.XodrToObjConverter.CalculateRoadWidth | src/xodr_to_obj_converter.py:331-361 | the loops compute the widest section or the default width |
| XodrToObj.XodrToObjConverter.GenerateGeometryPoints | src/xodr_to_obj_converter.py:127-176 | a zero resolution raises ZeroDivisionError; otherwise the geometry's samples |
| XodrToObj.XodrToObjConverter.GenerateRoadCenterline | src/xodr_to_obj_converter.py:109-125 | the points of every geometry in plan-view order, or the error of the first geometry at a zero resolution |
| XodrToObj.XodrToObjConverter.AppendVertices | src/xodr_to_obj_converter.py:525-533 | the points are appended in order and vertex_count grows by their number |
| XodrToObj.XodrToObjConverter.AppendStrip | src/xodr_to_obj_converter.py:536-552 | exactly the strip's faces are appended; vertices untouched |
| XodrToObj.XodrToObjConverter.GenerateSimpleRoadMesh | src/xodr_to_obj_converter.py:472-552 | left row then right row appended, vertex_count up by 2n, the strip's 2(n - 1) faces numbered after earlier vertices; faces keep naming existing vertices |
| XodrToObj.XodrToObjConverter.GenerateRoadSurfaceMesh | src/xodr_to_obj_converter.py:363-379 | fewer than two centre points change nothing; otherwise the simple mesh |
| XodrToObj.XodrToObjConverter.GenerateRoadMesh | src/xodr_to_obj_converter.py:88-107 | raises exactly for a road with a plan view at a zero resolution; otherwise appends that road's mesh |
| XodrToObj.UndrawnMeshEmpty | src/xodr_to_obj_converter.py:76-77 | roads none of which has a plan view contribute no vertex and no face |
| XodrToObj.XodrToObjConverter.MeshRoads | src/xodr_to_obj_converter.py:76-77 | from an empty mesh, succeeds exactly when every road can be meshed and then leaves the mesh of all roads in order; on failure the mesh is still empty, since only roads without a plan view came before the failing one |
| XodrToObj.XodrToObjConverter.ConvertXodrToObj | src/xodr_to_obj_converter.py:54-86 | a rejected document returns false and changes nothing; otherwise the mesh is rebuilt from nothing, the call succeeds exactly when the roads can be meshed, and a failure leaves an empty mesh |
| XodrValidation.MissingFindings | validate_xodr.py:57-60 | one error per missing required attribute |
| XodrValidation.KindsOf | validate_xodr.py:104-110 | each geometry's type is the tag of its first recognised child, or none |
| XodrValidation.ValidIffNoErrors | validate_xodr.py:140-144 | a file is valid exactly when no error was recorded |
| XodrValidation.EarlyExits | validate_xodr.py:23-48 | the statistics stay empty exactly when the check stopped early, and then there is one error, no warning, and the file is invalid |
| XodrValidation.MissingAttributesSpec | validate_xodr.py:63-64 | the missing-attribute list keeps, in order, exactly the names the element lacks, and is empty exactly when it has them all |
| XodrValidation.HeaderRules | validate_xodr.py:50-69 | without a header one error and version "N/A.N/A"; with one, an error per missing revMajor, revMinor or name and a single warning when version or date is missing |
| XodrValidation.RoadErrorsEmpty | validate_xodr.py:86-102 | a road contributes no error exactly when it has an id, a length and a planView |
| XodrValidation.RoadsErrorsEmpty | validate_xodr.py:83-134 | the roads contribute no error exactly when every one of them is complete |
| XodrValidation.ValidIff | validate_xodr.py:50-144 | an OpenDRIVE file is valid exactly when its header has revMajor, revMinor and name and every road has an id, a length and a planView |
| XodrValidation.KnownOrWarned | validate_xodr.py:112-115 | every geometry is either counted under its type or warned about |
| XodrValidation.GeometryTypeCounts | validate_xodr.py:112-113 | the type counts add up to the recognised geometries, each type's count being its number of occurrences |
| XodrValidation.FindGeometryType | validate_xodr.py:106-110 | the child loop with its break finds the first recognised type |
| XodrValidation.CountGeometries | validate_xodr.py:105-115 | the geometry loop adds each recognised type to the histogram and warns once per other geometry |
| XodrValidation.CountLanes | validate_xodr.py:124-134 | the section loop counts the left, right and center lanes of every section |
| XodrValidation.CheckAttributes | validate_xodr.py:87-90 | one error per missing id or length, in that order |
| XodrValidation.CheckLength | validate_xodr.py:93-97 | a length that parses is summed (0 when absent), one that does not is warned about |
| XodrValidation.CheckPlanView | validate_xodr.py:99-115 | a missing planView is an error; otherwise its geometries are counted or warned about |
| XodrValidation.CheckLanes | validate_xodr.py:117-134 | missing lanes is a warning; otherwise their lanes are counted |
| XodrValidation.CheckRoad | validate_xodr.py:84-134 | the loop body appends exactly road i's errors and warnings and adds its length, types and lanes |
| XodrValidation.NextRoad | validate_xodr.py:83-134 | one pass of the road loop extends the running totals by one road |
| XodrValidation.CheckRoads | validate_xodr.py:72-138 | the road loop yields every road's errors and warnings in order and the road count, total length, type histogram and lane count |
| XodrValidation.CheckHeader | validate_xodr.py:50-69 | the header checks yield the header errors, warnings and version |
| XodrValidation.ValidateXodrFile | validate_xodr.py:6-148 | the method computes the report of validate_xodr_file for every file, including the early exits |
| XodrValidation.CheckDocument | validate_xodr.py:50-144 | past the early exits, the header and then the roads give the report |
| XodrValidation.ComplianceRule | validate_xodr.py:232-282 | a file passes exactly when it parses, any version given on the root is one of 1.4 to 1.7, a present header carries a geoReference, and several roads come with a junction |

## Left out

- Floating-point rounding: arithmetic is exact over `real`, so IEEE rounding and overflow are not modelled. `sqrt`, `atan2`, `sin`, `cos` and `round` are uninterpreted `Libm` fields, and only `sqrt >= 0` and similar facts are assumed where a lemma requires them.
- Python `float()` on strings: the model reads an optional sign and decimal mantissas with an optional exponent part. It reads single underscores between digits, and strips ASCII and Unicode whitespace. It does not read `inf`, `nan` or `infinity`, or digits outside ASCII 0-9, which the model rejects where Python would read a number.
- `str.lower`/`str.upper` are ASCII-only.
- File names are split with POSIX `splitext` semantics only.
- Reading and writing files, `os.path.exists`/`getsize`, XML text parsing, temporary directories, `secure_filename`, `file.save` and the clock are inputs or parameters: a parsed document, a file size, the saved path, and so on.
- geopandas, shapely and pyproj (`read_file`, `to_crs`, `groupby`, `geometry.length`) are parameters; `groupby` and the column reads raise KeyError on a missing column, and a row without a RoadID, which groupby drops, is not modelled. Only the table arithmetic and the list logic around them is modelled.
- A missing CRS is modelled. `to_crs` is a parameter: whether it completes for an EPSG code, and where it sends each vertex.
- ShapefileReading.ShapefileReader.ConvertToLocalCoordinates: geometries are modelled as 2-D and never null (a point has only x and y, and there is no null geometry), so the False that convert_to_local_coordinates returns on 3-D coordinates or a null geometry is not modelled; the callers would then log and keep the untranslated table.
- The scenariogeneration `xodr` API (`PlanView`, `Lane`, `RoadMark`, `add_road`, `write_xml`) is an opaque sink that may refuse a road. Road marks, and the XML that `write_xml` produces, are not modelled.
- `validate_opendrive` counts every road as 100 m long; that constant is modelled as RoadAssembly.AssumedRoadLength. The generator's own `get_statistics` (src/opendrive_generator.py:801-829), which also counts 100 m and two lanes per road, is not modelled.
- Floating-point fitting is a parameter of the model, fallible where the source can fail:
  - `np.polyfit`, `interp1d`, `splprep`/`splev`, `np.linalg.solve`;
  - `_fit_polynomial_curves`, `_fit_spline_curves`, `_spline_interpolation`, `_fit_segmented_polynomial_curves`, and the scoring of `_select_optimal_polynomial_degree`;
  - `_adaptive_simplify` and `_reconstruct_reference_line`.
- `_get_reference_point_at_s` is a parameter that always returns a pose, as the source's does; the `ref_point is None` branch of `_calculate_width_profile` is therefore never taken and not modelled.
- The Euler-spiral integration of `_calc_spiral_point` is a parameter. The OBJ converter's paramPoly3 branch is unreachable, because the reader never recognises paramPoly3 and samples it as a line.
- Simplify.DouglasPeucker requires tolerance > 0, where the recursion always ends. Simplify.Simplified covers every tolerance: with a tolerance of 0 or less the source still ends on points in general position, and runs until RecursionError when a range it reaches has its interior on its chord.
- `_find_closest_point` of the GeometryConverter (SoftwareCopyright/shp2opendrive/geometry_converter.py:1104) is never called by the source and is not modelled.
- `_generate_lane_based_mesh` is not modelled: `_generate_road_mesh` never passes lane data, so that branch is never taken.
- `_export_obj_file`, `_export_mtl_file`, `_create_material`, `save_conversion_report` and `_create_basic_shp` write files and are not modelled. So are the XML text layout of `_create_basic_xodr`, and its `lane_count`/`version` values when they are not an integer or a string.
- web_server.py `xodr_to_geojson` is modelled with 3-D points only. The reader always gives z, so its 2-D branch cannot be reached from the parser.
- WebViewer.CoordinateOffset: the offset of `convert_shp_to_obj` (web/web_server.py:998-1022) is modelled on the features a reader would return, but as written the route never reaches it. Line 991 calls `ShapefileReader()` with no argument, while src/shp_reader.py:22 requires `shapefile_path`, and no ShapefileReader in the source defines `read_shapefile`. So the route always ends in the 500 of lines 1068-1069 once the upload is saved. The offset members (WebViewer.LowerAllIsLowest, WebViewer.CoordinateOffsetIsMinimum, WebViewer.AddLine, WebViewer.AddFeature, WebViewer.ComputeCoordinateOffset) describe the evidently intended computation.
- Printing, logging, plotting (matplotlib), the GUIs, the visualiser, the CLI `main()` functions, src/xodr2obj.py and the Flask routes themselves are not modelled.
- The debug, demo and test scripts, and the connection-manager scripts that reference code which is not shown, are not modelled.
- ShapefileReading.GeometryLength: point geometries fall under OtherGeometry together with polygons, and get the path length of their vertices; shapely gives a Point or MultiPoint length 0. Only a polygon's perimeter, for a closed ring, agrees with shapely's length.
- RoadAssembly.AttributeLaneSection: a `lane_width` that is not a number is passed through into the lane records by src/opendrive_generator.py:396-438. The model's width records are numbers, so such a width counts as failing (Err "TypeError"), and the road is then not built.
- ConversionStats.InitialStats: a constant. It has no contract of its own; the constructors that use it state `stats == InitialStats()`.
- LaneConverter.ExtractSegmentsFromLaneSurfaces: a one-line selection (the first surface's centre segments, or none) with no contract of its own; LaneConverter.ConvertedRoadsSpec states the lengths it gives kept lane roads.

## Findings

| source | as written | input that shows it | evidently intended | confidence | as-written member | corrected member |
|---|---|---|---|---|---|---|
| src/main.py:53-57 | the constructor passes `smooth_curves` and `preserve_detail` to the GeometryConverter of src/geometry_converter.py, whose constructor takes only `tolerance`, so every construction raises TypeError | any configuration, e.g. the default one | build the converter with the tolerance alone | not executed | MainConverter.AsWrittenConstructorRaises | MainConverter.CorrectedConstructorBuilds |
| analyze_slope_consistency.py:111-114 | the heading difference is folded once (`abs(a - b)`, then `360 - diff` above 180), so headings that differ by a whole turn or more are not reduced | road 1 ends at heading 370 degrees, road 2 starts at 0 degrees at the same point: difference -10, counted as consistent | the angle between the headings, reduced modulo 360 into [0, 180] | not executed | SlopeConsistency.JointAsWrittenMisses | SlopeConsistency.CorrectedJointRule |
| web/web_server.py:966-967 | the completeness guard negates the tuple returned by `validate_uploaded_files`, which is always truthy, so it never rejects | a lone upload `roads.shp` | reject when the `.shp`, `.shx` or `.dbf` file is missing | not executed | WebViewer.ShpToObjGuardMisses | WebViewer.ShpToObjRejectsSpec |
