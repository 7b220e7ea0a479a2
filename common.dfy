// Shared vocabulary of the model: optional values and error results, planar
// points, the floating-point library calls the converter makes, and Python's
// truncating int() conversion.

module Common {

  datatype Option<T> = None | Some(value: T)

  datatype Result<T> = Ok(value: T) | Err(error: string)

  /** The error Python raises on a division by zero. */
  const ZeroDivision: string := "ZeroDivisionError"

  /** The error Python raises on an index past the end of a list. */
  const IndexError: string := "IndexError"

  /** A planar point (x, y) in metres. */
  datatype Point = Point(x: real, y: real)

  /**
   * The library calls the source makes on floats. They are parameters of
   * the model, not definitions: nothing is assumed about them except what a
   * member states in its own `requires`.
   *   sqrt, atan2, sin, cos, pi      -- Python's math module
   *   roundTo(x, n)                  -- round(x, n), n decimal places
   *   roundInt(x)                    -- round(x) with no digits, an int
   */
  datatype Libm = Libm(
    sqrt: real -> real,
    atan2: (real, real) -> real,
    sin: real -> real,
    cos: real -> real,
    pi: real,
    roundTo: (real, int) -> real,
    roundInt: real -> int)

  /** math.sqrt never returns a negative number. */
  ghost predicate SqrtNonNegative(lib: Libm)
  {
    forall v :: lib.sqrt(v) >= 0.0
  }

  /** round() lands within one half of its argument. */
  ghost predicate RoundsToNearest(lib: Libm)
  {
    forall v :: v - 0.5 <= lib.roundInt(v) as real <= v + 0.5
  }

  function Abs(v: real): real
  {
    if v < 0.0 then -v else v
  }

  function Min(a: real, b: real): real
  {
    if a <= b then a else b
  }

  function Max(a: real, b: real): real
  {
    if a >= b then a else b
  }

  function MinInt(a: int, b: int): int
  {
    if a <= b then a else b
  }

  function MaxInt(a: int, b: int): int
  {
    if a >= b then a else b
  }

  /** Squared Euclidean distance between two points. */
  function Dist2(p: Point, q: Point): real
  {
    (q.x - p.x) * (q.x - p.x) + (q.y - p.y) * (q.y - p.y)
  }

  /** math.sqrt(dx**2 + dy**2), the distance the source computes between two points. */
  function Dist(lib: Libm, p: Point, q: Point): real
  {
    lib.sqrt(Dist2(p, q))
  }

  /** Point-wise midpoint ((x1 + x2) / 2, (y1 + y2) / 2). */
  function Midpoint(p: Point, q: Point): (m: Point)
    ensures Dist2(p, m) == Dist2(m, q)
    ensures 4.0 * Dist2(p, m) == Dist2(p, q)
  {
    Point((p.x + q.x) / 2.0, (p.y + q.y) / 2.0)
  }

  /**
   * Python's int() on a float: truncation toward zero (Dafny's `.Floor`
   * rounds toward negative infinity, so negative values are mirrored).
   */
  function Trunc(v: real): (r: int)
    ensures v >= 0.0 ==> 0 <= r && r as real <= v < r as real + 1.0
    ensures v < 0.0 ==> r <= 0 && r as real - 1.0 < v <= r as real
  {
    if v >= 0.0 then v.Floor else -((-v).Floor)
  }

  /**
   * Length of a polyline: the sum of the distances between consecutive
   * points, 0 for fewer than two points.
   */
  function PathLength(lib: Libm, pts: seq<Point>): real
  {
    if |pts| < 2 then 0.0
    else PathLength(lib, pts[..|pts| - 1]) + Dist(lib, pts[|pts| - 2], pts[|pts| - 1])
  }

  lemma {:induction false} PathLengthNonNegative(lib: Libm, pts: seq<Point>)
    requires SqrtNonNegative(lib)
    ensures PathLength(lib, pts) >= 0.0
  {
    if |pts| >= 2 {
      PathLengthNonNegative(lib, pts[..|pts| - 1]);
    }
  }

  /** Extending a prefix by one point adds the distance to that point. */
  lemma PathLengthSnoc(lib: Libm, pts: seq<Point>, i: nat)
    requires i + 1 < |pts|
    ensures PathLength(lib, pts[..i + 2]) == PathLength(lib, pts[..i + 1]) + Dist(lib, pts[i], pts[i + 1])
  {
    assert pts[..i + 2][..i + 1] == pts[..i + 1];
  }

  /** With a non-negative sqrt, the length of a prefix never decreases as the prefix grows. */
  lemma {:induction false} PathLengthPrefixMono(lib: Libm, pts: seq<Point>, i: nat, j: nat)
    requires SqrtNonNegative(lib) && i <= j < |pts|
    ensures PathLength(lib, pts[..i + 1]) <= PathLength(lib, pts[..j + 1])
    decreases j - i
  {
    if i < j {
      PathLengthPrefixMono(lib, pts, i, j - 1);
      PathLengthSnoc(lib, pts, j - 1);
    }
  }

  /** Sum of a sequence of reals, peeled from the back as a running total grows. */
  function Sum(xs: seq<real>): real
  {
    if xs == [] then 0.0 else Sum(xs[..|xs| - 1]) + xs[|xs| - 1]
  }

  // --------------------------------------------------------------- strings

  function LowerChar(c: char): char
  {
    if 'A' <= c <= 'Z' then (c as int + 32) as char else c
  }

  /** str.lower() on ASCII letters. */
  function Lower(s: string): (r: string)
    ensures |r| == |s| && forall i :: 0 <= i < |s| ==> r[i] == LowerChar(s[i])
  {
    seq(|s|, i requires 0 <= i < |s| => LowerChar(s[i]))
  }
}
