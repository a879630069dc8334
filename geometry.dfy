/** The floating-point primitives of the planner. Doubles are modelled as
    `real`; the transcendental functions of the C++ math library, the spline
    library and the division of doubles whose divisor may be zero are left
    abstract: they are parameters of every operation that uses them, and
    nothing is assumed about their values unless a lemma says so. */
module Geometry {

  /** A point of the map frame or of the car frame. */
  datatype Point = Point(x: real, y: real)

  /** The abstract primitives: `sqrt`, `atan2(y, x)`, `cos`, `sin`, the
      constant pi, the spline fitted through anchor points and evaluated at
      an abscissa, and the division `div(a, b)` of doubles, which is total
      (a zero divisor gives an infinity or NaN). */
  datatype Primitives = Primitives(
    sqrt: real -> real,
    atan2: (real, real) -> real,
    cos: real -> real,
    sin: real -> real,
    pi: real,
    spline: (seq<real>, seq<real>, real) -> real,
    div: (real, real) -> real)

  /** Euclidean distance between (x1, y1) and (x2, y2), through the abstract `sqrt`. */
  function Distance(g: Primitives, x1: real, y1: real, x2: real, y2: real): real
  {
    g.sqrt((x2 - x1) * (x2 - x1) + (y2 - y1) * (y2 - y1))
  }

  /** Degrees to radians. */
  function Deg2Rad(g: Primitives, x: real): real
  {
    x * g.pi / 180.0
  }

  /** The abstract square root returns no negative value on a non-negative
      argument (what the C++ `sqrt` does); only lemmas that need it assume it. */
  ghost predicate SqrtNonNegative(g: Primitives)
  {
    forall v: real :: 0.0 <= v ==> 0.0 <= g.sqrt(v)
  }

  /** The abstract division agrees with real division on non-zero divisors. */
  ghost predicate ExactDivision(g: Primitives)
  {
    forall a: real, b: real :: b != 0.0 ==> g.div(a, b) == a / b
  }

  /** Under `SqrtNonNegative`, distances are non-negative. */
  lemma DistanceNonNegative(g: Primitives, x1: real, y1: real, x2: real, y2: real)
    ensures SqrtNonNegative(g) ==> 0.0 <= Distance(g, x1, y1, x2, y2)
  {
    SquareSign(x2 - x1);
    SquareSign(y2 - y1);
  }

  /** A square is non-negative. */
  lemma SquareSign(a: real)
    ensures 0.0 <= a * a
  {
    if a < 0.0 {
      assert a * a == (-a) * (-a);
    }
  }

  function Abs(v: real): real
  {
    if v < 0.0 then -v else v
  }

  function Min(a: real, b: real): real
  {
    if a <= b then a else b
  }
}
