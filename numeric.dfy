// Real-number helpers shared by the tracker and the putt statistics engine.
// Floating point is modelled by `real`; `std::sqrt` is not given a body here but is
// passed around as a function value that is required to behave like a square root.
module Numeric {
  /// The larger of two values, written as the source's "if (b > a) a = b" updates do it.
  function Max(a: real, b: real): (r: real)
    ensures r >= a && r >= b
    ensures r == a || r == b
  {
    if b > a then b else a
  }

  /// Truncation toward zero: C++'s `static_cast<int>` and Python's `int` on a float.
  function TruncateToInt(v: real): (n: int)
    ensures v >= 0.0 ==> n as real <= v < n as real + 1.0
    ensures v < 0.0 ==> n as real - 1.0 < v <= n as real
  {
    if v >= 0.0 then v.Floor else -((-v).Floor)
  }

  /// Absolute value (`std::abs` on a float).
  function Abs(a: real): (r: real)
    ensures r >= 0.0
    ensures r == a || r == -a
  {
    if a < 0.0 then -a else a
  }

  /// `sqrt` behaves like the square root on every non-negative argument.
  ghost predicate IsSqrt(sqrt: real -> real)
  {
    forall x :: 0.0 <= x ==> 0.0 <= sqrt(x) && sqrt(x) * sqrt(x) == x
  }

  /// Euclidean length of (x, y) under a given square root.
  function Norm(x: real, y: real, sqrt: real -> real): (r: real)
    requires IsSqrt(sqrt)
    ensures r >= 0.0 && r * r == x * x + y * y
  {
    SquaresNonNegative(x, y);
    sqrt(x * x + y * y)
  }

  lemma MulNonNegative(a: real, b: real)
    requires a >= 0.0 && b >= 0.0
    ensures a * b >= 0.0
  {
  }

  lemma SquaresNonNegative(x: real, y: real)
    ensures x * x + y * y >= 0.0
  {
    assert x * x >= 0.0;
    assert y * y >= 0.0;
  }
}
