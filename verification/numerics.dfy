/** Real-number helpers shared by both solvers: the square root that stands in for
    `std::sqrt` / `np.linalg.norm`, and the clamps used by the colour code. */
module Numerics {

  /** `sqrt` behaves as the square root on non-negative reals.  The library routine
      is not part of the model, so every member that needs it takes it as a
      parameter constrained by this predicate. */
  ghost predicate IsSqrt(sqrt: real -> real) {
    forall x :: 0.0 <= x ==> 0.0 <= sqrt(x) && sqrt(x) * sqrt(x) == x
  }

  /** A square root of a positive number is positive. */
  lemma SqrtPositive(sqrt: real -> real, x: real)
    requires IsSqrt(sqrt) && 0.0 < x
    ensures 0.0 < sqrt(x)
  {
    assert sqrt(x) * sqrt(x) == x;
  }

  /** Square roots are monotone: `sqrt(x) < t` exactly when `x < t*t` (for t >= 0). */
  lemma SqrtBelow(sqrt: real -> real, x: real, t: real)
    requires IsSqrt(sqrt) && 0.0 <= x && 0.0 <= t
    ensures sqrt(x) < t <==> x < t * t
  {
    var s := sqrt(x);
    assert 0.0 <= s && s * s == x;
    if s < t {
      SquareStrictMono(s, t);
    } else {
      SquareMono(t, s);
    }
  }

  /** The square root of 0 is 0: a positive root s would lie below s / 2. */
  lemma SqrtOfZero(sqrt: real -> real)
    requires IsSqrt(sqrt)
    ensures sqrt(0.0) == 0.0
  {
    var s := sqrt(0.0);
    if s > 0.0 {
      SqrtBelow(sqrt, 0.0, s / 2.0);
      SquareStrictMono(0.0, s / 2.0);
    }
  }

  lemma SquareMono(a: real, b: real)
    requires 0.0 <= a <= b
    ensures a * a <= b * b
  {
    var aa, ab, bb := a * a, a * b, b * b;
    assert aa <= ab by { assert a * (b - a) >= 0.0; }
    assert ab <= bb by { assert (b - a) * b >= 0.0; }
  }

  lemma SquareStrictMono(a: real, b: real)
    requires 0.0 <= a < b
    ensures a * a < b * b
  {
    var aa, ab, bb := a * a, a * b, b * b;
    assert aa <= ab by { assert a * (b - a) >= 0.0; }
    assert ab < bb by { assert (b - a) * b > 0.0; }
  }

  /** x squared. */
  function Sq(x: real): real { x * x }

  /** The square of a number strictly between 0 and 1 stays strictly between 0 and 1. */
  lemma UnitSquare(q: real)
    requires 0.0 < q < 1.0
    ensures 0.0 < Sq(q) < 1.0
  {
    SquareStrictMono(0.0, q);
    SquareStrictMono(q, 1.0);
  }

  /** `std::clamp(v, lo, hi)` for lo <= hi. */
  function Clamp(v: real, lo: real, hi: real): (r: real)
    requires lo <= hi
    ensures lo <= r <= hi
    ensures lo <= v <= hi ==> r == v
    ensures v < lo ==> r == lo
    ensures hi < v ==> r == hi
  {
    if v < lo then lo else if hi < v then hi else v
  }

  /** `fmin`. */
  function Min(a: real, b: real): (r: real)
    ensures r <= a && r <= b && (r == a || r == b)
  {
    if a <= b then a else b
  }

  /** Python's `max` on two floats. */
  function Max(a: real, b: real): (r: real)
    ensures a <= r && b <= r && (r == a || r == b)
  {
    if a >= b then a else b
  }
}
