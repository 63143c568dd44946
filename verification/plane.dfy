/** Two-component vectors, standing in for the length-2 numpy arrays of the
    Python simulator (positions, velocities and forces). */
module Plane {

  datatype Vec2 = Vec2(x: real, y: real)

  const Zero: Vec2 := Vec2(0.0, 0.0)

  function Add(a: Vec2, b: Vec2): Vec2 { Vec2(a.x + b.x, a.y + b.y) }
  function Sub(a: Vec2, b: Vec2): Vec2 { Vec2(a.x - b.x, a.y - b.y) }
  function Neg(a: Vec2): Vec2 { Vec2(-a.x, -a.y) }

  /** `c * v`, a scalar times an array. */
  function Scale(c: real, v: Vec2): Vec2 { Vec2(c * v.x, c * v.y) }

  /** `v * c`, an array times a scalar. */
  function Times(v: Vec2, c: real): Vec2 { Vec2(v.x * c, v.y * c) }

  /** `v / c`, an array divided by a scalar. */
  function Div(v: Vec2, c: real): Vec2 requires c != 0.0 { Vec2(v.x / c, v.y / c) }

  /** The squared Euclidean length; `np.linalg.norm(v)` is its square root. */
  function NormSq(v: Vec2): real { v.x * v.x + v.y * v.y }

  lemma NegZero()
    ensures Neg(Zero) == Zero
  {
  }

  lemma AddZero(v: Vec2)
    ensures Add(v, Zero) == v && Add(Zero, v) == v && Sub(v, Zero) == v
  {
  }

  lemma TimesZero(c: real)
    ensures Times(Zero, c) == Zero
  {
  }

  lemma NormSqNonNegative(v: Vec2)
    ensures 0.0 <= NormSq(v)
  {
    assert 0.0 <= v.x * v.x;
    assert 0.0 <= v.y * v.y;
  }
}
