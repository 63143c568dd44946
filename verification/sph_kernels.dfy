/** The three smoothing kernels of fluid_simulator.py: Poly6 for density,
    the Spiky gradient for pressure and the viscosity Laplacian.  `**` is
    `Pow`; pi is the double closest to it, as numpy's `np.pi` is. */
module SphKernels {
  import opened Numerics
  import opened Plane

  const Pi: real := 3.141592653589793

  /** Below this distance two particles count as coincident. */
  const Epsilon: real := 0.000001

  /** `x ** n` for a natural exponent. */
  function Pow(x: real, n: nat): real {
    if n == 0 then 1.0 else x * Pow(x, n - 1)
  }

  lemma MulPositive(a: real, b: real)
    requires 0.0 < a && 0.0 < b
    ensures 0.0 < a * b
  {
  }

  lemma {:induction false} PowPositive(x: real, n: nat)
    requires 0.0 < x
    ensures 0.0 < Pow(x, n)
  {
    if n > 0 {
      PowPositive(x, n - 1);
      MulPositive(x, Pow(x, n - 1));
    }
  }

  lemma PowTwo(x: real)
    ensures Pow(x, 2) == x * x
  {
    assert Pow(x, 1) == x;
  }

  /** For 0 <= r < h, h^2 - r^2 is positive. */
  lemma GapPositive(r: real, h: real)
    requires 0.0 <= r < h
    ensures 0.0 < Pow(h, 2) - Pow(r, 2)
  {
    PowTwo(h);
    PowTwo(r);
    SquareStrictMono(r, h);
  }

  /** `_kernel(r, h)`, the Poly6 kernel: 315 / (64 pi h^9) * (h^2 - r^2)^3 inside
      the smoothing radius, 0 from h on; positive inside. */
  function Kernel(r: real, h: real): (w: real)
    requires 0.0 <= r
    ensures h <= r ==> w == 0.0
    ensures r < h ==> 0.0 < w
  {
    if r >= h then 0.0
    else
      PowPositive(h, 9);
      GapPositive(r, h);
      PowPositive(Pow(h, 2) - Pow(r, 2), 3);
      var coeff := 315.0 / (64.0 * Pi * Pow(h, 9));
      MulPositive(coeff, Pow(Pow(h, 2) - Pow(r, 2), 3));
      coeff * Pow(Pow(h, 2) - Pow(r, 2), 3)
  }

  /** `_kernel_gradient(r_vec, r, h)`, the Spiky gradient: the zero vector from h
      on and for coincident particles (r < 1e-6), else
      -45 / (pi h^6) * (h - r)^2 * r_vec / r. */
  function KernelGradient(rVec: Vec2, r: real, h: real): Vec2
    requires 0.0 <= r
  {
    if r >= h || r < Epsilon then Zero
    else
      PowPositive(h, 6);
      var coeff := -45.0 / (Pi * Pow(h, 6));
      Div(Times(rVec, coeff * Pow(h - r, 2)), r)
  }

  /** How strongly the gradient pulls back along r_vec: 45 / (pi h^6) * (h - r)^2 / r. */
  function GradientFactor(r: real, h: real): real
    requires 0.0 < r < h
  {
    PowPositive(h, 6);
    45.0 / (Pi * Pow(h, 6)) * Pow(h - r, 2) / r
  }

  /** Inside the radius the gradient is a positive multiple of -r_vec: it points
      from the particle back toward its neighbour. */
  lemma GradientInward(rVec: Vec2, r: real, h: real)
    requires Epsilon <= r < h
    ensures 0.0 < GradientFactor(r, h)
    ensures KernelGradient(rVec, r, h) == Scale(-GradientFactor(r, h), rVec)
  {
    PowPositive(h, 6);
    PowPositive(h - r, 2);
    var c := 45.0 / (Pi * Pow(h, 6));
    var p := Pow(h - r, 2);
    MulPositive(c, p);
    assert 0.0 < c * p / r;
    assert rVec.x * (-c * p) / r == -(c * p / r) * rVec.x;
    assert rVec.y * (-c * p) / r == -(c * p / r) * rVec.y;
  }

  /** The gradient vanishes outside the radius and for coincident particles. */
  lemma GradientCutOff(rVec: Vec2, r: real, h: real)
    requires 0.0 <= r && (h <= r || r < Epsilon)
    ensures KernelGradient(rVec, r, h) == Zero
  {
  }

  /** Reversing r_vec reverses the gradient. */
  lemma GradientOdd(rVec: Vec2, r: real, h: real)
    requires 0.0 <= r
    ensures KernelGradient(Neg(rVec), r, h) == Neg(KernelGradient(rVec, r, h))
  {
    if !(r >= h || r < Epsilon) {
      PowPositive(h, 6);
      var m := -45.0 / (Pi * Pow(h, 6)) * Pow(h - r, 2);
      assert KernelGradient(rVec, r, h) == Div(Times(rVec, m), r);
      assert KernelGradient(Neg(rVec), r, h) == Div(Times(Neg(rVec), m), r);
      ReverseScaled(rVec, m, r);
    } else {
      assert KernelGradient(rVec, r, h) == Zero;
      assert KernelGradient(Neg(rVec), r, h) == Zero;
      NegZero();
    }
  }

  lemma ReverseScaled(v: Vec2, m: real, r: real)
    requires r != 0.0
    ensures Div(Times(Neg(v), m), r) == Neg(Div(Times(v, m), r))
  {
    assert -v.x * m / r == -(v.x * m / r);
    assert -v.y * m / r == -(v.y * m / r);
  }

  /** `_kernel_laplacian(r, h)`: 45 / (pi h^6) * (h - r) inside the radius, 0 from
      h on; positive inside. */
  function KernelLaplacian(r: real, h: real): (l: real)
    requires 0.0 <= r
    ensures h <= r ==> l == 0.0
    ensures r < h ==> 0.0 < l
  {
    if r >= h then 0.0
    else
      PowPositive(h, 6);
      var coeff := 45.0 / (Pi * Pow(h, 6));
      MulPositive(coeff, h - r);
      coeff * (h - r)
  }
}
