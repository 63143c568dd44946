/** Properties of one `UpdateGrid` step (src/grid.cpp), proved about the
    functions of LatticePhysics that the imperative solver is proved to
    compute. */
module LatticeProperties {
  import opened Numerics
  import opened LatticePhysics

  // ---------------------------------------------------------------- phase 0

  /** Phase 0 sets every acceleration to exactly (0, -9.81, 0) and touches nothing else. */
  lemma ResetIsGravity(s: Snapshot, id: nat)
    requires WellFormed(s) && id < |s.pos|
    ensures WellFormed(ResetAccelerations(s))
    ensures ResetAccelerations(s).acc[id] == Vec3(0.0, -9.81, 0.0)
    ensures ResetAccelerations(s).(acc := s.acc) == s
  {
  }

  // ---------------------------------------------------------------- phase 1

  /** A sum over the other particles does not depend on the particle's own entry. */
  lemma {:induction false} SumOthersSkipsSelf(ws: seq<real>, id: nat, n: nat, w: real)
    requires n <= |ws| && id < |ws|
    ensures SumOthers(ws[id := w], id, n) == SumOthers(ws, id, n)
  {
    if n > 0 {
      SumOthersSkipsSelf(ws, id, n - 1, w);
    }
  }

  /** Non-negative weights have a non-negative sum, at most one per other particle. */
  lemma {:induction false} SumOthersBounds(ws: seq<real>, id: nat, n: nat)
    requires n <= |ws|
    requires forall m :: 0 <= m < |ws| ==> 0.0 <= ws[m] <= 1.0
    ensures 0.0 <= SumOthers(ws, id, n)
    ensures SumOthers(ws, id, n) <= (if id < n then n - 1 else n) as real
  {
    if n > 0 {
      SumOthersBounds(ws, id, n - 1);
    }
  }

  /** Weights strictly below 1 sum to strictly less than one per other
      particle, once there is another particle. */
  lemma {:induction false} SumOthersStrict(ws: seq<real>, id: nat, n: nat)
    requires n <= |ws|
    requires forall m :: 0 <= m < |ws| ==> 0.0 <= ws[m] < 1.0
    ensures var others := if id < n then n - 1 else n; others >= 1 ==> SumOthers(ws, id, n) < others as real
  {
    if n > 0 {
      SumOthersStrict(ws, id, n - 1);
      SumOthersBounds(ws, id, n - 1);
    }
  }

  /** Weights that are all zero sum to zero. */
  lemma {:induction false} SumOthersZero(ws: seq<real>, id: nat, n: nat)
    requires n <= |ws|
    requires forall m :: 0 <= m < |ws| && m != id ==> ws[m] == 0.0
    ensures SumOthers(ws, id, n) == 0.0
  {
    if n > 0 {
      SumOthersZero(ws, id, n - 1);
    }
  }

  /** At squared distance r2, the weight is strictly between 0 and 1 when
      0 < r2 < h^2, and 0 otherwise. */
  lemma WeightAtRange(r2: real, sqrt: real -> real)
    requires IsSqrt(sqrt)
    ensures 0.0 <= WeightAt(r2, sqrt) < 1.0
    ensures 0.0 < r2 < H * H <==> 0.0 < WeightAt(r2, sqrt)
  {
    if r2 > 0.0 && r2 < H * H {
      SqrtPositive(sqrt, r2);
      SqrtBelow(sqrt, r2, H);
      UnitSquare(1.0 - sqrt(r2) / H);
    }
  }

  /** A particle inside the action radius weighs strictly between 0 and 1; any
      other particle, including one at the same place, weighs 0. */
  lemma WeightRange(a: Vec3, b: Vec3, sqrt: real -> real)
    requires IsSqrt(sqrt)
    ensures 0.0 <= Weight(a, b, sqrt) < 1.0
    ensures 0.0 < NormSq(Sub(a, b)) < H * H <==> 0.0 < Weight(a, b, sqrt)
  {
    WeightAtRange(NormSq(Sub(a, b)), sqrt);
  }

  /** Phase 1 densities are non-negative and below the number of other particles. */
  lemma DensityBounds(pos: seq<Vec3>, id: nat, sqrt: real -> real)
    requires IsSqrt(sqrt) && id < |pos|
    ensures 0.0 <= Density(pos, id, sqrt) <= (|pos| - 1) as real
  {
    var ws := Weights(pos, id, sqrt);
    forall m | 0 <= m < |ws|
      ensures 0.0 <= ws[m] <= 1.0
    {
      WeightRange(pos[id], pos[m], sqrt);
    }
    SumOthersBounds(ws, id, |pos|);
  }

  /** With at least two particles, a density stays strictly below the number of
      other particles, since each weight is below 1. */
  lemma DensityStrict(pos: seq<Vec3>, id: nat, sqrt: real -> real)
    requires IsSqrt(sqrt) && id < |pos| && 2 <= |pos|
    ensures Density(pos, id, sqrt) < (|pos| - 1) as real
  {
    var ws := Weights(pos, id, sqrt);
    forall m | 0 <= m < |ws|
      ensures 0.0 <= ws[m] < 1.0
    {
      WeightRange(pos[id], pos[m], sqrt);
    }
    SumOthersStrict(ws, id, |pos|);
  }

  /** A particle with no other particle strictly inside its action radius gets density 0. */
  lemma IsolatedDensity(pos: seq<Vec3>, id: nat, sqrt: real -> real)
    requires IsSqrt(sqrt) && id < |pos|
    requires forall m :: 0 <= m < |pos| && m != id ==> NormSq(Sub(pos[id], pos[m])) >= H * H
    ensures Density(pos, id, sqrt) == 0.0
  {
    var ws := Weights(pos, id, sqrt);
    forall m | 0 <= m < |ws| && m != id
      ensures ws[m] == 0.0
    {
      WeightRange(pos[id], pos[m], sqrt);
    }
    SumOthersZero(ws, id, |pos|);
  }

  /** Moving a particle changes nothing in its own density: it is not its own neighbour. */
  lemma DensitySkipsSelf(pos: seq<Vec3>, id: nat, p: Vec3, sqrt: real -> real)
    requires id < |pos|
    requires forall m :: 0 <= m < |pos| && m != id ==> Weight(p, pos[m], sqrt) == Weight(pos[id], pos[m], sqrt)
    ensures Density(pos[id := p], id, sqrt) == Density(pos, id, sqrt)
  {
    var ws := Weights(pos, id, sqrt);
    var ws' := Weights(pos[id := p], id, sqrt);
    assert ws' == ws[id := ws'[id]];
    SumOthersSkipsSelf(ws, id, |pos|, ws'[id]);
  }

  // ---------------------------------------------------------------- phase 2

  /** Swapping the two particles negates their separation and keeps its length. */
  lemma SeparationFlips(a: Vec3, b: Vec3)
    ensures Sub(b, a) == Neg(Sub(a, b))
    ensures NormSq(Sub(a, b)) == NormSq(Sub(b, a))
  {
    var d := Sub(a, b);
    assert (-d.x) * (-d.x) == d.x * d.x && (-d.y) * (-d.y) == d.y * d.y && (-d.z) * (-d.z) == d.z * d.z;
  }

  lemma NegNeg(v: Vec3)
    ensures Neg(Neg(v)) == v
  {
  }

  lemma NegZero()
    ensures Neg(Zero) == Zero
  {
  }

  lemma AddZero()
    ensures Add(Zero, Zero) == Zero
  {
  }

  lemma NegAdd(a: Vec3, b: Vec3)
    ensures Neg(Add(a, b)) == Add(Neg(a), Neg(b))
  {
  }

  /** The direction of the opposite separation is the opposite direction. */
  lemma UnitFlips(d: Vec3, r: real)
    requires r != 0.0
    ensures Unit(Neg(d), r) == Neg(Unit(d, r))
  {
    assert -d.x / r == -(d.x / r) && -d.y / r == -(d.y / r) && -d.z / r == -(d.z / r);
  }

  lemma ScaleFlips(f: real, u: Vec3)
    ensures Scale(f, Neg(u)) == Neg(Scale(f, u))
  {
    assert f * -u.x == -(f * u.x) && f * -u.y == -(f * u.y) && f * -u.z == -(f * u.z);
  }

  lemma DragFlips(dv: Vec3, q: real)
    ensures Drag(Neg(dv), q) == Neg(Drag(dv, q))
  {
    assert Nu * -dv.x * q == -(Nu * dv.x * q);
    assert Nu * -dv.y * q == -(Nu * dv.y * q);
    assert Nu * -dv.z * q == -(Nu * dv.z * q);
  }

  /** The pressure factor -0.5 (pA + pB) q does not depend on which particle is A. */
  lemma PressureFactorSymmetric(pA: real, pB: real, q: real)
    ensures -0.5 * (pB + pA) * q == -0.5 * (pA + pB) * q
  {
  }

  /** The pressure push of b on a is the exact opposite of the push of a on b:
      the scalar -0.5 (pA + pB) q is symmetric and the direction flips. */
  lemma PressureAntisymmetric(pa: Vec3, pb: Vec3, pA: real, pB: real, sqrt: real -> real)
    ensures PressureTerm(pa, pb, pA, pB, sqrt) == Neg(PressureTerm(pb, pa, pB, pA, sqrt))
  {
    SeparationFlips(pb, pa);
    var d := Sub(pb, pa);
    var r := sqrt(NormSq(d));
    assert r == sqrt(NormSq(Sub(pa, pb)));
    if !(r <= 0.0 || r > H) {
      var q := 1.0 - r / H;
      var f := -0.5 * (pA + pB) * q;
      PressureFactorSymmetric(pA, pB, q);
      assert PressureTerm(pa, pb, pA, pB, sqrt) == Scale(f, Unit(d, r));
      assert PressureTerm(pb, pa, pB, pA, sqrt) == Scale(-0.5 * (pB + pA) * q, Unit(Sub(pa, pb), r));
      UnitFlips(d, r);
      ScaleFlips(f, Unit(d, r));
      NegNeg(Scale(f, Unit(d, r)));
    } else {
      assert PressureTerm(pa, pb, pA, pB, sqrt) == Zero;
      assert PressureTerm(pb, pa, pB, pA, sqrt) == Zero;
      NegZero();
    }
  }

  /** The viscosity pull of b on a is the exact opposite of the pull of a on b. */
  lemma ViscosityAntisymmetric(pa: Vec3, pb: Vec3, va: Vec3, vb: Vec3, sqrt: real -> real)
    ensures ViscosityTerm(pa, pb, va, vb, sqrt) == Neg(ViscosityTerm(pb, pa, vb, va, sqrt))
  {
    SeparationFlips(pb, pa);
    SeparationFlips(vb, va);
    var r := sqrt(NormSq(Sub(pb, pa)));
    assert r == sqrt(NormSq(Sub(pa, pb)));
    if !(r <= 0.0 || r > H) {
      var q := 1.0 - r / H;
      DragFlips(Sub(vb, va), q);
      assert ViscosityTerm(pa, pb, va, vb, sqrt) == Drag(Sub(vb, va), q);
      assert ViscosityTerm(pb, pa, vb, va, sqrt) == Drag(Sub(va, vb), q);
      NegNeg(Drag(Sub(vb, va), q));
    } else {
      assert ViscosityTerm(pa, pb, va, vb, sqrt) == Zero;
      assert ViscosityTerm(pb, pa, vb, va, sqrt) == Zero;
      NegZero();
    }
  }

  /** Pair interactions come in equal and opposite pairs. */
  lemma PairAntisymmetric(pa: Vec3, pb: Vec3, va: Vec3, vb: Vec3, pA: real, pB: real, sqrt: real -> real)
    ensures PairTerm(pa, pb, va, vb, pA, pB, sqrt) == Neg(PairTerm(pb, pa, vb, va, pB, pA, sqrt))
  {
    PressureAntisymmetric(pa, pb, pA, pB, sqrt);
    ViscosityAntisymmetric(pa, pb, va, vb, sqrt);
    NegAdd(PressureTerm(pb, pa, pB, pA, sqrt), ViscosityTerm(pb, pa, vb, va, sqrt));
  }

  /** A squared distance of 0 or beyond h^2 has its square root outside (0, h]. */
  lemma OutsideRadius(r2: real, sqrt: real -> real)
    requires IsSqrt(sqrt) && (r2 == 0.0 || r2 > H * H)
    ensures sqrt(r2) <= 0.0 || sqrt(r2) > H
  {
    if r2 == 0.0 {
      SqrtOfZero(sqrt);
    } else {
      var r := sqrt(r2);
      assert 0.0 <= r && r * r == r2;
      if r <= H {
        SquareMono(r, H);
      }
    }
  }

  lemma NormSqZero()
    ensures NormSq(Zero) == 0.0
  {
  }

  /** A particle farther than h, or at the same place, adds nothing. */
  lemma PairCutOff(pa: Vec3, pb: Vec3, va: Vec3, vb: Vec3, pA: real, pB: real, sqrt: real -> real)
    requires IsSqrt(sqrt)
    requires NormSq(Sub(pb, pa)) > H * H || pa == pb
    ensures PairTerm(pa, pb, va, vb, pA, pB, sqrt) == Zero
  {
    var r2 := NormSq(Sub(pb, pa));
    if pa == pb {
      assert Sub(pb, pa) == Zero;
      NormSqZero();
    }
    OutsideRadius(r2, sqrt);
    TermsVanish(pa, pb, va, vb, pA, pB, sqrt);
    AddZero();
  }

  /** Both pair terms vanish when the separation length is outside (0, h]. */
  lemma TermsVanish(pa: Vec3, pb: Vec3, va: Vec3, vb: Vec3, pA: real, pB: real, sqrt: real -> real)
    requires sqrt(NormSq(Sub(pb, pa))) <= 0.0 || sqrt(NormSq(Sub(pb, pa))) > H
    ensures PressureTerm(pa, pb, pA, pB, sqrt) == Zero
    ensures ViscosityTerm(pa, pb, va, vb, sqrt) == Zero
  {
  }

  /** The pair sum of phase 2 does not depend on the particle's own term. */
  lemma {:induction false} SumExceptSkipsSelf(ts: seq<Vec3>, id: nat, n: nat, t: Vec3)
    requires n <= |ts| && id < |ts|
    ensures SumExcept(ts[id := t], id, n) == SumExcept(ts, id, n)
  {
    if n > 0 {
      SumExceptSkipsSelf(ts, id, n - 1, t);
    }
  }

  /** A particle clear of every wall by its radius, with no other particle
      within h, keeps exactly its reset acceleration. */
  lemma FreeParticle(s: Snapshot, id: nat, sqrt: real -> real)
    requires IsSqrt(sqrt) && WellFormed(s) && id < |s.pos|
    requires forall m :: 0 <= m < |s.pos| && m != id ==> NormSq(Sub(s.pos[m], s.pos[id])) > H * H
    requires MinX + Radius <= s.pos[id].x <= MaxX - Radius
    requires MinY + Radius <= s.pos[id].y <= MaxY - Radius
    requires MinZ + Radius <= s.pos[id].z <= MaxZ - Radius
    ensures AccelOf(s, id, sqrt) == s.acc[id]
  {
    var ts := PairTerms(s.pos, s.vel, s.density, id, RestDensity(|s.pos|), sqrt);
    forall m | 0 <= m < |ts| && m != id
      ensures ts[m] == Zero
    {
      PairCutOff(s.pos[id], s.pos[m], s.vel[id], s.vel[m],
                 Pressure(s.density[id], RestDensity(|s.pos|)), Pressure(s.density[m], RestDensity(|s.pos|)), sqrt);
    }
    SumExceptZero(ts, id, |ts|);
  }

  /** Terms that are all zero sum to zero. */
  lemma {:induction false} SumExceptZero(ts: seq<Vec3>, id: nat, n: nat)
    requires n <= |ts|
    requires forall m :: 0 <= m < |ts| && m != id ==> ts[m] == Zero
    ensures SumExcept(ts, id, n) == Zero
  {
    if n > 0 {
      SumExceptZero(ts, id, n - 1);
    }
  }

  // ---------------------------------------------------------------- colours

  /** The gradient of a value in [0, 1] is a colour with every channel in [0, 1]. */
  lemma GradientInRange(t: real)
    requires 0.0 <= t <= 1.0
    ensures 0.0 <= Gradient(t).x <= 1.0 && 0.0 <= Gradient(t).y <= 0.2 && 0.0 <= Gradient(t).z <= 1.0
    ensures Gradient(t).x + Gradient(t).z == 1.0
  {
  }

  /** Zero pressure is drawn at the middle of the gradient, (0.5, 0.1, 0.5). */
  lemma PressureColourAtZero(restDensity: real)
    requires restDensity > 0.0
    ensures PressureColour(0.0, restDensity) == Vec3(0.5, 0.1, 0.5)
  {
    assert (0.0 - (-restDensity)) / (restDensity * 2.0) == 0.5;
  }

  /** The speed colour is the gradient of min(|v| / 15, 1), a value in [0, 1]. */
  lemma SpeedColourInRange(v: Vec3, sqrt: real -> real)
    requires IsSqrt(sqrt)
    ensures exists t :: 0.0 <= t <= 1.0 && SpeedColour(v, sqrt) == Gradient(t)
  {
    var n := NormSq(v);
    assert 0.0 <= n;
    var t := Min(sqrt(n) / SpeedScale, 1.0);
    assert 0.0 <= sqrt(n);
    assert 0.0 <= t <= 1.0 && SpeedColour(v, sqrt) == Gradient(t);
  }

  // ---------------------------------------------------------------- phase 3

  /** While no clamp fires, the velocity is updated first and the position moves
      with the new velocity. */
  lemma SemiImplicitEuler(p: Vec3, v: Vec3, a: Vec3, dt: real)
    requires InBox(Add(p, Scale(dt, Add(v, Scale(dt, a)))))
    ensures IntegrateOne(p, v, a, dt).1 == Add(v, Scale(dt, a))
    ensures IntegrateOne(p, v, a, dt).0 == Add(p, Scale(dt, IntegrateOne(p, v, a, dt).1))
  {
  }

  /** After phase 3 every particle is inside the clamp box, and the velocity
      component of an axis is reflected and damped exactly when that axis was
      clamped; the other components are left alone. */
  lemma ClampReflects(p: Vec3, v: Vec3, a: Vec3, dt: real)
    ensures InBox(IntegrateOne(p, v, a, dt).0)
    ensures var v1 := Add(v, Scale(dt, a)); var p1 := Add(p, Scale(dt, v1)); var r := IntegrateOne(p, v, a, dt).1;
      r.x == (if MinX + Epsilon <= p1.x <= MaxX - Epsilon then v1.x else -v1.x * WallDamping) &&
      r.y == (if MinY + Epsilon <= p1.y <= MaxY - Epsilon then v1.y else -v1.y * WallDamping) &&
      r.z == (if MinZ + Epsilon <= p1.z <= MaxZ - Epsilon then v1.z else -v1.z * WallDamping)
  {
  }

  // ---------------------------------------------------------------- whole step

  /** A step keeps the number of particles, and leaves every particle inside the clamp box. */
  lemma StepInBox(s: Snapshot, dt: real, pressure: bool, speed: bool, sqrt: real -> real)
    requires WellFormed(s)
    ensures WellFormed(Step(s, dt, pressure, speed, sqrt)) && |Step(s, dt, pressure, speed, sqrt).pos| == |s.pos|
    ensures forall id :: 0 <= id < |s.pos| ==> InBox(Step(s, dt, pressure, speed, sqrt).pos[id])
  {
    var t := ComputeForces(ComputeDensities(ResetAccelerations(s), sqrt), pressure, speed, sqrt);
    forall id | 0 <= id < |s.pos|
      ensures InBox(Step(s, dt, pressure, speed, sqrt).pos[id])
    {
      ClampReflects(t.pos[id], t.vel[id], t.acc[id], dt);
    }
  }

  /** The colour a step leaves: the speed colour when speed mode is on (even
      if pressure mode is on too), else the pressure colour, else blue. */
  lemma StepColour(s: Snapshot, dt: real, pressure: bool, speed: bool, sqrt: real -> real, id: nat)
    requires WellFormed(s) && 0 < |s.pos| && id < |s.pos|
    ensures var r := Step(s, dt, pressure, speed, sqrt);
      |r.colour| == |s.pos| &&
      r.colour[id] ==
        if speed then SpeedColour(r.vel[id], sqrt)
        else if pressure then PressureColour(Pressure(Density(s.pos, id, sqrt), RestDensity(|s.pos|)), RestDensity(|s.pos|))
        else Blue
  {
    var n := |s.pos|;
    assert RestDensity(n) > 0.0;
  }

  /** Particles of the same snapshot that are clear of each other and of the
      walls, and at rest, follow only gravity for one step: with dt the step
      length, their velocity becomes dt * g along y. */
  lemma StepFreeFall(s: Snapshot, dt: real, pressure: bool, speed: bool, sqrt: real -> real, id: nat)
    requires IsSqrt(sqrt) && WellFormed(s) && id < |s.pos|
    requires forall m :: 0 <= m < |s.pos| && m != id ==> NormSq(Sub(s.pos[m], s.pos[id])) > H * H
    requires MinX + Radius <= s.pos[id].x <= MaxX - Radius
    requires MinY + Radius <= s.pos[id].y <= MaxY - Radius
    requires MinZ + Radius <= s.pos[id].z <= MaxZ - Radius
    requires s.vel[id] == Zero
    requires InBox(Add(s.pos[id], Scale(dt, Scale(dt, Gravity))))
    ensures Step(s, dt, pressure, speed, sqrt).vel[id] == Vec3(0.0, dt * G, 0.0)
  {
    var s1 := ComputeDensities(ResetAccelerations(s), sqrt);
    FreeParticle(s1, id, sqrt);
    var t := ComputeForces(s1, pressure, speed, sqrt);
    assert t.acc[id] == Gravity;
    assert Add(Zero, Scale(dt, Gravity)) == Scale(dt, Gravity);
    SemiImplicitEuler(t.pos[id], t.vel[id], t.acc[id], dt);
  }

  // ---------------------------------------------------------------- diagnostics

  /** The mean of velocities that are all zero is zero. */
  lemma {:induction false} SumUpToZero(vs: seq<Vec3>, n: nat)
    requires n <= |vs| && forall m :: 0 <= m < |vs| ==> vs[m] == Zero
    ensures SumUpTo(vs, n) == Zero
  {
    if n > 0 {
      SumUpToZero(vs, n - 1);
    }
  }

  lemma MeanOfRest(vs: seq<Vec3>)
    requires |vs| > 0 && forall m :: 0 <= m < |vs| ==> vs[m] == Zero
    ensures Mean(vs) == Zero
  {
    SumUpToZero(vs, |vs|);
    ZeroOver(|vs| as real);
  }

  lemma ZeroOver(n: real)
    requires n != 0.0
    ensures 0.0 / n == 0.0
  {
  }
}
