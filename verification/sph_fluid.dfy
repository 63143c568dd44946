/** The physics of fluid_simulator.py written as functions of particle fields:
    the density sum over neighbours, the pressure and viscosity terms between
    two particles, the force loop over neighbours and the boundary bounce. */
module SphFluid {
  import opened Numerics
  import opened Plane
  import opened SphKernels
  import opened SphParticle
  import opened SphHash
  import opened SphHashProperties

  /** `np.linalg.norm(a - b)`. */
  function Dist(a: Vec2, b: Vec2, sqrt: real -> real): (r: real)
    requires IsSqrt(sqrt)
    ensures 0.0 <= r
  {
    NormSqNonNegative(Sub(a, b));
    sqrt(NormSq(Sub(a, b)))
  }

  // ---------------------------------------------------------------- density

  /** What one neighbour adds to the density at q: its mass times W(|q - position|);
      never negative for a non-negative mass. */
  function Contribution(q: Vec2, nb: Particle, h: real, sqrt: real -> real): (c: real)
    requires IsSqrt(sqrt)
    reads nb`position, nb`mass
    ensures 0.0 <= nb.mass ==> 0.0 <= c
    ensures 0.0 < nb.mass && Dist(q, nb.position, sqrt) < h ==> 0.0 < c
  {
    var w := Kernel(Dist(q, nb.position, sqrt), h);
    ProductSign(nb.mass, w);
    nb.mass * w
  }

  lemma ProductSign(a: real, b: real)
    ensures 0.0 <= a && 0.0 <= b ==> 0.0 <= a * b
    ensures 0.0 < a && 0.0 < b ==> 0.0 < a * b
  {
    if 0.0 <= a && 0.0 <= b {
      MulNonNegative(a, b);
    }
    if 0.0 < a && 0.0 < b {
      MulPositive(a, b);
    }
  }

  /** The neighbour loop of `_compute_density_pressure` for a particle at q:
      the contributions of the neighbours, summed in order. */
  function DensitySum(q: Vec2, nbs: seq<Particle>, h: real, sqrt: real -> real): real
    requires IsSqrt(sqrt)
    reads nbs`position, nbs`mass
    decreases |nbs|
  {
    if nbs == [] then 0.0
    else DensitySum(q, nbs[..|nbs| - 1], h, sqrt) + Contribution(q, nbs[|nbs| - 1], h, sqrt)
  }

  /** Non-negative masses give a non-negative density sum. */
  lemma {:induction false} DensityNonNegative(q: Vec2, nbs: seq<Particle>, h: real, sqrt: real -> real)
    requires IsSqrt(sqrt)
    requires forall i | 0 <= i < |nbs| :: 0.0 <= nbs[i].mass
    ensures 0.0 <= DensitySum(q, nbs, h, sqrt)
    decreases |nbs|
  {
    if nbs != [] {
      DensityNonNegative(q, nbs[..|nbs| - 1], h, sqrt);
    }
  }

  /** With non-negative masses the sum is at least any one neighbour's contribution. */
  lemma {:induction false} DensityAtLeastTerm(q: Vec2, nbs: seq<Particle>, h: real, sqrt: real -> real, k: nat)
    requires IsSqrt(sqrt) && k < |nbs|
    requires forall i | 0 <= i < |nbs| :: 0.0 <= nbs[i].mass
    ensures Contribution(q, nbs[k], h, sqrt) <= DensitySum(q, nbs, h, sqrt)
    decreases |nbs|
  {
    var n := |nbs| - 1;
    var init := nbs[..n];
    if k < n {
      DensityAtLeastTerm(q, init, h, sqrt, k);
      assert init[k] == nbs[k];
    } else {
      DensityNonNegative(q, init, h, sqrt);
    }
  }

  /** `particle.density` after `_compute_density_pressure`: the neighbour sum,
      raised to the rest density when it falls below it. */
  function Density(grid: map<Cell, seq<Particle>>, cellSize: real, q: Vec2, h: real, rest: real,
                   sqrt: real -> real): (d: real)
    requires 0.0 < cellSize && IsSqrt(sqrt)
    reads Stored(grid)`position, Stored(grid)`mass
    ensures rest <= d && DensitySum(q, Neighbours(grid, cellSize, q, h, sqrt), h, sqrt) <= d
    ensures d == rest || d == DensitySum(q, Neighbours(grid, cellSize, q, h, sqrt), h, sqrt)
  {
    NeighboursStored(grid, cellSize, q, h, sqrt);
    Max(DensitySum(q, Neighbours(grid, cellSize, q, h, sqrt), h, sqrt), rest)
  }

  /** `particle.pressure`: the gas constant times the excess over the rest
      density; never negative once the density has been floored at rest. */
  function Pressure(gas: real, density: real, rest: real): (p: real)
    ensures 0.0 <= gas && rest <= density ==> 0.0 <= p
    ensures density == rest ==> p == 0.0
  {
    ProductSign(gas, density - rest);
    gas * (density - rest)
  }

  /** With non-negative masses the sum is at least the contribution of any member. */
  lemma MemberContribution(q: Vec2, nbs: seq<Particle>, p: Particle, h: real, sqrt: real -> real)
    requires IsSqrt(sqrt) && p in nbs
    requires forall x | x in nbs :: 0.0 <= x.mass
    ensures Contribution(q, p, h, sqrt) <= DensitySum(q, nbs, h, sqrt)
  {
    var k := IndexOf(nbs, p);
    assert forall i | 0 <= i < |nbs| :: nbs[i] in nbs;
    DensityAtLeastTerm(q, nbs, h, sqrt, k);
  }

  lemma IndexOf(s: seq<Particle>, p: Particle) returns (k: nat)
    requires p in s
    ensures k < |s| && s[k] == p
  {
    k :| 0 <= k < |s| && s[k] == p;
  }

  /** A particle held in the hash counts itself: when the smoothing radius is at
      most the cell size, its density is at least its own contribution. */
  lemma DensityCountsSelf(grid: map<Cell, seq<Particle>>, cellSize: real, p: Particle, h: real, rest: real,
                          sqrt: real -> real)
    requires IsSqrt(sqrt) && 0.0 < h <= cellSize
    requires Indexed(grid, cellSize) && p in Stored(grid)
    requires forall x | x in Stored(grid) :: 0.0 <= x.mass
    ensures Contribution(p.position, p, h, sqrt) <= Density(grid, cellSize, p.position, h, rest, sqrt)
  {
    SelfAmongNeighbours(grid, cellSize, p, h, sqrt);
    NeighboursStored(grid, cellSize, p.position, h, sqrt);
    MemberContribution(p.position, Neighbours(grid, cellSize, p.position, h, sqrt), p, h, sqrt);
  }

  /** A particle's own contribution is positive for a positive mass. */
  lemma OwnContribution(p: Particle, h: real, sqrt: real -> real)
    requires IsSqrt(sqrt) && 0.0 < h && 0.0 < p.mass
    ensures 0.0 < Contribution(p.position, p, h, sqrt)
  {
    SelfWithin(p, h, sqrt);
    assert Dist(p.position, p.position, sqrt) == Distance(p, p.position, sqrt);
  }

  /** A particle held in the hash is among its own neighbours. */
  lemma SelfAmongNeighbours(grid: map<Cell, seq<Particle>>, cellSize: real, p: Particle, h: real,
                            sqrt: real -> real)
    requires IsSqrt(sqrt) && 0.0 < h <= cellSize
    requires Indexed(grid, cellSize) && p in Stored(grid)
    ensures p in Neighbours(grid, cellSize, p.position, h, sqrt)
  {
    SelfWithin(p, h, sqrt);
    NeighboursComplete(grid, cellSize, p.position, h, sqrt, p);
  }

  lemma SelfWithin(p: Particle, h: real, sqrt: real -> real)
    requires IsSqrt(sqrt) && 0.0 < h
    ensures Distance(p, p.position, sqrt) < h
  {
    assert NormSq(Sub(p.position, p.position)) == 0.0;
    SqrtOfZero(sqrt);
  }

  // ---------------------------------------------------------------- forces

  /** What neighbour b adds to `pressure_force` of particle a, which subtracts it:
      m_b * ((p_a + p_b) / (2 rho_b)) times the kernel gradient `grad`. */
  function PressureTerm(grad: Vec2, massB: real, pressA: real, pressB: real, densB: real): Vec2
    requires densB != 0.0
  {
    Scale(massB * ((pressA + pressB) / (2.0 * densB)), grad)
  }

  /** What neighbour b adds to `viscosity_force` of particle a:
      m_b * ((v_b - v_a) / rho_b) times the kernel Laplacian `lap`. */
  function ViscosityTerm(lap: real, massB: real, velA: Vec2, velB: Vec2, densB: real): Vec2
    requires densB != 0.0
  {
    Times(Scale(massB, Div(Sub(velB, velA), densB)), lap)
  }

  /** How hard neighbour b pushes a away. */
  function Repulsion(r: real, h: real, massB: real, pressA: real, pressB: real, densB: real): real
    requires 0.0 < r < h && densB != 0.0
  {
    massB * ((pressA + pressB) / (2.0 * densB)) * GradientFactor(r, h)
  }

  /** Pressure repels: with non-negative pressures, the pressure force a feels
      from b is a non-negative multiple of x_a - x_b. */
  lemma PressureRepels(rVec: Vec2, r: real, h: real, massB: real, pressA: real, pressB: real, densB: real)
    requires Epsilon <= r < h && 0.0 <= massB && 0.0 < densB && 0.0 <= pressA + pressB
    ensures 0.0 <= Repulsion(r, h, massB, pressA, pressB, densB)
    ensures Neg(PressureTerm(KernelGradient(rVec, r, h), massB, pressA, pressB, densB))
         == Scale(Repulsion(r, h, massB, pressA, pressB, densB), rVec)
  {
    GradientInward(rVec, r, h);
    var f := GradientFactor(r, h);
    var s := (pressA + pressB) / (2.0 * densB);
    assert 0.0 <= s;
    var c := massB * s;
    MulNonNegative(massB, s);
    MulNonNegative(c, f);
    assert PressureTerm(KernelGradient(rVec, r, h), massB, pressA, pressB, densB) == Scale(c, Scale(-f, rVec));
    assert -(c * (-f * rVec.x)) == c * f * rVec.x;
    assert -(c * (-f * rVec.y)) == c * f * rVec.y;
  }

  /** Action and reaction for pressure: when m_a / rho_a == m_b / rho_b, what b
      adds for a (gradient at x_a - x_b) is the opposite of what a adds for b
      (gradient at x_b - x_a). */
  lemma PressureReaction(rVec: Vec2, r: real, h: real, massA: real, massB: real, pressA: real, pressB: real,
                         densA: real, densB: real)
    requires 0.0 <= r && densA != 0.0 && densB != 0.0 && massA / densA == massB / densB
    ensures PressureTerm(KernelGradient(rVec, r, h), massB, pressA, pressB, densB)
         == Neg(PressureTerm(KernelGradient(Neg(rVec), r, h), massA, pressB, pressA, densA))
  {
    GradientOdd(rVec, r, h);
    OppositeTerms(KernelGradient(rVec, r, h), KernelGradient(Neg(rVec), r, h), massA, massB, pressA, pressB, densA, densB);
  }

  /** The pressure terms of the two particles of a pair, for opposite gradients. */
  lemma OppositeTerms(g: Vec2, n: Vec2, massA: real, massB: real, pressA: real, pressB: real, densA: real, densB: real)
    requires densA != 0.0 && densB != 0.0 && massA / densA == massB / densB && n == Neg(g)
    ensures PressureTerm(g, massB, pressA, pressB, densB) == Neg(PressureTerm(n, massA, pressB, pressA, densA))
  {
    SameCoefficient(massA, massB, pressA, pressB, densA, densB);
    OppositeScaled(massB * ((pressA + pressB) / (2.0 * densB)), massA * ((pressB + pressA) / (2.0 * densA)), g, n);
  }

  lemma SameCoefficient(massA: real, massB: real, pressA: real, pressB: real, densA: real, densB: real)
    requires densA != 0.0 && densB != 0.0 && massA / densA == massB / densB
    ensures massB * ((pressA + pressB) / (2.0 * densB)) == massA * ((pressB + pressA) / (2.0 * densA))
  {
    var sum := pressA + pressB;
    assert massB * (sum / (2.0 * densB)) == massB / densB * sum / 2.0;
    assert massA * (sum / (2.0 * densA)) == massA / densA * sum / 2.0;
  }

  lemma OppositeScaled(c: real, d: real, g: Vec2, n: Vec2)
    requires c == d && n == Neg(g)
    ensures Scale(c, g) == Neg(Scale(d, n))
  {
    assert -(c * -g.x) == c * g.x;
    assert -(c * -g.y) == c * g.y;
  }

  /** Action and reaction for viscosity, under the same condition: the Laplacian
      depends on the distance alone, so both particles of a pair use the same one. */
  lemma ViscosityReaction(lap: real, massA: real, massB: real, velA: Vec2, velB: Vec2, densA: real, densB: real)
    requires densA != 0.0 && densB != 0.0 && massA / densA == massB / densB
    ensures ViscosityTerm(lap, massB, velA, velB, densB) == Neg(ViscosityTerm(lap, massA, velB, velA, densA))
  {
    var k := massB / densB;
    assert massB * ((velB.x - velA.x) / densB) == k * (velB.x - velA.x);
    assert massB * ((velB.y - velA.y) / densB) == k * (velB.y - velA.y);
    assert massA * ((velA.x - velB.x) / densA) == k * (velA.x - velB.x);
    assert massA * ((velA.y - velB.y) / densA) == k * (velA.y - velB.y);
    assert k * (velB.x - velA.x) * lap == -(k * (velA.x - velB.x) * lap);
    assert k * (velB.y - velA.y) * lap == -(k * (velA.y - velB.y) * lap);
  }

  /** The two accumulators of `_compute_forces`. */
  datatype Forces = Forces(pressure: Vec2, viscosity: Vec2)

  /** The neighbour loop of `_compute_forces` for particle p: the particle itself
      and neighbours closer than 1e-6 are skipped; every other neighbour's
      pressure term is subtracted and its viscosity term added. */
  function PairForces(p: Particle, nbs: seq<Particle>, h: real, sqrt: real -> real): Forces
    requires IsSqrt(sqrt)
    requires forall i | 0 <= i < |nbs| :: nbs[i].density != 0.0
    reads p`position, p`pressure, p`velocity
    reads nbs`position, nbs`mass, nbs`pressure, nbs`density, nbs`velocity
    decreases |nbs|
  {
    if nbs == [] then Forces(Zero, Zero)
    else
      var acc := PairForces(p, nbs[..|nbs| - 1], h, sqrt);
      var nb := nbs[|nbs| - 1];
      if nb == p then acc
      else
        var rVec := Sub(p.position, nb.position);
        var r := Dist(p.position, nb.position, sqrt);
        if r < Epsilon then acc
        else
          Forces(Sub(acc.pressure, PressureTerm(KernelGradient(rVec, r, h), nb.mass, p.pressure, nb.pressure, nb.density)),
                 Add(acc.viscosity, ViscosityTerm(KernelLaplacian(r, h), nb.mass, p.velocity, nb.velocity, nb.density)))
  }

  /** `particle.force`: pressure force, plus the viscosity force scaled by the
      viscosity coefficient, plus mass times gravity. */
  function TotalForce(f: Forces, viscosity: real, mass: real, gravity: Vec2): Vec2 {
    Add(Add(f.pressure, Times(f.viscosity, viscosity)), Scale(mass, gravity))
  }

  /** A particle none of whose neighbours lies within (1e-6, h) of it, other
      than itself, feels gravity alone. */
  lemma IsolatedFeelsGravity(p: Particle, nbs: seq<Particle>, h: real, viscosity: real, gravity: Vec2,
                             sqrt: real -> real)
    requires IsSqrt(sqrt)
    requires forall i | 0 <= i < |nbs| :: nbs[i].density != 0.0
    requires forall i | 0 <= i < |nbs| ::
      nbs[i] == p || Dist(p.position, nbs[i].position, sqrt) < Epsilon || h <= Dist(p.position, nbs[i].position, sqrt)
    ensures PairForces(p, nbs, h, sqrt) == Forces(Zero, Zero)
    ensures TotalForce(PairForces(p, nbs, h, sqrt), viscosity, p.mass, gravity) == Scale(p.mass, gravity)
  {
    NoPairForces(p, nbs, h, sqrt);
    TimesZero(viscosity);
    AddZero(Zero);
    AddZero(Scale(p.mass, gravity));
  }

  lemma {:induction false} NoPairForces(p: Particle, nbs: seq<Particle>, h: real, sqrt: real -> real)
    requires IsSqrt(sqrt)
    requires forall i | 0 <= i < |nbs| :: nbs[i].density != 0.0
    requires forall i | 0 <= i < |nbs| ::
      nbs[i] == p || Dist(p.position, nbs[i].position, sqrt) < Epsilon || h <= Dist(p.position, nbs[i].position, sqrt)
    ensures PairForces(p, nbs, h, sqrt) == Forces(Zero, Zero)
    decreases |nbs|
  {
    if nbs != [] {
      var n := |nbs| - 1;
      NoPairForces(p, nbs[..n], h, sqrt);
      var nb := nbs[n];
      if nb != p && Epsilon <= Dist(p.position, nb.position, sqrt) {
        var r := Dist(p.position, nb.position, sqrt);
        var rVec := Sub(p.position, nb.position);
        FarTermsVanish(rVec, r, h, nb.mass, p.pressure, nb.pressure, nb.density, p.velocity, nb.velocity);
        AddZero(Zero);
      }
    }
  }

  /** Beyond the smoothing radius a neighbour adds nothing to either accumulator. */
  lemma FarTermsVanish(rVec: Vec2, r: real, h: real, massB: real, pressA: real, pressB: real, densB: real,
                       velA: Vec2, velB: Vec2)
    requires 0.0 <= r && h <= r && densB != 0.0
    ensures PressureTerm(KernelGradient(rVec, r, h), massB, pressA, pressB, densB) == Zero
    ensures ViscosityTerm(KernelLaplacian(r, h), massB, velA, velB, densB) == Zero
  {
    GradientCutOff(rVec, r, h);
  }

  /** `is` skips the particle itself: appending it to the neighbours changes nothing. */
  lemma SelfSkipped(p: Particle, nbs: seq<Particle>, h: real, sqrt: real -> real)
    requires IsSqrt(sqrt) && p.density != 0.0
    requires forall i | 0 <= i < |nbs| :: nbs[i].density != 0.0
    ensures PairForces(p, nbs + [p], h, sqrt) == PairForces(p, nbs, h, sqrt)
  {
    assert (nbs + [p])[..|nbs|] == nbs;
  }

  /** The force `_compute_forces` assigns to a particle at position q with the
      given fields, from the hash's neighbours. */
  function ForceOn(grid: map<Cell, seq<Particle>>, cellSize: real, p: Particle, h: real, viscosity: real,
                   gravity: Vec2, sqrt: real -> real): Vec2
    requires 0.0 < cellSize && IsSqrt(sqrt)
    requires forall x | x in Stored(grid) :: x.density != 0.0
    reads p`position, p`pressure, p`velocity, p`mass
    reads Stored(grid)`position, Stored(grid)`mass, Stored(grid)`pressure, Stored(grid)`density, Stored(grid)`velocity
  {
    NeighboursStored(grid, cellSize, p.position, h, sqrt);
    TotalForce(PairForces(p, Neighbours(grid, cellSize, p.position, h, sqrt), h, sqrt), viscosity, p.mass, gravity)
  }

  // ---------------------------------------------------------------- boundaries

  /** The factor of `_handle_boundaries`. */
  const Damping: real := 0.5

  function Abs(x: real): real { if x < 0.0 then -x else x }

  /** One coordinate and its velocity. */
  datatype Axis = Axis(pos: real, vel: real)

  /** One axis of `_handle_boundaries`: a coordinate below 0 is put on 0, then one
      above hi is put on hi, and each hit multiplies the velocity by -damping.
      Inside [0, hi] nothing changes; the result lies in [0, hi] when hi >= 0;
      the speed never grows. */
  function AxisBounce(pos: real, vel: real, hi: real): (a: Axis)
    ensures 0.0 <= hi ==> 0.0 <= a.pos <= hi
    ensures 0.0 <= pos <= hi ==> a == Axis(pos, vel)
    ensures 0.0 <= hi && pos < 0.0 ==> a == Axis(0.0, -Damping * vel)
    ensures 0.0 <= hi && hi < pos ==> a == Axis(hi, -Damping * vel)
    ensures Abs(a.vel) <= Abs(vel)
  {
    var low := if pos < 0.0 then Axis(0.0, vel * -Damping) else Axis(pos, vel);
    if low.pos > hi then Axis(hi, low.vel * -Damping) else low
  }

  predicate InBox(x: Vec2, width: real, height: real) {
    0.0 <= x.x <= width && 0.0 <= x.y <= height
  }

  /** A particle after `_handle_boundaries` (bottom, top, left, right). */
  function Bounced(s: PState, width: real, height: real): (b: PState)
    ensures 0.0 <= width && 0.0 <= height ==> InBox(b.position, width, height)
    ensures InBox(s.position, width, height) ==> b == s
    ensures b.mass == s.mass && b.density == s.density && b.pressure == s.pressure && b.force == s.force
    ensures Abs(b.velocity.x) <= Abs(s.velocity.x) && Abs(b.velocity.y) <= Abs(s.velocity.y)
    ensures 0.0 <= s.position.x <= width ==> b.position.x == s.position.x && b.velocity.x == s.velocity.x
    ensures 0.0 <= s.position.y <= height ==> b.position.y == s.position.y && b.velocity.y == s.velocity.y
    ensures 0.0 <= width && s.position.x < 0.0 ==> b.position.x == 0.0 && b.velocity.x == -Damping * s.velocity.x
    ensures 0.0 <= width && width < s.position.x ==> b.position.x == width && b.velocity.x == -Damping * s.velocity.x
    ensures 0.0 <= height && s.position.y < 0.0 ==> b.position.y == 0.0 && b.velocity.y == -Damping * s.velocity.y
    ensures 0.0 <= height && height < s.position.y ==> b.position.y == height && b.velocity.y == -Damping * s.velocity.y
  {
    var y := AxisBounce(s.position.y, s.velocity.y, height);
    var x := AxisBounce(s.position.x, s.velocity.x, width);
    s.(position := Vec2(x.pos, y.pos), velocity := Vec2(x.vel, y.vel))
  }

  /** Bouncing twice is bouncing once, in a box of non-negative size. */
  lemma BounceIdempotent(s: PState, width: real, height: real)
    requires 0.0 <= width && 0.0 <= height
    ensures Bounced(Bounced(s, width, height), width, height) == Bounced(s, width, height)
  {
  }
}
