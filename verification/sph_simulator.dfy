/** `FluidSimulator` of fluid_simulator.py: the particle list, the SPH parameters,
    the spatial hash, and the phases of one time step, each updating the
    particles in place. */
module SphSimulator {
  import opened Numerics
  import opened Plane
  import opened SphKernels
  import opened SphParticle
  import opened SphHash
  import opened SphHashProperties
  import opened SphFluid

  class FluidSimulator {
    var width: real
    var height: real
    var particles: seq<Particle>
    var smoothingRadius: real
    var restDensity: real
    var gasConstant: real
    var viscosity: real
    var gravity: Vec2
    const spatialHash: SpatialHash
    var dt: real

    /** The particle list holds each particle once, the hash has a positive
        cell size, and the hash holds only particles of the list (the list only
        grows, and every rebuild inserts exactly the list). */
    ghost predicate Valid()
      reads this, spatialHash
    {
      && Distinct(particles)
      && 0.0 < spatialHash.cellSize
      && forall x | x in Stored(spatialHash.grid) :: x in particles
    }

    /** `FluidSimulator(width, height)`: no particles, the default parameters,
        and a hash whose cell size is the initial smoothing radius. */
    constructor (width: real, height: real)
      ensures Valid() && fresh(spatialHash)
      ensures this.width == width && this.height == height && particles == []
      ensures smoothingRadius == 0.5 && restDensity == 1000.0 && gasConstant == 2000.0
      ensures viscosity == 0.018 && gravity == Vec2(0.0, -9.81) && dt == 0.001
      ensures spatialHash.cellSize == 0.5 && spatialHash.grid == map[]
    {
      this.width := width;
      this.height := height;
      particles := [];
      smoothingRadius := 0.5;
      restDensity := 1000.0;
      gasConstant := 2000.0;
      viscosity := 0.018;
      gravity := Vec2(0.0, -9.81);
      spatialHash := new SpatialHash(0.5);
      dt := 0.001;
    }

    /** `add_particle(position, velocity, mass)`: a new particle at the end of the list. */
    method AddParticle(position: Vec2, velocity: Vec2, mass: real)
      requires Valid()
      modifies this
      ensures Valid()
      ensures |particles| == |old(particles)| + 1 && particles[..|old(particles)|] == old(particles)
      ensures fresh(particles[|old(particles)|])
      ensures particles[|old(particles)|].State() == PState(position, velocity, mass, 0.0, 0.0, Zero)
      ensures width == old(width) && height == old(height) && smoothingRadius == old(smoothingRadius)
      ensures restDensity == old(restDensity) && gasConstant == old(gasConstant)
      ensures viscosity == old(viscosity) && gravity == old(gravity) && dt == old(dt)
    {
      var particle := new Particle(position, velocity, mass);
      particles := particles + [particle];
    }

    /** The first lines of `step()`: clear the hash and insert every particle,
        in list order. */
    method RebuildHash()
      requires Valid()
      modifies spatialHash
      ensures Valid() && spatialHash.cellSize == old(spatialHash.cellSize)
      ensures spatialHash.grid == old(Built(particles, spatialHash.cellSize))
    {
      spatialHash.Clear();
      var i := 0;
      while i < |particles|
        invariant 0 <= i <= |particles|
        invariant spatialHash.cellSize == old(spatialHash.cellSize)
        invariant spatialHash.grid == Built(particles[..i], spatialHash.cellSize)
      {
        assert particles[..i + 1][..i] == particles[..i];
        spatialHash.Insert(particles[i]);
        i := i + 1;
      }
      assert particles[..i] == particles;
      BuiltProperties(particles, spatialHash.cellSize);
    }

    /** The density `_compute_density_pressure()` gives a particle at q: the
        sum over the hash's neighbours, floored at the rest density. */
    method FlooredDensity(q: Vec2, sqrt: real -> real) returns (density: real)
      requires Valid() && IsSqrt(sqrt)
      ensures density == Density(spatialHash.grid, spatialHash.cellSize, q, smoothingRadius, restDensity, sqrt)
    {
      var neighbors := spatialHash.GetNeighbors(q, smoothingRadius, sqrt);
      var sum := SumDensity(q, neighbors, smoothingRadius, sqrt);
      density := Max(sum, restDensity);
    }

    /** `_compute_density_pressure()`: every particle's density is the floored
        neighbour sum of Density, and its pressure the matching Pressure. */
    method ComputeDensityPressure(sqrt: real -> real)
      requires Valid() && IsSqrt(sqrt)
      modifies particles`density, particles`pressure
      ensures forall i | 0 <= i < |particles| ::
        particles[i].density
          == old(Density(spatialHash.grid, spatialHash.cellSize, particles[i].position, smoothingRadius, restDensity, sqrt))
      ensures forall i | 0 <= i < |particles| ::
        particles[i].pressure == Pressure(gasConstant, particles[i].density, restDensity)
    {
      var j := 0;
      while j < |particles|
        invariant 0 <= j <= |particles| && Valid()
        invariant forall i | 0 <= i < j ::
          particles[i].density
            == old(Density(spatialHash.grid, spatialHash.cellSize, particles[i].position, smoothingRadius, restDensity, sqrt))
        invariant forall i | 0 <= i < j ::
          particles[i].pressure == Pressure(gasConstant, particles[i].density, restDensity)
      {
        var particle := particles[j];
        var density := FlooredDensity(particle.position, sqrt);
        assert density
            == old(Density(spatialHash.grid, spatialHash.cellSize, particle.position, smoothingRadius, restDensity, sqrt));
        particle.density := density;
        particle.pressure := Pressure(gasConstant, density, restDensity);
        j := j + 1;
      }
    }

    /** The force `_compute_forces()` gives one particle: the pair sums over the
        hash's neighbours, the viscosity sum scaled by the viscosity, and gravity
        times the mass. */
    method ParticleForce(particle: Particle, sqrt: real -> real) returns (force: Vec2)
      requires Valid() && IsSqrt(sqrt)
      requires forall i | 0 <= i < |particles| :: particles[i].density != 0.0
      ensures force == ForceOn(spatialHash.grid, spatialHash.cellSize, particle, smoothingRadius, viscosity, gravity, sqrt)
    {
      assert forall x | x in Stored(spatialHash.grid) :: x.density != 0.0;
      var neighbors := spatialHash.GetNeighbors(particle.position, smoothingRadius, sqrt);
      NeighboursStored(spatialHash.grid, spatialHash.cellSize, particle.position, smoothingRadius, sqrt);
      assert forall i | 0 <= i < |neighbors| :: neighbors[i] in Stored(spatialHash.grid);
      var pressureForce, viscosityForce := SumForces(particle, neighbors, smoothingRadius, sqrt);
      viscosityForce := Times(viscosityForce, viscosity);
      force := Add(Add(pressureForce, viscosityForce), Scale(particle.mass, gravity));
    }

    /** `_compute_forces()`: every particle's force is ForceOn, from the
        positions, velocities, pressures and densities it starts from. */
    method ComputeForces(sqrt: real -> real)
      requires Valid() && IsSqrt(sqrt)
      requires forall i | 0 <= i < |particles| :: particles[i].density != 0.0
      modifies particles`force
      ensures forall i | 0 <= i < |particles| ::
        particles[i].force
          == old(ForceOn(spatialHash.grid, spatialHash.cellSize, particles[i], smoothingRadius, viscosity, gravity, sqrt))
    {
      var j := 0;
      while j < |particles|
        invariant 0 <= j <= |particles| && Valid()
        invariant forall i | 0 <= i < |particles| :: particles[i].density != 0.0
        invariant forall i | 0 <= i < j ::
          particles[i].force
            == old(ForceOn(spatialHash.grid, spatialHash.cellSize, particles[i], smoothingRadius, viscosity, gravity, sqrt))
      {
        var particle := particles[j];
        var force := ParticleForce(particle, sqrt);
        assert force
            == old(ForceOn(spatialHash.grid, spatialHash.cellSize, particle, smoothingRadius, viscosity, gravity, sqrt));
        particle.force := force;
        j := j + 1;
      }
    }
    /** The `update(dt)` loop of `step()`: every particle advances by one
        semi-implicit Euler step. */
    method UpdateAll()
      requires Valid()
      requires forall i | 0 <= i < |particles| :: particles[i].mass != 0.0
      modifies particles
      ensures forall i | 0 <= i < |particles| :: particles[i].State() == Advanced(old(particles[i].State()), dt)
    {
      var j := 0;
      while j < |particles|
        invariant 0 <= j <= |particles|
        invariant forall i | 0 <= i < j :: particles[i].State() == Advanced(old(particles[i].State()), dt)
        invariant forall i | j <= i < |particles| :: particles[i].State() == old(particles[i].State())
      {
        particles[j].Update(dt);
        j := j + 1;
      }
    }

    /** One particle in `_handle_boundaries()`: bottom, top, left, right. */
    method Bounce(particle: Particle)
      modifies particle
      ensures particle.State() == Bounced(old(particle.State()), width, height)
    {
      if particle.position.y < 0.0 {
        particle.position := particle.position.(y := 0.0);
        particle.velocity := particle.velocity.(y := particle.velocity.y * -Damping);
      }
      if particle.position.y > height {
        particle.position := particle.position.(y := height);
        particle.velocity := particle.velocity.(y := particle.velocity.y * -Damping);
      }
      if particle.position.x < 0.0 {
        particle.position := particle.position.(x := 0.0);
        particle.velocity := particle.velocity.(x := particle.velocity.x * -Damping);
      }
      if particle.position.x > width {
        particle.position := particle.position.(x := width);
        particle.velocity := particle.velocity.(x := particle.velocity.x * -Damping);
      }
    }

    /** `_handle_boundaries()`: every particle bounced back into the box. */
    method HandleBoundaries()
      requires Valid()
      modifies particles
      ensures forall i | 0 <= i < |particles| :: particles[i].State() == Bounced(old(particles[i].State()), width, height)
    {
      var j := 0;
      while j < |particles|
        invariant 0 <= j <= |particles|
        invariant forall i | 0 <= i < j :: particles[i].State() == Bounced(old(particles[i].State()), width, height)
        invariant forall i | j <= i < |particles| :: particles[i].State() == old(particles[i].State())
      {
        Bounce(particles[j]);
        j := j + 1;
      }
    }

    /** The first half of `step()`: rebuild the hash from the current
        positions, then set every density and pressure. */
    method PrepareStep(sqrt: real -> real)
      requires Valid() && IsSqrt(sqrt)
      modifies spatialHash, particles`density, particles`pressure
      ensures Valid() && spatialHash.cellSize == old(spatialHash.cellSize)
      ensures spatialHash.grid == old(Built(particles, spatialHash.cellSize))
      ensures forall i | 0 <= i < |particles| ::
        particles[i].density
          == old(Density(Built(particles, spatialHash.cellSize), spatialHash.cellSize, particles[i].position,
                         smoothingRadius, restDensity, sqrt))
      ensures forall i | 0 <= i < |particles| ::
        particles[i].pressure == Pressure(gasConstant, particles[i].density, restDensity)
    {
      RebuildHash();
      ComputeDensityPressure(sqrt);
    }

    /** The second half of `step()`: forces from the densities and pressures
        just set, then the Euler update and the boundary bounce.  `forces`
        names the force each particle was advanced with. */
    method AdvanceStep(sqrt: real -> real) returns (ghost forces: seq<Vec2>)
      requires Valid() && IsSqrt(sqrt)
      requires forall i | 0 <= i < |particles| :: particles[i].mass != 0.0 && particles[i].density != 0.0
      modifies particles
      ensures |forces| == |particles|
      ensures forall i | 0 <= i < |particles| ::
        forces[i] == old(ForceOn(spatialHash.grid, spatialHash.cellSize, particles[i], smoothingRadius, viscosity, gravity, sqrt))
      ensures forall i | 0 <= i < |particles| ::
        particles[i].State() == Bounced(Advanced(old(particles[i].State()).(force := forces[i]), dt), width, height)
    {
      ComputeForces(sqrt);
      forces := seq(|particles|, i requires 0 <= i < |particles| reads this, particles => particles[i].force);
      UpdateAll();
      HandleBoundaries();
    }

    /** `step()`.  `forces` names the force each particle was advanced with;
        ComputeForces states how it is computed. */
    method Step(sqrt: real -> real) returns (ghost forces: seq<Vec2>)
      requires Valid() && IsSqrt(sqrt) && 0.0 < restDensity
      requires forall i | 0 <= i < |particles| :: particles[i].mass != 0.0
      modifies spatialHash, particles
      ensures Valid() && spatialHash.cellSize == old(spatialHash.cellSize)
      ensures spatialHash.grid == old(Built(particles, spatialHash.cellSize))
      ensures forall i | 0 <= i < |particles| ::
        particles[i].density
          == old(Density(Built(particles, spatialHash.cellSize), spatialHash.cellSize, particles[i].position,
                         smoothingRadius, restDensity, sqrt))
      ensures forall i | 0 <= i < |particles| ::
        particles[i].pressure == Pressure(gasConstant, particles[i].density, restDensity)
      ensures |forces| == |particles|
      ensures forall i | 0 <= i < |particles| ::
        particles[i].State()
          == Bounced(Advanced(old(particles[i].State()).(density := particles[i].density, pressure := particles[i].pressure,
                                                         force := forces[i]), dt), width, height)
      ensures 0.0 <= width && 0.0 <= height ==> forall i | 0 <= i < |particles| :: InBox(particles[i].position, width, height)
    {
      PrepareStep(sqrt);
      forces := AdvanceStep(sqrt);
    }

    /** `get_positions()`. */
    function Positions(): (ps: seq<Vec2>)
      reads this, particles
      ensures |ps| == |particles| && forall i | 0 <= i < |particles| :: ps[i] == particles[i].position
    {
      seq(|particles|, i requires 0 <= i < |particles| reads this, particles => particles[i].position)
    }

    /** `get_velocities()`. */
    function Velocities(): (vs: seq<Vec2>)
      reads this, particles
      ensures |vs| == |particles| && forall i | 0 <= i < |particles| :: vs[i] == particles[i].velocity
    {
      seq(|particles|, i requires 0 <= i < |particles| reads this, particles => particles[i].velocity)
    }
  }

  /** The neighbour loop of `_compute_forces()` for one particle. */
  method SumForces(p: Particle, neighbors: seq<Particle>, h: real, sqrt: real -> real)
    returns (pressureForce: Vec2, viscosityForce: Vec2)
    requires IsSqrt(sqrt)
    requires forall i | 0 <= i < |neighbors| :: neighbors[i].density != 0.0
    ensures Forces(pressureForce, viscosityForce) == PairForces(p, neighbors, h, sqrt)
  {
    pressureForce := Zero;
    viscosityForce := Zero;
    var k := 0;
    while k < |neighbors|
      invariant 0 <= k <= |neighbors|
      invariant Forces(pressureForce, viscosityForce) == PairForces(p, neighbors[..k], h, sqrt)
    {
      var neighbor := neighbors[k];
      assert neighbors[..k + 1][..k] == neighbors[..k];
      if neighbor != p {
        var rVec := Sub(p.position, neighbor.position);
        NormSqNonNegative(rVec);
        var r := sqrt(NormSq(rVec));
        if r >= Epsilon {
          var pressureGrad := KernelGradient(rVec, r, h);
          pressureForce := Sub(pressureForce, Scale(neighbor.mass * ((p.pressure + neighbor.pressure) / (2.0 * neighbor.density)), pressureGrad));
          var velocityDiff := Sub(neighbor.velocity, p.velocity);
          viscosityForce := Add(viscosityForce, Times(Scale(neighbor.mass, Div(velocityDiff, neighbor.density)), KernelLaplacian(r, h)));
        }
      }
      k := k + 1;
    }
    assert neighbors[..k] == neighbors;

  }

  /** The inner loop of `_compute_density_pressure()` for a particle at q. */
  method SumDensity(q: Vec2, neighbors: seq<Particle>, h: real, sqrt: real -> real) returns (density: real)
    requires IsSqrt(sqrt)
    ensures density == DensitySum(q, neighbors, h, sqrt)
  {
    density := 0.0;
    var k := 0;
    while k < |neighbors|
      invariant 0 <= k <= |neighbors|
      invariant density == DensitySum(q, neighbors[..k], h, sqrt)
    {
      var neighbor := neighbors[k];
      assert neighbors[..k + 1][..k] == neighbors[..k];
      NormSqNonNegative(Sub(q, neighbor.position));
      var r := sqrt(NormSq(Sub(q, neighbor.position)));
      density := density + neighbor.mass * Kernel(r, h);
      k := k + 1;
    }
    assert neighbors[..k] == neighbors;
  }
}
