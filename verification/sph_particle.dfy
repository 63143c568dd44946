/** The particle of particle.py: position, velocity, mass, density, pressure and
    the force accumulated for the next step. */
module SphParticle {
  import opened Plane

  /** The fields of a particle, as a value. */
  datatype PState = PState(position: Vec2, velocity: Vec2, mass: real, density: real, pressure: real, force: Vec2)

  /** The particle after `update(dt)`: the velocity grows by (force / mass) * dt,
      the position then moves by the new velocity times dt, and the force is
      reset to zero. */
  function Advanced(s: PState, dt: real): PState
    requires s.mass != 0.0
  {
    var acceleration := Div(s.force, s.mass);
    var velocity := Add(s.velocity, Times(acceleration, dt));
    var position := Add(s.position, Times(velocity, dt));
    s.(position := position, velocity := velocity, force := Zero)
  }

  /** Newton's second law over one step: mass times the change of velocity is
      force times dt. */
  lemma MomentumChange(s: PState, dt: real)
    requires s.mass != 0.0
    ensures Scale(s.mass, Sub(Advanced(s, dt).velocity, s.velocity)) == Times(s.force, dt)
  {
    var m := s.mass;
    var f := s.force;
    assert m * (f.x / m * dt) == f.x * dt;
    assert m * (f.y / m * dt) == f.y * dt;
  }

  /** The position moves with the velocity already updated in the same step
      (semi-implicit Euler); the force is used up; mass, density and pressure
      are left alone. */
  lemma SemiImplicit(s: PState, dt: real)
    requires s.mass != 0.0
    ensures Advanced(s, dt).position == Add(s.position, Times(Advanced(s, dt).velocity, dt))
    ensures Advanced(s, dt).force == Zero
    ensures Advanced(s, dt).mass == s.mass && Advanced(s, dt).density == s.density && Advanced(s, dt).pressure == s.pressure
  {
  }

  /** With no force a particle keeps its velocity and drifts by velocity * dt. */
  lemma FreeFlight(s: PState, dt: real)
    requires s.mass != 0.0 && s.force == Zero
    ensures Advanced(s, dt).velocity == s.velocity
    ensures Advanced(s, dt).position == Add(s.position, Times(s.velocity, dt))
  {
    assert 0.0 / s.mass * dt == 0.0;
  }

  class Particle {
    var position: Vec2
    var velocity: Vec2
    var mass: real
    var density: real
    var pressure: real
    var force: Vec2

    function State(): PState
      reads this
    {
      PState(position, velocity, mass, density, pressure, force)
    }

    /** `Particle(position, velocity, mass)`: density, pressure and force start at zero. */
    constructor (position: Vec2, velocity: Vec2, mass: real)
      ensures State() == PState(position, velocity, mass, 0.0, 0.0, Zero)
    {
      this.position := position;
      this.velocity := velocity;
      this.mass := mass;
      density := 0.0;
      pressure := 0.0;
      force := Zero;
    }

    /** `update(dt)`. */
    method Update(dt: real)
      requires mass != 0.0
      modifies this
      ensures State() == Advanced(old(State()), dt)
    {
      var acceleration := Div(force, mass);
      velocity := Add(velocity, Times(acceleration, dt));
      position := Add(position, Times(velocity, dt));
      force := Zero;
    }
  }
}
