/** What one call of `UpdateGrid` (src/grid.cpp) computes, written as pure
    functions over a snapshot of the lattice.  The imperative solver in
    lattice_solver.dfy is proved to produce exactly these values; the
    properties of the physics are proved here, once, about the functions. */
module LatticePhysics {
  import opened Numerics

  datatype Vec3 = Vec3(x: real, y: real, z: real)

  const Zero: Vec3 := Vec3(0.0, 0.0, 0.0)

  function Add(a: Vec3, b: Vec3): Vec3 { Vec3(a.x + b.x, a.y + b.y, a.z + b.z) }
  function Sub(a: Vec3, b: Vec3): Vec3 { Vec3(a.x - b.x, a.y - b.y, a.z - b.z) }
  function Scale(s: real, a: Vec3): Vec3 { Vec3(s * a.x, s * a.y, s * a.z) }
  function Neg(a: Vec3): Vec3 { Vec3(-a.x, -a.y, -a.z) }
  function NormSq(a: Vec3): real { a.x * a.x + a.y * a.y + a.z * a.z }

  lemma AddAssociates(a: Vec3, b: Vec3, c: Vec3)
    ensures Add(Add(a, b), c) == Add(a, Add(b, c))
  {
  }

  // The constants of UpdateGrid.
  const G: real := -9.81
  const Nu: real := 1.3
  const Radius: real := 1.0
  const H: real := 1.2
  const Stiffness: real := 0.6
  const WallStiffness: real := 2.0
  const WallDamping: real := 0.8
  const Epsilon: real := 0.0001
  const MinX: real := 0.0
  const MaxX: real := 20.0
  const MinY: real := 0.0
  const MaxY: real := 60.0
  const MinZ: real := 0.0
  const MaxZ: real := 20.0
  /** Speeds are divided by this before colouring. */
  const SpeedScale: real := 15.0

  const Gravity: Vec3 := Vec3(0.0, G, 0.0)
  /** The colour written when neither colour mode is on. */
  const Blue: Vec3 := Vec3(0.0, 0.0, 1.0)

  /** The per-particle fields of the lattice in flat-index order
      (struct of arrays, as the solver stores them). */
  datatype Snapshot = Snapshot(pos: seq<Vec3>, vel: seq<Vec3>, acc: seq<Vec3>,
                               density: seq<real>, colour: seq<Vec3>)

  predicate WellFormed(s: Snapshot) {
    |s.vel| == |s.pos| && |s.acc| == |s.pos| && |s.density| == |s.pos| && |s.colour| == |s.pos|
  }

  /** True when the particle lies inside the clamp box on every axis. */
  predicate InBox(p: Vec3) {
    MinX + Epsilon <= p.x <= MaxX - Epsilon &&
    MinY + Epsilon <= p.y <= MaxY - Epsilon &&
    MinZ + Epsilon <= p.z <= MaxZ - Epsilon
  }

  // ---------------------------------------------------------------- phase 0

  /** Phase 0: every acceleration is reset to gravity. */
  function ResetAccelerations(s: Snapshot): Snapshot
    requires WellFormed(s)
  {
    s.(acc := seq(|s.pos|, _ => Gravity))
  }

  // ---------------------------------------------------------------- phase 1

  /** The density weight particle b adds to particle a: (1 - r/h)^2 when 0 < r^2 < h^2. */
  function Weight(a: Vec3, b: Vec3, sqrt: real -> real): real {
    WeightAt(NormSq(Sub(a, b)), sqrt)
  }

  /** The density weight at squared distance r2. */
  function WeightAt(r2: real, sqrt: real -> real): real {
    if r2 > 0.0 && r2 < H * H then
      Sq(1.0 - sqrt(r2) / H)
    else 0.0
  }

  /** The weight each particle adds to the density of particle id, in flat-index order. */
  function Weights(pos: seq<Vec3>, id: nat, sqrt: real -> real): (ws: seq<real>)
    requires id < |pos|
    ensures |ws| == |pos|
  {
    seq(|pos|, m requires 0 <= m < |pos| => Weight(pos[id], pos[m], sqrt))
  }

  /** ws[m] is the weight particle m adds to particle id.  The quantifier fires
      only on an explicit Weight term, so the kernel stays out of proofs that
      only move the weights around. */
  ghost predicate WeightsOf(ws: seq<real>, pos: seq<Vec3>, id: nat, sqrt: real -> real)
    requires id < |pos|
  {
    |ws| == |pos| &&
    forall m {:trigger Weight(pos[id], pos[m], sqrt)} :: 0 <= m < |pos| ==> ws[m] == Weight(pos[id], pos[m], sqrt)
  }

  /** Some ws for which WeightsOf holds, with nothing else known about it. */
  lemma ChooseWeights(pos: seq<Vec3>, id: nat, sqrt: real -> real) returns (ws: seq<real>)
    requires id < |pos|
    ensures WeightsOf(ws, pos, id, sqrt)
  {
    ws := Weights(pos, id, sqrt);
  }

  /** The sum of ws[m] over the indices m below n other than id. */
  function SumOthers(ws: seq<real>, id: nat, n: nat): real
    requires n <= |ws|
  {
    if n == 0 then 0.0
    else
      var before := SumOthers(ws, id, n - 1);
      if n - 1 == id then before else before + ws[n - 1]
  }

  /** Phase 1 result for one particle: the weights of all other particles. */
  function Density(pos: seq<Vec3>, id: nat, sqrt: real -> real): real
    requires id < |pos|
  {
    SumOthers(Weights(pos, id, sqrt), id, |pos|)
  }

  /** want[id] is the phase 1 density of particle id; the quantifier fires only
      on an explicit Density term. */
  ghost predicate DensitiesOf(want: seq<real>, pos: seq<Vec3>, sqrt: real -> real) {
    |want| == |pos| &&
    forall id {:trigger Density(pos, id, sqrt)} :: 0 <= id < |pos| ==> want[id] == Density(pos, id, sqrt)
  }

  lemma ChooseDensities(pos: seq<Vec3>, sqrt: real -> real) returns (want: seq<real>)
    ensures DensitiesOf(want, pos, sqrt)
  {
    want := seq(|pos|, id requires 0 <= id < |pos| => Density(pos, id, sqrt));
  }

  /** Summing any weights that satisfy WeightsOf gives the density. */
  lemma DensityIs(want: seq<real>, ws: seq<real>, pos: seq<Vec3>, id: nat, sqrt: real -> real)
    requires id < |pos| && DensitiesOf(want, pos, sqrt) && WeightsOf(ws, pos, id, sqrt)
    ensures SumOthers(ws, id, |pos|) == want[id]
  {
    assert ws == Weights(pos, id, sqrt);
    assert want[id] == Density(pos, id, sqrt);
  }

  /** Phase 1: every density is recomputed from the positions. */
  function ComputeDensities(s: Snapshot, sqrt: real -> real): Snapshot
    requires WellFormed(s)
  {
    s.(density := seq(|s.pos|, id requires 0 <= id < |s.pos| => Density(s.pos, id, sqrt)))
  }

  // ---------------------------------------------------------------- phase 2

  /** The rest density, (domain volume) / N.  For an empty lattice the source
      divides by zero; that value is never read, since there is no particle. */
  function RestDensity(n: nat): (r: real)
    ensures n > 0 ==> r > 0.0
  {
    if n == 0 then 0.0 else (MaxX - MinX) * (MaxY - MinY) * (MaxZ - MinZ) / (n as real)
  }

  /** A particle's pressure from its density. */
  function Pressure(rho: real, restDensity: real): real {
    Stiffness * (rho - restDensity)
  }

  /** The pressure acceleration a particle at `pb` with pressure `pB` gives the
      particle at `pa` with pressure `pA`: -0.5 (pA + pB) q along the unit
      direction from a to b, for 0 < r <= h. */
  function PressureTerm(pa: Vec3, pb: Vec3, pA: real, pB: real, sqrt: real -> real): Vec3 {
    var d := Sub(pb, pa);
    var r := sqrt(NormSq(d));
    if r <= 0.0 || r > H then Zero
    else
      var q := 1.0 - r / H;
      var fPress := -0.5 * (pA + pB) * q;
      Scale(fPress, Unit(d, r))
  }

  /** The direction d / r of a separation d of length r. */
  function Unit(d: Vec3, r: real): Vec3 requires r != 0.0 { Vec3(d.x / r, d.y / r, d.z / r) }

  /** The viscosity pull nu * dv * q, component by component. */
  function Drag(dv: Vec3, q: real): Vec3 { Vec3(Nu * dv.x * q, Nu * dv.y * q, Nu * dv.z * q) }

  /** The viscosity acceleration: nu (vb - va) q, for 0 < r <= h. */
  function ViscosityTerm(pa: Vec3, pb: Vec3, va: Vec3, vb: Vec3, sqrt: real -> real): Vec3 {
    var d := Sub(pb, pa);
    var r := sqrt(NormSq(d));
    if r <= 0.0 || r > H then Zero
    else
      var q := 1.0 - r / H;
      Drag(Sub(vb, va), q)
  }

  /** What a particle at `pb` (velocity `vb`, pressure `pB`) adds to the
      acceleration of a particle at `pa` (velocity `va`, pressure `pA`). */
  function PairTerm(pa: Vec3, pb: Vec3, va: Vec3, vb: Vec3, pA: real, pB: real, sqrt: real -> real): Vec3 {
    Add(PressureTerm(pa, pb, pA, pB, sqrt), ViscosityTerm(pa, pb, va, vb, sqrt))
  }

  /** Everything particle nid adds to the acceleration of particle id. */
  function PairAccel(pos: seq<Vec3>, vel: seq<Vec3>, dens: seq<real>, id: nat, nid: nat,
                     restDensity: real, sqrt: real -> real): Vec3
    requires |vel| == |pos| && |dens| == |pos| && id < |pos| && nid < |pos|
  {
    PairTerm(pos[id], pos[nid], vel[id], vel[nid], Pressure(dens[id], restDensity), Pressure(dens[nid], restDensity), sqrt)
  }

  /** What each particle adds to the acceleration of particle id, in flat-index order. */
  function PairTerms(pos: seq<Vec3>, vel: seq<Vec3>, dens: seq<real>, id: nat,
                     restDensity: real, sqrt: real -> real): (ts: seq<Vec3>)
    requires |vel| == |pos| && |dens| == |pos| && id < |pos|
    ensures |ts| == |pos|
  {
    seq(|pos|, m requires 0 <= m < |pos| => PairAccel(pos, vel, dens, id, m, restDensity, sqrt))
  }

  /** terms[m] is what particle m adds to particle id.  The quantifier fires only
      on an explicit PairAccel term, so the kernel stays out of proofs that only
      move the terms around. */
  ghost predicate TermsOf(terms: seq<Vec3>, pos: seq<Vec3>, vel: seq<Vec3>, dens: seq<real>, id: nat,
                          restDensity: real, sqrt: real -> real)
    requires |vel| == |pos| && |dens| == |pos| && id < |pos|
  {
    |terms| == |pos| &&
    forall m {:trigger PairAccel(pos, vel, dens, id, m, restDensity, sqrt)} :: 0 <= m < |pos| ==>
      terms[m] == PairAccel(pos, vel, dens, id, m, restDensity, sqrt)
  }

  /** Some terms for which TermsOf holds, with nothing else known about them. */
  lemma ChooseTerms(pos: seq<Vec3>, vel: seq<Vec3>, dens: seq<real>, id: nat,
                    restDensity: real, sqrt: real -> real) returns (terms: seq<Vec3>)
    requires |vel| == |pos| && |dens| == |pos| && id < |pos|
    ensures TermsOf(terms, pos, vel, dens, id, restDensity, sqrt)
  {
    terms := PairTerms(pos, vel, dens, id, restDensity, sqrt);
  }

  /** The sum of ts[m] over the indices m below n other than id. */
  function SumExcept(ts: seq<Vec3>, id: nat, n: nat): Vec3
    requires n <= |ts|
  {
    if n == 0 then Zero
    else
      var before := SumExcept(ts, id, n - 1);
      if n - 1 == id then before else Add(before, ts[n - 1])
  }

  /** The soft wall penalty on one axis: pushed up when the particle's sphere
      crosses the minimum, pushed down when it crosses the maximum. */
  function WallPenalty(c: real, lo: real, hi: real): (w: real)
    ensures hi - lo >= 2.0 * Radius ==> (w > 0.0 <==> c - Radius < lo)
    ensures hi - lo >= 2.0 * Radius ==> (w < 0.0 <==> c + Radius > hi)
    ensures lo + Radius <= c <= hi - Radius ==> w == 0.0
  {
    (if c - Radius < lo then WallStiffness * (lo - (c - Radius)) else 0.0)
    - (if c + Radius > hi then WallStiffness * ((c + Radius) - hi) else 0.0)
  }

  function WallAccel(p: Vec3): Vec3 {
    Vec3(WallPenalty(p.x, MinX, MaxX), WallPenalty(p.y, MinY, MaxY), WallPenalty(p.z, MinZ, MaxZ))
  }

  /** Phase 2 result for one particle: its reset acceleration, plus the pair
      terms, plus the wall penalty. */
  function AccelOf(s: Snapshot, id: nat, sqrt: real -> real): Vec3
    requires WellFormed(s) && id < |s.pos|
  {
    var pairs := SumExcept(PairTerms(s.pos, s.vel, s.density, id, RestDensity(|s.pos|), sqrt), id, |s.pos|);
    Add(Add(s.acc[id], pairs), WallAccel(s.pos[id]))
  }

  /** want[id] is the phase 2 acceleration of particle id.  As in TermsOf, the
      quantifier fires only on an explicit AccelOf term. */
  ghost predicate AccelsOf(want: seq<Vec3>, s: Snapshot, sqrt: real -> real)
    requires WellFormed(s)
  {
    |want| == |s.pos| &&
    forall id {:trigger AccelOf(s, id, sqrt)} :: 0 <= id < |s.pos| ==> want[id] == AccelOf(s, id, sqrt)
  }

  lemma ChooseAccels(s: Snapshot, sqrt: real -> real) returns (want: seq<Vec3>)
    requires WellFormed(s)
    ensures AccelsOf(want, s, sqrt)
  {
    want := seq(|s.pos|, id requires 0 <= id < |s.pos| => AccelOf(s, id, sqrt));
  }

  /** The pair sum over any terms that satisfy TermsOf gives the acceleration. */
  lemma AccelIs(want: seq<Vec3>, terms: seq<Vec3>, s: Snapshot, id: nat, sqrt: real -> real)
    requires WellFormed(s) && id < |s.pos| && AccelsOf(want, s, sqrt)
    requires TermsOf(terms, s.pos, s.vel, s.density, id, RestDensity(|s.pos|), sqrt)
    ensures want[id] == Add(Add(s.acc[id], SumExcept(terms, id, |s.pos|)), WallAccel(s.pos[id]))
  {
    assert terms == PairTerms(s.pos, s.vel, s.density, id, RestDensity(|s.pos|), sqrt);
    assert want[id] == AccelOf(s, id, sqrt);
  }

  /** The blue-to-red gradient used by both colour modes, for t in [0, 1]. */
  function Gradient(t: real): Vec3 {
    Vec3(t, 0.2 * (1.0 - t), 1.0 - t)
  }

  /** Pressure colour mode: the pressure normalised into [0, 1] by clamp((P + rest) / (2 rest), 0, 1). */
  function PressureColour(pA: real, restDensity: real): Vec3
    requires restDensity > 0.0
  {
    Gradient(Clamp((pA - (-restDensity)) / (restDensity * 2.0), 0.0, 1.0))
  }

  /** The colour a particle has after phase 2. */
  function ForcesColour(old_colour: Vec3, pA: real, restDensity: real, pressure: bool, speed: bool): Vec3
    requires restDensity > 0.0
  {
    if pressure then PressureColour(pA, restDensity)
    else if !speed then Blue
    else old_colour
  }

  /** Phase 2: accelerations from pressure, viscosity and walls, and the optional pressure colour. */
  function ComputeForces(s: Snapshot, pressure: bool, speed: bool, sqrt: real -> real): Snapshot
    requires WellFormed(s)
  {
    var n := |s.pos|;
    s.(acc := seq(n, id requires 0 <= id < n => AccelOf(s, id, sqrt)),
       colour := seq(n, id requires 0 <= id < n =>
         ForcesColour(s.colour[id], Pressure(s.density[id], RestDensity(n)), RestDensity(n), pressure, speed)))
  }

  // ---------------------------------------------------------------- phase 3

  /** The hard clamp on one axis: a coordinate outside [lo + eps, hi - eps] is put
      back on that bound and its velocity is reflected and damped. */
  function ClampAxis(c: real, v: real, lo: real, hi: real): (r: (real, real))
    requires lo + Epsilon <= hi - Epsilon
    ensures lo + Epsilon <= r.0 <= hi - Epsilon
    ensures lo + Epsilon <= c <= hi - Epsilon ==> r == (c, v)
    ensures !(lo + Epsilon <= c <= hi - Epsilon) ==> r.1 == -v * WallDamping
    ensures c < lo + Epsilon ==> r == (lo + Epsilon, -v * WallDamping)
    ensures hi - Epsilon < c ==> r == (hi - Epsilon, -v * WallDamping)
  {
    if c < lo + Epsilon then (lo + Epsilon, -v * WallDamping)
    else if c > hi - Epsilon then (hi - Epsilon, -v * WallDamping)
    else (c, v)
  }

  /** Semi-implicit Euler for one particle, then the hard clamp; returns (position, velocity). */
  function IntegrateOne(p: Vec3, v: Vec3, a: Vec3, dt: real): (Vec3, Vec3) {
    var v1 := Add(v, Scale(dt, a));
    var p1 := Add(p, Scale(dt, v1));
    var cx := ClampAxis(p1.x, v1.x, MinX, MaxX);
    var cy := ClampAxis(p1.y, v1.y, MinY, MaxY);
    var cz := ClampAxis(p1.z, v1.z, MinZ, MaxZ);
    (Vec3(cx.0, cy.0, cz.0), Vec3(cx.1, cy.1, cz.1))
  }

  /** Speed colour mode: the speed normalised by min(|v| / 15, 1). */
  function SpeedColour(v: Vec3, sqrt: real -> real): Vec3 {
    Gradient(Min(sqrt(NormSq(v)) / SpeedScale, 1.0))
  }

  /** Phase 3: integration, hard clamp, and the optional speed colour. */
  function Integrate(s: Snapshot, dt: real, speed: bool, sqrt: real -> real): Snapshot
    requires WellFormed(s)
  {
    var n := |s.pos|;
    var moved := seq(n, id requires 0 <= id < n => IntegrateOne(s.pos[id], s.vel[id], s.acc[id], dt));
    s.(pos := seq(n, id requires 0 <= id < n => moved[id].0),
       vel := seq(n, id requires 0 <= id < n => moved[id].1),
       colour := seq(n, id requires 0 <= id < n => if speed then SpeedColour(moved[id].1, sqrt) else s.colour[id]))
  }

  /** One call of UpdateGrid: the four phases in order. */
  function Step(s: Snapshot, dt: real, pressure: bool, speed: bool, sqrt: real -> real): Snapshot
    requires WellFormed(s)
  {
    Integrate(ComputeForces(ComputeDensities(ResetAccelerations(s), sqrt), pressure, speed, sqrt), dt, speed, sqrt)
  }

  // ---------------------------------------------------------------- diagnostics

  function SumUpTo(vs: seq<Vec3>, n: nat): Vec3
    requires n <= |vs|
  {
    if n == 0 then Zero else Add(SumUpTo(vs, n - 1), vs[n - 1])
  }

  /** Component-wise arithmetic mean (ComputeAverageVelocity). */
  function Mean(vs: seq<Vec3>): Vec3
    requires |vs| > 0
  {
    var t := SumUpTo(vs, |vs|);
    var n := |vs| as real;
    Vec3(t.x / n, t.y / n, t.z / n)
  }
}
