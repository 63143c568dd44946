/** The solver of src/grid.cpp: `CreateGrid`, the four phases of `UpdateGrid`
    and `ComputeAverageVelocity`.  The OpenMP loops become sequential triple
    loops; a phase's loop finishes before the next phase starts.  Each phase is
    proved to produce the value the matching function of LatticePhysics gives. */
module LatticeSolver {
  import opened Numerics
  import opened LatticeIndex
  import opened LatticePhysics
  import opened Lattice
  import LatticeProperties

  /** (a, b, c) comes before (i, j, k) in the order the triple loops visit cells. */
  predicate Before(a: int, b: int, c: int, i: int, j: int, k: int) {
    a < i || (a == i && b < j) || (a == i && b == j && c < k)
  }

  /** Phase 0: every acceleration becomes (0, g, 0). */
  method ResetAccelerations(grid: Grille)
    requires grid.Built()
    modifies grid.ax, grid.ay, grid.az
    ensures grid.Built()
    ensures grid.State() == LatticePhysics.ResetAccelerations(old(grid.State()))
  {
    for i := 0 to grid.nx
      invariant forall a, b, c :: InLattice(a, b, c, grid.nx, grid.ny, grid.nz) && a < i ==>
        grid.ax[a, b, c] == 0.0 && grid.ay[a, b, c] == G && grid.az[a, b, c] == 0.0
    {
      for j := 0 to grid.ny
        invariant forall a, b, c :: InLattice(a, b, c, grid.nx, grid.ny, grid.nz) && Before(a, b, c, i, j, 0) ==>
          grid.ax[a, b, c] == 0.0 && grid.ay[a, b, c] == G && grid.az[a, b, c] == 0.0
      {
        for k := 0 to grid.nz
          invariant forall a, b, c :: InLattice(a, b, c, grid.nx, grid.ny, grid.nz) && Before(a, b, c, i, j, k) ==>
            grid.ax[a, b, c] == 0.0 && grid.ay[a, b, c] == G && grid.az[a, b, c] == 0.0
        {
          grid.ax[i, j, k] := 0.0;
          grid.ay[i, j, k] := G;
          grid.az[i, j, k] := 0.0;
        }
      }
    }
    ghost var s0 := old(grid.State());
    forall id | 0 <= id < grid.N()
      ensures grid.State().acc[id] == Gravity
    {
      var c := grid.CellOf(id);
    }
    assert grid.State().acc == LatticePhysics.ResetAccelerations(s0).acc;
  }

  /** The body of the density loop for one neighbour n of particle v:
      (1 - r/h)^2 when 0 < r^2 < h^2, and nothing otherwise. */
  method NeighbourWeight(v: Vertex, n: Vertex, sqrt: real -> real) returns (w: real)
    ensures w == Weight(PositionOf(v), PositionOf(n), sqrt)
  {
    var dx := v.x - n.x;
    var dy := v.y - n.y;
    var dz := v.z - n.z;
    var r2 := dx * dx + dy * dy + dz * dz;
    assert r2 == NormSq(Sub(PositionOf(v), PositionOf(n)));
    w := 0.0;
    if r2 > 0.0 && r2 < H * H {
      var r := sqrt(r2);
      var q := 1.0 - r / H;
      w := q * q;
    }
  }

  /** The density loop of phase 1 for the particle in cell (i, j, k): the sum of
      the weights ws of all other particles, in the order the loops visit them. */
  method DensityOf(grid: Grille, i: nat, j: nat, k: nat, sqrt: real -> real, ghost ws: seq<real>) returns (density: real)
    requires grid.Built() && InLattice(i, j, k, grid.nx, grid.ny, grid.nz)
    requires WeightsOf(ws, Positions(grid.vertices), grid.IndexOf(i, j, k), sqrt)
    ensures density == SumOthers(ws, grid.IndexOf(i, j, k), |ws|)
  {
    var nx, ny, nz := grid.nx, grid.ny, grid.nz;
    ghost var pos := Positions(grid.vertices);
    var id := grid.IndexOf(i, j, k);
    var v := grid.vertices[id];
    density := 0.0;
    // `seen` counts the cells visited so far; it is the flat index of the next one.
    ghost var seen: nat := 0;
    for ii := 0 to nx
      invariant seen == Idx3(ii, 0, 0, ny, nz) <= |pos|
      invariant density == SumOthers(ws, id, seen)
    {
      for jj := 0 to ny
        invariant seen == Idx3(ii, jj, 0, ny, nz) <= |pos|
        invariant density == SumOthers(ws, id, seen)
      {
        for kk := 0 to nz
          invariant seen == Idx3(ii, jj, kk, ny, nz) <= |pos|
          invariant density == SumOthers(ws, id, seen)
        {
          var nid := grid.IndexOf(ii, jj, kk);
          Idx3Within(ii, jj, kk + 1, nx, ny, nz);
          if ii == i && jj == j && kk == k {
            assert seen == id;
            seen := seen + 1;
            continue;
          }
          if nid == id {
            Idx3Injective(ii, jj, kk, i, j, k, ny, nz);
          }
          assert seen == nid;
          var w := NeighbourWeight(v, grid.vertices[nid], sqrt);
          assert ws[nid] == Weight(pos[id], pos[nid], sqrt);
          density := density + w;
          seen := seen + 1;
        }
        Idx3RowEnd(ii, jj, ny, nz);
        Idx3Within(ii, jj + 1, 0, nx, ny, nz);
      }
      Idx3PlaneEnd(ii, ny, nz);
      Idx3Within(ii + 1, 0, 0, nx, ny, nz);
    }
    Idx3End(nx, ny, nz);
  }

  /** Phase 1: every density is recomputed from the current positions. */
  method ComputeDensities(grid: Grille, sqrt: real -> real)
    requires grid.Built()
    modifies grid.div
    ensures grid.Built()
    ensures grid.State() == LatticePhysics.ComputeDensities(old(grid.State()), sqrt)
  {
    ghost var pos := Positions(grid.vertices);
    ghost var want := ChooseDensities(pos, sqrt);
    for i := 0 to grid.nx
      invariant forall a, b, c :: InLattice(a, b, c, grid.nx, grid.ny, grid.nz) && a < i ==>
        grid.div[a, b, c] == want[grid.IndexOf(a, b, c)]
    {
      for j := 0 to grid.ny
        invariant forall a, b, c :: InLattice(a, b, c, grid.nx, grid.ny, grid.nz) && Before(a, b, c, i, j, 0) ==>
          grid.div[a, b, c] == want[grid.IndexOf(a, b, c)]
      {
        for k := 0 to grid.nz
          invariant forall a, b, c :: InLattice(a, b, c, grid.nx, grid.ny, grid.nz) && Before(a, b, c, i, j, k) ==>
            grid.div[a, b, c] == want[grid.IndexOf(a, b, c)]
        {
          ghost var ws := ChooseWeights(pos, grid.IndexOf(i, j, k), sqrt);
          var density := DensityOf(grid, i, j, k, sqrt, ws);
          DensityIs(want, ws, pos, grid.IndexOf(i, j, k), sqrt);
          grid.div[i, j, k] := density;
        }
      }
    }
    ghost var s0 := old(grid.State());
    forall id | 0 <= id < grid.N()
      ensures grid.State().density[id] == Density(s0.pos, id, sqrt)
    {
      var c := grid.CellOf(id);
      assert want[id] == Density(pos, id, sqrt);
    }
    assert grid.State().density == LatticePhysics.ComputeDensities(s0, sqrt).density;
  }

  /** The soft walls of phase 2: a particle whose sphere of radius 1 crosses a
      face of the box is pushed back in proportion to the overlap. */
  method AddWalls(acc: Vec3, A: Vertex) returns (acc': Vec3)
    ensures acc' == Add(acc, WallAccel(PositionOf(A)))
  {
    var axL, ayL, azL := acc.x, acc.y, acc.z;
    if A.x - Radius < MinX {
      axL := axL + WallStiffness * (MinX - (A.x - Radius));
    }
    if A.x + Radius > MaxX {
      axL := axL - WallStiffness * ((A.x + Radius) - MaxX);
    }
    if A.y - Radius < MinY {
      ayL := ayL + WallStiffness * (MinY - (A.y - Radius));
    }
    if A.y + Radius > MaxY {
      ayL := ayL - WallStiffness * ((A.y + Radius) - MaxY);
    }
    if A.z - Radius < MinZ {
      azL := azL + WallStiffness * (MinZ - (A.z - Radius));
    }
    if A.z + Radius > MaxZ {
      azL := azL - WallStiffness * ((A.z + Radius) - MaxZ);
    }
    acc' := Vec3(axL, ayL, azL);
  }

  /** Adding term n extends the running sum by one index. */
  lemma SumStep(terms: seq<Vec3>, id: nat, n: nat, start: Vec3, acc: Vec3, t: Vec3)
    requires n < |terms| && n != id && terms[n] == t
    requires acc == Add(start, SumExcept(terms, id, n))
    ensures Add(acc, t) == Add(start, SumExcept(terms, id, n + 1))
  {
    AddAssociates(start, SumExcept(terms, id, n), t);
  }

  /** What the pair loop of phase 2 reads about neighbour (ii, jj, kk): its
      vertex, its velocity and its density. */
  method Neighbour(grid: Grille, ii: nat, jj: nat, kk: nat, ghost pos: seq<Vec3>, ghost vel: seq<Vec3>, ghost dens: seq<real>)
    returns (B: Vertex, vb: Vec3, rhoB: real)
    requires grid.Readable() && InLattice(ii, jj, kk, grid.nx, grid.ny, grid.nz)
    requires pos == Positions(grid.vertices) && grid.Mirrors(vel, dens)
    ensures PositionOf(B) == pos[grid.IndexOf(ii, jj, kk)]
    ensures vb == vel[grid.IndexOf(ii, jj, kk)] && rhoB == dens[grid.IndexOf(ii, jj, kk)]
  {
    B := grid.vertices[grid.IndexOf(ii, jj, kk)];
    vb := Vec3(grid.vx[ii, jj, kk], grid.vy[ii, jj, kk], grid.vz[ii, jj, kk]);
    rhoB := grid.div[ii, jj, kk];
  }

  /** What the pair loop of phase 2 knows about the particle A in cell (i, j, k)
      whose acceleration it sums: its vertex, velocity and pressure, and the
      term each particle adds to it. */
  ghost predicate Pairing(grid: Grille, i: nat, j: nat, k: nat, A: Vertex, va: Vec3, pA: real, restDensity: real,
                          sqrt: real -> real, pos: seq<Vec3>, vel: seq<Vec3>, dens: seq<real>, terms: seq<Vec3>)
    reads grid, grid.vx, grid.vy, grid.vz, grid.div
  {
    grid.Readable() && InLattice(i, j, k, grid.nx, grid.ny, grid.nz) &&
    pos == Positions(grid.vertices) && grid.Mirrors(vel, dens) &&
    A == grid.vertices[grid.IndexOf(i, j, k)] && va == vel[grid.IndexOf(i, j, k)] &&
    pA == Pressure(dens[grid.IndexOf(i, j, k)], restDensity) &&
    TermsOf(terms, pos, vel, dens, grid.IndexOf(i, j, k), restDensity, sqrt)
  }

  /** One pass of the innermost loop of phase 2: neighbour (ii, jj, kk), whose
      flat index is `seen`, is skipped when it is the particle (i, j, k) itself
      and otherwise adds its pair term to acc. */
  method Visit(grid: Grille, i: nat, j: nat, k: nat, ii: nat, jj: nat, kk: nat, A: Vertex, va: Vec3, pA: real,
               restDensity: real, sqrt: real -> real,
               ghost pos: seq<Vec3>, ghost vel: seq<Vec3>, ghost dens: seq<real>, ghost terms: seq<Vec3>,
               ghost start: Vec3, acc: Vec3, ghost seen: nat)
    returns (acc': Vec3)
    requires Pairing(grid, i, j, k, A, va, pA, restDensity, sqrt, pos, vel, dens, terms)
    requires InLattice(ii, jj, kk, grid.nx, grid.ny, grid.nz) && seen == grid.IndexOf(ii, jj, kk)
    requires acc == Add(start, SumExcept(terms, grid.IndexOf(i, j, k), seen))
    ensures acc' == Add(start, SumExcept(terms, grid.IndexOf(i, j, k), seen + 1))
  {
    var id := grid.IndexOf(i, j, k);
    if ii == i && jj == j && kk == k {
      // the particle itself adds nothing
      assert seen == id;
      return acc;
    }
    if seen == id {
      Idx3Injective(ii, jj, kk, i, j, k, grid.ny, grid.nz);
    }
    var B, vb, rhoB := Neighbour(grid, ii, jj, kk, pos, vel, dens);
    var pB := Stiffness * (rhoB - restDensity);
    var t := PairTerm(PositionOf(A), PositionOf(B), va, vb, pA, pB, sqrt);
    assert terms[seen] == PairAccel(pos, vel, dens, id, seen, restDensity, sqrt);
    SumStep(terms, id, seen, start, acc, t);
    acc' := Add(acc, t);
  }

  /** The innermost loop of phase 2: the terms of the particles in row (ii, jj)
      added to the running acceleration acc0 of the particle in cell (i, j, k). */
  method PairRow(grid: Grille, i: nat, j: nat, k: nat, ii: nat, jj: nat, A: Vertex, va: Vec3, pA: real,
                 restDensity: real, sqrt: real -> real,
                 ghost pos: seq<Vec3>, ghost vel: seq<Vec3>, ghost dens: seq<real>, ghost terms: seq<Vec3>,
                 ghost start: Vec3, acc0: Vec3)
    returns (acc: Vec3)
    requires Pairing(grid, i, j, k, A, va, pA, restDensity, sqrt, pos, vel, dens, terms)
    requires ii < grid.nx && jj < grid.ny
    requires acc0 == Add(start, SumExcept(terms, grid.IndexOf(i, j, k), grid.IndexOf(ii, jj, 0)))
    ensures acc == Add(start, SumExcept(terms, grid.IndexOf(i, j, k), grid.IndexOf(ii, jj, grid.nz - 1) + 1))
  {
    var nx, ny, nz := grid.nx, grid.ny, grid.nz;
    acc := acc0;
    Idx3Within(ii, jj, 0, nx, ny, nz);
    ghost var seen: nat := Idx3(ii, jj, 0, ny, nz);
    for kk := 0 to nz
      invariant seen == Idx3(ii, jj, kk, ny, nz) <= |terms|
      invariant acc == Add(start, SumExcept(terms, grid.IndexOf(i, j, k), seen))
    {
      Idx3Within(ii, jj, kk + 1, nx, ny, nz);
      acc := Visit(grid, i, j, k, ii, jj, kk, A, va, pA, restDensity, sqrt, pos, vel, dens, terms, start, acc, seen);
      seen := seen + 1;
    }
  }

  /** The acceleration of phase 2 for the particle A in cell (i, j, k): its
      current acceleration, plus what every other particle adds in the order
      the loops visit them, plus the soft walls. */
  method ForceOf(grid: Grille, i: nat, j: nat, k: nat, A: Vertex, pA: real, restDensity: real, sqrt: real -> real,
                 ghost pos: seq<Vec3>, ghost vel: seq<Vec3>, ghost dens: seq<real>, ghost terms: seq<Vec3>)
    returns (acc: Vec3)
    requires grid.HasShape(grid.ax) && grid.HasShape(grid.ay) && grid.HasShape(grid.az)
    requires grid.Readable() && InLattice(i, j, k, grid.nx, grid.ny, grid.nz) && grid.Mirrors(vel, dens)
    requires Pairing(grid, i, j, k, A, vel[grid.IndexOf(i, j, k)], pA, restDensity, sqrt, pos, vel, dens, terms)
    ensures acc == Add(Add(Vec3(grid.ax[i, j, k], grid.ay[i, j, k], grid.az[i, j, k]),
                           SumExcept(terms, grid.IndexOf(i, j, k), |terms|)),
                       WallAccel(PositionOf(A)))
  {
    var nx, ny, nz := grid.nx, grid.ny, grid.nz;
    var va := Vec3(grid.vx[i, j, k], grid.vy[i, j, k], grid.vz[i, j, k]);
    acc := Vec3(grid.ax[i, j, k], grid.ay[i, j, k], grid.az[i, j, k]);
    ghost var start := acc;
    ghost var id := grid.IndexOf(i, j, k);
    for ii := 0 to nx
      invariant 0 <= Idx3(ii, 0, 0, ny, nz) <= |terms|
      invariant acc == Add(start, SumExcept(terms, id, Idx3(ii, 0, 0, ny, nz)))
    {
      for jj := 0 to ny
        invariant 0 <= Idx3(ii, jj, 0, ny, nz) <= |terms|
        invariant acc == Add(start, SumExcept(terms, id, Idx3(ii, jj, 0, ny, nz)))
      {
        acc := PairRow(grid, i, j, k, ii, jj, A, va, pA, restDensity, sqrt, pos, vel, dens, terms, start, acc);
        Idx3RowEnd(ii, jj, ny, nz);
        assert grid.IndexOf(ii, jj, nz - 1) + 1 == Idx3(ii, jj + 1, 0, ny, nz);
        Idx3Within(ii, jj + 1, 0, nx, ny, nz);
      }
      Idx3PlaneEnd(ii, ny, nz);
      Idx3Within(ii + 1, 0, 0, nx, ny, nz);
    }
    Idx3End(nx, ny, nz);
    acc := AddWalls(acc, A);
  }

  /** The body of phase 2 for cell (i, j, k): its acceleration from the pair
      loop and the walls is stored, and its vertex takes the colour of phase 2.
      s is the lattice as phase 2 found it. */
  method ForceCell(grid: Grille, i: nat, j: nat, k: nat, restDensity: real, pressure: bool, speed: bool,
                   sqrt: real -> real, ghost s: Snapshot, ghost want: seq<Vec3>)
    requires grid.Built() && InLattice(i, j, k, grid.nx, grid.ny, grid.nz)
    requires WellFormed(s) && |s.pos| == grid.N() && restDensity == RestDensity(grid.N())
    requires AccelsOf(want, s, sqrt)
    requires Positions(grid.vertices) == s.pos && grid.Mirrors(s.vel, s.density)
    requires Vec3(grid.ax[i, j, k], grid.ay[i, j, k], grid.az[i, j, k]) == s.acc[grid.IndexOf(i, j, k)]
    modifies grid, grid.ax, grid.ay, grid.az
    ensures grid.Built() && Positions(grid.vertices) == s.pos
    ensures grid.vertices == old(grid.vertices)[grid.IndexOf(i, j, k) :=
      WithColour(old(grid.vertices[grid.IndexOf(i, j, k)]),
                 ForcesColour(ColourOf(old(grid.vertices[grid.IndexOf(i, j, k)])),
                              Pressure(s.density[grid.IndexOf(i, j, k)], restDensity), restDensity, pressure, speed))]
    ensures Vec3(grid.ax[i, j, k], grid.ay[i, j, k], grid.az[i, j, k]) == want[grid.IndexOf(i, j, k)]
    ensures forall a, b, c :: InLattice(a, b, c, grid.nx, grid.ny, grid.nz) && (a, b, c) != (i, j, k) ==>
      grid.ax[a, b, c] == old(grid.ax[a, b, c]) && grid.ay[a, b, c] == old(grid.ay[a, b, c]) &&
      grid.az[a, b, c] == old(grid.az[a, b, c])
  {
    var id := grid.IndexOf(i, j, k);
    var A := grid.vertices[id];
    var rhoA := grid.div[i, j, k];
    var pA := Stiffness * (rhoA - restDensity);
    ghost var terms := ChooseTerms(s.pos, s.vel, s.density, id, restDensity, sqrt);
    var acc := ForceOf(grid, i, j, k, A, pA, restDensity, sqrt, s.pos, s.vel, s.density, terms);
    grid.ax[i, j, k] := acc.x;
    grid.ay[i, j, k] := acc.y;
    grid.az[i, j, k] := acc.z;
    AccelIs(want, terms, s, id, sqrt);
    if pressure {
      var pnorm := Clamp((pA - (-restDensity)) / (restDensity * 2.0), 0.0, 1.0);
      grid.vertices := grid.vertices[id := A.(r := pnorm, g := 0.2 * (1.0 - pnorm), b := 1.0 - pnorm)];
    } else if !speed {
      grid.vertices := grid.vertices[id := A.(r := 0.0, g := 0.0, b := 1.0)];
    }
  }

  /** Phase 2 has handled the cells before (i, j, k) and none of the others:
      v0 and s are the vertices and the lattice as phase 2 found them. */
  ghost predicate ForcesUpTo(grid: Grille, i: int, j: int, k: int, v0: seq<Vertex>, s: Snapshot, want: seq<Vec3>,
                             restDensity: real, pressure: bool, speed: bool)
    reads grid, grid.ax, grid.ay, grid.az
    requires grid.Valid() && WellFormed(s) && |s.pos| == grid.N() && |v0| == grid.N() && |want| == grid.N()
    requires restDensity > 0.0
  {
    |grid.vertices| == grid.N() &&
    forall a, b, c :: InLattice(a, b, c, grid.nx, grid.ny, grid.nz) ==>
      var id := grid.IndexOf(a, b, c);
      if Before(a, b, c, i, j, k) then
        Vec3(grid.ax[a, b, c], grid.ay[a, b, c], grid.az[a, b, c]) == want[id] &&
        grid.vertices[id] == WithColour(v0[id], ForcesColour(ColourOf(v0[id]), Pressure(s.density[id], restDensity),
                                                             restDensity, pressure, speed))
      else
        Vec3(grid.ax[a, b, c], grid.ay[a, b, c], grid.az[a, b, c]) == s.acc[id] && grid.vertices[id] == v0[id]
  }

  /** ForceCell on the next cell (i, j, k) in loop order extends ForcesUpTo by that cell. */
  method ForceStep(grid: Grille, i: nat, j: nat, k: nat, restDensity: real, pressure: bool, speed: bool,
                   sqrt: real -> real, ghost s: Snapshot, ghost want: seq<Vec3>, ghost v0: seq<Vertex>)
    requires grid.Built() && InLattice(i, j, k, grid.nx, grid.ny, grid.nz)
    requires WellFormed(s) && |s.pos| == grid.N() && |v0| == grid.N() && restDensity == RestDensity(grid.N())
    requires AccelsOf(want, s, sqrt) && Positions(grid.vertices) == s.pos && grid.Mirrors(s.vel, s.density)
    requires ForcesUpTo(grid, i, j, k, v0, s, want, restDensity, pressure, speed)
    modifies grid, grid.ax, grid.ay, grid.az
    ensures grid.Built() && Positions(grid.vertices) == s.pos && grid.Mirrors(s.vel, s.density)
    ensures ForcesUpTo(grid, i, j, k + 1, v0, s, want, restDensity, pressure, speed)
  {
    var id := grid.IndexOf(i, j, k);
    ForceCell(grid, i, j, k, restDensity, pressure, speed, sqrt, s, want);
    forall a, b, c | InLattice(a, b, c, grid.nx, grid.ny, grid.nz) && (a, b, c) != (i, j, k)
      ensures grid.IndexOf(a, b, c) != id
    {
      if grid.IndexOf(a, b, c) == id {
        Idx3Injective(a, b, c, i, j, k, grid.ny, grid.nz);
      }
    }
  }

  /** The triple loop of phase 2 over every cell. */
  method ForceLoops(grid: Grille, restDensity: real, pressure: bool, speed: bool, sqrt: real -> real,
                    ghost s: Snapshot, ghost want: seq<Vec3>, ghost v0: seq<Vertex>)
    requires grid.Built() && WellFormed(s) && |s.pos| == grid.N() && |v0| == grid.N()
    requires restDensity == RestDensity(grid.N()) && restDensity > 0.0
    requires AccelsOf(want, s, sqrt) && Positions(grid.vertices) == s.pos && grid.Mirrors(s.vel, s.density)
    requires ForcesUpTo(grid, 0, 0, 0, v0, s, want, restDensity, pressure, speed)
    modifies grid, grid.ax, grid.ay, grid.az
    ensures grid.Built() && Positions(grid.vertices) == s.pos
    ensures ForcesUpTo(grid, grid.nx, 0, 0, v0, s, want, restDensity, pressure, speed)
  {
    for i := 0 to grid.nx
      invariant grid.Built() && Positions(grid.vertices) == s.pos && grid.Mirrors(s.vel, s.density)
      invariant ForcesUpTo(grid, i, 0, 0, v0, s, want, restDensity, pressure, speed)
    {
      for j := 0 to grid.ny
        invariant grid.Built() && Positions(grid.vertices) == s.pos && grid.Mirrors(s.vel, s.density)
        invariant ForcesUpTo(grid, i, j, 0, v0, s, want, restDensity, pressure, speed)
      {
        for k := 0 to grid.nz
          invariant grid.Built() && Positions(grid.vertices) == s.pos && grid.Mirrors(s.vel, s.density)
          invariant ForcesUpTo(grid, i, j, k, v0, s, want, restDensity, pressure, speed)
        {
          ForceStep(grid, i, j, k, restDensity, pressure, speed, sqrt, s, want, v0);
        }
      }
    }
  }

  /** Phase 2: accelerations from pressure, viscosity and the soft walls, and
      the pressure colour or the plain blue when the speed colour is off. */
  method ComputeForces(grid: Grille, restDensity: real, pressure: bool, speed: bool, sqrt: real -> real)
    requires grid.Built() && restDensity == RestDensity(grid.N())
    modifies grid, grid.ax, grid.ay, grid.az
    ensures grid.Built()
    ensures grid.State() == LatticePhysics.ComputeForces(old(grid.State()), pressure, speed, sqrt)
  {
    ghost var s := grid.State();
    ghost var v0 := grid.vertices;
    grid.StateMirrors();
    if grid.N() == 0 {
      assert grid.State() == LatticePhysics.ComputeForces(s, pressure, speed, sqrt);
      return;
    }
    ghost var want := ChooseAccels(s, sqrt);
    assert restDensity > 0.0 && |want| == grid.N() && |v0| == grid.N() && |s.pos| == grid.N();
    forall a, b, c | InLattice(a, b, c, grid.nx, grid.ny, grid.nz)
      ensures Vec3(grid.ax[a, b, c], grid.ay[a, b, c], grid.az[a, b, c]) == s.acc[grid.IndexOf(a, b, c)]
    {
      grid.CellOfIdx3(a, b, c);
    }
    assert ForcesUpTo(grid, 0, 0, 0, v0, s, want, restDensity, pressure, speed);
    ForceLoops(grid, restDensity, pressure, speed, sqrt, s, want, v0);
    forall id | 0 <= id < grid.N()
      ensures grid.State().acc[id] == AccelOf(s, id, sqrt)
      ensures grid.State().colour[id] == ForcesColour(s.colour[id], Pressure(s.density[id], restDensity), restDensity, pressure, speed)
    {
      var c := grid.CellOf(id);
      assert want[id] == AccelOf(s, id, sqrt);
    }
    assert grid.State() == LatticePhysics.ComputeForces(s, pressure, speed, sqrt);
  }

  /** The vertex phase 3 makes of v, whose velocity is vel and acceleration acc. */
  function Integrated(v: Vertex, vel: Vec3, acc: Vec3, dt: real, speed: bool, sqrt: real -> real): Vertex {
    var m := IntegrateOne(PositionOf(v), vel, acc, dt);
    var moved := WithPosition(v, m.0);
    if speed then WithColour(moved, SpeedColour(m.1, sqrt)) else moved
  }

  /** The hard clamp of phase 3 on one axis. */
  method ClampStep(c: real, v: real, lo: real, hi: real) returns (c': real, v': real)
    requires lo + Epsilon <= hi - Epsilon
    ensures (c', v') == ClampAxis(c, v, lo, hi)
  {
    c', v' := c, v;
    if c < lo + Epsilon {
      c' := lo + Epsilon;
      v' := -v * WallDamping;
    } else if c > hi - Epsilon {
      c' := hi - Epsilon;
      v' := -v * WallDamping;
    }
  }

  /** Semi-implicit Euler and the hard clamp of phase 3 on one particle's
      position (x, y, z), velocity (vx, vy, vz) and acceleration (ax, ay, az). */
  method EulerClamp(x: real, y: real, z: real, vx: real, vy: real, vz: real, ax: real, ay: real, az: real, dt: real)
    returns (x': real, y': real, z': real, vx': real, vy': real, vz': real)
    ensures (Vec3(x', y', z'), Vec3(vx', vy', vz')) == IntegrateOne(Vec3(x, y, z), Vec3(vx, vy, vz), Vec3(ax, ay, az), dt)
  {
    vx' := vx + ax * dt;
    vy' := vy + ay * dt;
    vz' := vz + az * dt;
    ghost var v1 := Add(Vec3(vx, vy, vz), Scale(dt, Vec3(ax, ay, az)));
    assert Vec3(vx', vy', vz') == v1;
    x', y', z' := x + vx' * dt, y + vy' * dt, z + vz' * dt;
    assert Vec3(x', y', z') == Add(Vec3(x, y, z), Scale(dt, v1));
    x', vx' := ClampStep(x', vx', MinX, MaxX);
    y', vy' := ClampStep(y', vy', MinY, MaxY);
    z', vz' := ClampStep(z', vz', MinZ, MaxZ);
  }

  /** The speed colour of phase 3 from a velocity's components. */
  method SpeedColourOf(vx: real, vy: real, vz: real, sqrt: real -> real) returns (c: Vec3)
    ensures c == SpeedColour(Vec3(vx, vy, vz), sqrt)
  {
    assert NormSq(Vec3(vx, vy, vz)) == vx * vx + vy * vy + vz * vz;
    var normV := sqrt(vx * vx + vy * vy + vz * vz);
    var vNorm := Min(normV / SpeedScale, 1.0);
    c := Vec3(vNorm, 0.2 * (1.0 - vNorm), 1.0 - vNorm);
  }

  /** The body of phase 3 for cell (i, j, k): semi-implicit Euler, the hard
      clamp on each axis with a damped reflection, and the speed colour. */
  method IntegrateCell(grid: Grille, i: nat, j: nat, k: nat, dt: real, speed: bool, sqrt: real -> real)
    requires grid.Built() && InLattice(i, j, k, grid.nx, grid.ny, grid.nz)
    modifies grid, grid.vx, grid.vy, grid.vz
    ensures grid.Built()
    ensures grid.vertices == old(grid.vertices)[grid.IndexOf(i, j, k) :=
      Integrated(old(grid.vertices[grid.IndexOf(i, j, k)]),
                 old(Vec3(grid.vx[i, j, k], grid.vy[i, j, k], grid.vz[i, j, k])),
                 Vec3(grid.ax[i, j, k], grid.ay[i, j, k], grid.az[i, j, k]), dt, speed, sqrt)]
    ensures Vec3(grid.vx[i, j, k], grid.vy[i, j, k], grid.vz[i, j, k]) ==
      IntegrateOne(PositionOf(old(grid.vertices[grid.IndexOf(i, j, k)])),
                   old(Vec3(grid.vx[i, j, k], grid.vy[i, j, k], grid.vz[i, j, k])),
                   Vec3(grid.ax[i, j, k], grid.ay[i, j, k], grid.az[i, j, k]), dt).1
    ensures forall a, b, c :: InLattice(a, b, c, grid.nx, grid.ny, grid.nz) && (a, b, c) != (i, j, k) ==>
      grid.vx[a, b, c] == old(grid.vx[a, b, c]) && grid.vy[a, b, c] == old(grid.vy[a, b, c]) &&
      grid.vz[a, b, c] == old(grid.vz[a, b, c])
  {
    var id := grid.IndexOf(i, j, k);
    var v := grid.vertices[id];
    ghost var vel0 := Vec3(grid.vx[i, j, k], grid.vy[i, j, k], grid.vz[i, j, k]);
    ghost var acc := Vec3(grid.ax[i, j, k], grid.ay[i, j, k], grid.az[i, j, k]);
    var x, y, z, vx, vy, vz := EulerClamp(v.x, v.y, v.z, grid.vx[i, j, k], grid.vy[i, j, k], grid.vz[i, j, k],
                                          grid.ax[i, j, k], grid.ay[i, j, k], grid.az[i, j, k], dt);
    ghost var m := IntegrateOne(PositionOf(v), vel0, acc, dt);
    assert m.0 == Vec3(x, y, z) && m.1 == Vec3(vx, vy, vz);
    var nv := WithPosition(v, Vec3(x, y, z));
    if speed {
      var c := SpeedColourOf(vx, vy, vz, sqrt);
      nv := WithColour(nv, c);
    }
    assert nv == Integrated(v, vel0, acc, dt, speed, sqrt);
    grid.vx[i, j, k] := vx;
    grid.vy[i, j, k] := vy;
    grid.vz[i, j, k] := vz;
    grid.vertices := grid.vertices[id := nv];
  }

  /** The acceleration arrays hold acc in flat-index order. */
  ghost predicate HoldsAccels(grid: Grille, acc: seq<Vec3>)
    reads grid.ax, grid.ay, grid.az
    requires grid.Valid() && |acc| == grid.N()
  {
    forall a, b, c :: InLattice(a, b, c, grid.nx, grid.ny, grid.nz) ==>
      Vec3(grid.ax[a, b, c], grid.ay[a, b, c], grid.az[a, b, c]) == acc[grid.IndexOf(a, b, c)]
  }

  /** Phase 3 has integrated exactly the cells before (i, j, k) of the
      lattice whose vertices were v0 and whose snapshot was s. */
  ghost predicate IntegratedUpTo(grid: Grille, i: int, j: int, k: int, v0: seq<Vertex>, s: Snapshot,
                                 dt: real, speed: bool, sqrt: real -> real)
    reads grid, grid.vx, grid.vy, grid.vz
    requires grid.Valid() && WellFormed(s) && |s.pos| == grid.N() && |v0| == grid.N()
  {
    |grid.vertices| == grid.N() &&
    forall a, b, c :: InLattice(a, b, c, grid.nx, grid.ny, grid.nz) ==>
      var id := grid.IndexOf(a, b, c);
      if Before(a, b, c, i, j, k) then
        grid.vertices[id] == Integrated(v0[id], s.vel[id], s.acc[id], dt, speed, sqrt) &&
        Vec3(grid.vx[a, b, c], grid.vy[a, b, c], grid.vz[a, b, c]) == IntegrateOne(s.pos[id], s.vel[id], s.acc[id], dt).1
      else
        grid.vertices[id] == v0[id] && Vec3(grid.vx[a, b, c], grid.vy[a, b, c], grid.vz[a, b, c]) == s.vel[id]
  }

  /** IntegrateCell on the next cell (i, j, k) in loop order extends IntegratedUpTo by that cell. */
  method IntegrateStep(grid: Grille, i: nat, j: nat, k: nat, dt: real, speed: bool, sqrt: real -> real,
                       ghost s: Snapshot, ghost v0: seq<Vertex>)
    requires grid.Built() && InLattice(i, j, k, grid.nx, grid.ny, grid.nz)
    requires WellFormed(s) && |s.pos| == grid.N() && |v0| == grid.N() && Positions(v0) == s.pos
    requires HoldsAccels(grid, s.acc)
    requires IntegratedUpTo(grid, i, j, k, v0, s, dt, speed, sqrt)
    modifies grid, grid.vx, grid.vy, grid.vz
    ensures grid.Built() && HoldsAccels(grid, s.acc)
    ensures IntegratedUpTo(grid, i, j, k + 1, v0, s, dt, speed, sqrt)
  {
    var id := grid.IndexOf(i, j, k);
    assert PositionOf(v0[id]) == s.pos[id];
    IntegrateCell(grid, i, j, k, dt, speed, sqrt);
    forall a, b, c | InLattice(a, b, c, grid.nx, grid.ny, grid.nz) && (a, b, c) != (i, j, k)
      ensures grid.IndexOf(a, b, c) != id
    {
      if grid.IndexOf(a, b, c) == id {
        Idx3Injective(a, b, c, i, j, k, grid.ny, grid.nz);
      }
    }
  }

  /** The triple loop of phase 3 over every cell. */
  method IntegrateLoops(grid: Grille, dt: real, speed: bool, sqrt: real -> real, ghost s: Snapshot, ghost v0: seq<Vertex>)
    requires grid.Built() && WellFormed(s) && |s.pos| == grid.N() && |v0| == grid.N() && Positions(v0) == s.pos
    requires HoldsAccels(grid, s.acc)
    requires IntegratedUpTo(grid, 0, 0, 0, v0, s, dt, speed, sqrt)
    modifies grid, grid.vx, grid.vy, grid.vz
    ensures grid.Built()
    ensures IntegratedUpTo(grid, grid.nx, 0, 0, v0, s, dt, speed, sqrt)
  {
    for i := 0 to grid.nx
      invariant grid.Built() && HoldsAccels(grid, s.acc)
      invariant IntegratedUpTo(grid, i, 0, 0, v0, s, dt, speed, sqrt)
    {
      for j := 0 to grid.ny
        invariant grid.Built() && HoldsAccels(grid, s.acc)
        invariant IntegratedUpTo(grid, i, j, 0, v0, s, dt, speed, sqrt)
      {
        for k := 0 to grid.nz
          invariant grid.Built() && HoldsAccels(grid, s.acc)
          invariant IntegratedUpTo(grid, i, j, k, v0, s, dt, speed, sqrt)
        {
          IntegrateStep(grid, i, j, k, dt, speed, sqrt, s, v0);
        }
      }
    }
  }

  /** Phase 3: semi-implicit Euler, the hard clamp, and the speed colour when it is on. */
  method Integrate(grid: Grille, dt: real, speed: bool, sqrt: real -> real)
    requires grid.Built()
    modifies grid, grid.vx, grid.vy, grid.vz
    ensures grid.Built()
    ensures grid.State() == LatticePhysics.Integrate(old(grid.State()), dt, speed, sqrt)
  {
    ghost var s := grid.State();
    ghost var v0 := grid.vertices;
    grid.StateMirrors();
    forall a, b, c | InLattice(a, b, c, grid.nx, grid.ny, grid.nz)
      ensures Vec3(grid.ax[a, b, c], grid.ay[a, b, c], grid.az[a, b, c]) == s.acc[grid.IndexOf(a, b, c)]
    {
      grid.CellOfIdx3(a, b, c);
    }
    assert IntegratedUpTo(grid, 0, 0, 0, v0, s, dt, speed, sqrt);
    IntegrateLoops(grid, dt, speed, sqrt, s, v0);
    ghost var r := LatticePhysics.Integrate(s, dt, speed, sqrt);
    forall id | 0 <= id < grid.N()
      ensures grid.State().pos[id] == r.pos[id] && grid.State().vel[id] == r.vel[id]
      ensures grid.State().colour[id] == r.colour[id]
    {
      var c := grid.CellOf(id);
      assert PositionOf(v0[id]) == s.pos[id] && ColourOf(v0[id]) == s.colour[id];
    }
    assert grid.State() == r;
  }

  /** `UpdateGrid`: one time step, the four phases in order, each over the
      whole lattice before the next starts. */
  method UpdateGrid(dt: real, grid: Grille, pressure: bool, speed: bool, sqrt: real -> real)
    requires grid.Built()
    modifies grid, grid.vx, grid.vy, grid.vz, grid.ax, grid.ay, grid.az, grid.div
    ensures grid.Built()
    ensures grid.State() == Step(old(grid.State()), dt, pressure, speed, sqrt)
  {
    var restDensity := RestDensity(grid.N());
    ResetAccelerations(grid);
    ComputeDensities(grid, sqrt);
    ComputeForces(grid, restDensity, pressure, speed, sqrt);
    Integrate(grid, dt, speed, sqrt);
  }

  /** The vertex `CreateGrid` places at cell (i, j, k): (i*scale, j*scale + 5, k*scale), black. */
  function Placed(i: int, j: int, k: int, scale: real): Vertex {
    Vertex(i as real * scale, j as real * scale + 5.0, k as real * scale, 0.0, 0.0, 0.0)
  }

  /** The triple loop of `CreateGrid` over a zero-filled vertex list. */
  method PlaceVertices(grid: Grille, scale: real)
    requires grid.Valid()
    modifies grid
    ensures grid.Built()
    ensures forall a, b, c :: InLattice(a, b, c, grid.nx, grid.ny, grid.nz) ==>
      grid.vertices[grid.IndexOf(a, b, c)] == Placed(a, b, c, scale)
  {
    grid.vertices := seq(grid.N(), _ => Vertex(0.0, 0.0, 0.0, 0.0, 0.0, 0.0));
    for i := 0 to grid.nx
      invariant |grid.vertices| == grid.N()
      invariant forall a, b, c :: InLattice(a, b, c, grid.nx, grid.ny, grid.nz) && a < i ==>
        grid.vertices[grid.IndexOf(a, b, c)] == Placed(a, b, c, scale)
    {
      for j := 0 to grid.ny
        invariant |grid.vertices| == grid.N()
        invariant forall a, b, c :: InLattice(a, b, c, grid.nx, grid.ny, grid.nz) && Before(a, b, c, i, j, 0) ==>
          grid.vertices[grid.IndexOf(a, b, c)] == Placed(a, b, c, scale)
      {
        for k := 0 to grid.nz
          invariant |grid.vertices| == grid.N()
          invariant forall a, b, c :: InLattice(a, b, c, grid.nx, grid.ny, grid.nz) && Before(a, b, c, i, j, k) ==>
            grid.vertices[grid.IndexOf(a, b, c)] == Placed(a, b, c, scale)
        {
          var id := grid.IndexOf(i, j, k);
          forall a, b, c | InLattice(a, b, c, grid.nx, grid.ny, grid.nz) && Before(a, b, c, i, j, k)
            ensures grid.IndexOf(a, b, c) != id
          {
            if grid.IndexOf(a, b, c) == id {
              Idx3Injective(a, b, c, i, j, k, grid.ny, grid.nz);
            }
          }
          grid.vertices := grid.vertices[id := Placed(i, j, k, scale)];
        }
      }
    }
  }

  /** `CreateGrid`: a fresh lattice whose particles sit on a regular grid of
      spacing scale lifted by 5 along y, at rest, with every field zero. */
  method CreateGrid(resolutionX: nat, resolutionY: nat, resolutionZ: nat, scale: real) returns (grid: Grille)
    ensures fresh(grid) && grid.Built()
    ensures grid.nx == resolutionX && grid.ny == resolutionY && grid.nz == resolutionZ
    ensures forall a, b, c :: InLattice(a, b, c, grid.nx, grid.ny, grid.nz) ==>
      grid.vertices[grid.IndexOf(a, b, c)] == Placed(a, b, c, scale) &&
      grid.vx[a, b, c] == 0.0 && grid.vy[a, b, c] == 0.0 && grid.vz[a, b, c] == 0.0 &&
      grid.ax[a, b, c] == 0.0 && grid.ay[a, b, c] == 0.0 && grid.az[a, b, c] == 0.0 && grid.div[a, b, c] == 0.0
  {
    grid := new Grille(resolutionX, resolutionY, resolutionZ);
    PlaceVertices(grid, scale);
  }

  /** The result of `ComputeAverageVelocity`: the mean velocity in x, y, z with
      a black colour, or NaN components when the lattice is empty (0 / 0). */
  datatype Average = Finite(v: Vertex) | NaN

  /** The innermost loop of `ComputeAverageVelocity` over row (i, j). */
  method SumRow(grid: Grille, i: nat, j: nat, tx: real, ty: real, tz: real, ghost vel: seq<Vec3>, ghost dens: seq<real>)
    returns (tx': real, ty': real, tz': real)
    requires grid.Readable() && grid.Mirrors(vel, dens) && i < grid.nx && j < grid.ny
    requires 0 <= Idx3(i, j, 0, grid.ny, grid.nz) <= |vel|
    requires Vec3(tx, ty, tz) == SumUpTo(vel, Idx3(i, j, 0, grid.ny, grid.nz))
    ensures 0 <= Idx3(i, j + 1, 0, grid.ny, grid.nz) <= |vel|
    ensures Vec3(tx', ty', tz') == SumUpTo(vel, Idx3(i, j + 1, 0, grid.ny, grid.nz))
  {
    tx', ty', tz' := tx, ty, tz;
    for k := 0 to grid.nz
      invariant 0 <= Idx3(i, j, k, grid.ny, grid.nz) <= |vel|
      invariant Vec3(tx', ty', tz') == SumUpTo(vel, Idx3(i, j, k, grid.ny, grid.nz))
    {
      assert vel[grid.IndexOf(i, j, k)] == Vec3(grid.vx[i, j, k], grid.vy[i, j, k], grid.vz[i, j, k]);
      tx' := tx' + grid.vx[i, j, k];
      ty' := ty' + grid.vy[i, j, k];
      tz' := tz' + grid.vz[i, j, k];
      Idx3Within(i, j, k + 1, grid.nx, grid.ny, grid.nz);
    }
    Idx3RowEnd(i, j, grid.ny, grid.nz);
    Idx3Within(i, j + 1, 0, grid.nx, grid.ny, grid.nz);
  }

  /** `ComputeAverageVelocity`: the component-wise mean of the velocity field. */
  method ComputeAverageVelocity(grid: Grille) returns (avg: Average)
    requires grid.Built()
    ensures grid.N() == 0 ==> avg == NaN
    ensures grid.N() > 0 ==>
      var m := Mean(grid.State().vel); avg == Finite(Vertex(m.x, m.y, m.z, 0.0, 0.0, 0.0))
  {
    ghost var vel := grid.State().vel;
    ghost var dens := grid.State().density;
    grid.StateMirrors();
    var totalX, totalY, totalZ := 0.0, 0.0, 0.0;
    for i := 0 to grid.nx
      invariant 0 <= Idx3(i, 0, 0, grid.ny, grid.nz) <= grid.N()
      invariant Vec3(totalX, totalY, totalZ) == SumUpTo(vel, Idx3(i, 0, 0, grid.ny, grid.nz))
    {
      for j := 0 to grid.ny
        invariant 0 <= Idx3(i, j, 0, grid.ny, grid.nz) <= grid.N()
        invariant Vec3(totalX, totalY, totalZ) == SumUpTo(vel, Idx3(i, j, 0, grid.ny, grid.nz))
      {
        totalX, totalY, totalZ := SumRow(grid, i, j, totalX, totalY, totalZ, vel, dens);
      }
      Idx3PlaneEnd(i, grid.ny, grid.nz);
      Idx3Within(i + 1, 0, 0, grid.nx, grid.ny, grid.nz);
    }
    Idx3End(grid.nx, grid.ny, grid.nz);
    var count := grid.N();
    if count == 0 {
      return NaN;
    }
    avg := Finite(Vertex(totalX / count as real, totalY / count as real, totalZ / count as real, 0.0, 0.0, 0.0));
  }

  /** The mean velocity of a lattice straight out of `CreateGrid` is (0, 0, 0),
      or NaN when the lattice is empty. */
  method FreshAverage(resolutionX: nat, resolutionY: nat, resolutionZ: nat, scale: real) returns (avg: Average)
    ensures resolutionX * resolutionY * resolutionZ > 0 ==> avg == Finite(Vertex(0.0, 0.0, 0.0, 0.0, 0.0, 0.0))
    ensures resolutionX * resolutionY * resolutionZ == 0 ==> avg == NaN
  {
    var grid := CreateGrid(resolutionX, resolutionY, resolutionZ, scale);
    ghost var vel := grid.State().vel;
    forall id | 0 <= id < |vel|
      ensures vel[id] == Zero
    {
      var cell := grid.CellOf(id);
    }
    if grid.N() > 0 {
      LatticeProperties.MeanOfRest(vel);
    }
    avg := ComputeAverageVelocity(grid);
  }
}
