/** The particle lattice of src/grid.hpp: a flat vertex list addressed by
    `idx3`, and one nx*ny*nz array per per-particle scalar field. */
module Lattice {
  import opened LatticeIndex
  import opened LatticePhysics

  /** Position and colour of one particle, as uploaded for drawing. */
  datatype Vertex = Vertex(x: real, y: real, z: real, r: real, g: real, b: real)

  function PositionOf(v: Vertex): Vec3 { Vec3(v.x, v.y, v.z) }
  function ColourOf(v: Vertex): Vec3 { Vec3(v.r, v.g, v.b) }

  /** v moved to p, its colour kept. */
  function WithPosition(v: Vertex, p: Vec3): Vertex { v.(x := p.x, y := p.y, z := p.z) }

  /** v with its colour replaced by c. */
  function WithColour(v: Vertex, c: Vec3): Vertex { v.(r := c.x, g := c.y, b := c.z) }

  function Positions(vs: seq<Vertex>): (ps: seq<Vec3>)
    ensures |ps| == |vs| && forall id :: 0 <= id < |vs| ==> ps[id] == PositionOf(vs[id])
  {
    seq(|vs|, id requires 0 <= id < |vs| => PositionOf(vs[id]))
  }

  function Colours(vs: seq<Vertex>): (cs: seq<Vec3>)
    ensures |cs| == |vs| && forall id :: 0 <= id < |vs| ==> cs[id] == ColourOf(vs[id])
  {
    seq(|vs|, id requires 0 <= id < |vs| => ColourOf(vs[id]))
  }

  /** A zero-filled nx*ny*nz field. */
  function Zeros3(nx: nat, ny: nat, nz: nat): ((nat, nat, nat) -> real) { (i, j, k) => 0.0 }

  /** A non-empty product has non-empty factors. */
  lemma NonEmptyDims(id: int, nx: nat, ny: nat, nz: nat)
    requires 0 <= id < nx * ny * nz
    ensures 0 < nx && 0 < ny && 0 < nz
  {
  }

  class Grille {
    var vertices: seq<Vertex>
    const nx: nat
    const ny: nat
    const nz: nat
    const vx: array3<real>
    const vy: array3<real>
    const vz: array3<real>
    const ax: array3<real>
    const ay: array3<real>
    const az: array3<real>
    const div: array3<real>

    /** Number of particles. */
    function N(): nat { nx * ny * nz }

    ghost predicate HasShape(a: array3<real>) {
      a.Length0 == nx && a.Length1 == ny && a.Length2 == nz
    }

    /** Every field has the lattice's shape and the seven fields are distinct arrays. */
    ghost predicate Valid() {
      HasShape(vx) && HasShape(vy) && HasShape(vz) && HasShape(ax) && HasShape(ay) && HasShape(az) && HasShape(div) &&
      vx != vy && vx != vz && vx != ax && vx != ay && vx != az && vx != div &&
      vy != vz && vy != ax && vy != ay && vy != az && vy != div &&
      vz != ax && vz != ay && vz != az && vz != div &&
      ax != ay && ax != az && ax != div &&
      ay != az && ay != div &&
      az != div
    }

    /** The fields the pair loops read have the lattice's shape, and there is one vertex per particle. */
    ghost predicate Readable()
      reads this
    {
      HasShape(vx) && HasShape(vy) && HasShape(vz) && HasShape(div) && |vertices| == N()
    }

    /** The lattice has been built: one vertex per particle. */
    ghost predicate Built()
      reads this
    {
      Valid() && |vertices| == N()
    }

    /** `Grille(nx, ny, nz)`: stores the resolution, zero-fills every field and leaves `vertices` empty. */
    constructor (nx_: nat, ny_: nat, nz_: nat)
      ensures nx == nx_ && ny == ny_ && nz == nz_
      ensures Valid() && vertices == []
      ensures fresh(vx) && fresh(vy) && fresh(vz) && fresh(ax) && fresh(ay) && fresh(az) && fresh(div)
      ensures forall i, j, k :: InLattice(i, j, k, nx, ny, nz) ==>
        vx[i, j, k] == 0.0 && vy[i, j, k] == 0.0 && vz[i, j, k] == 0.0 &&
        ax[i, j, k] == 0.0 && ay[i, j, k] == 0.0 && az[i, j, k] == 0.0 && div[i, j, k] == 0.0
    {
      nx, ny, nz := nx_, ny_, nz_;
      vertices := [];
      vx := new real[nx_, ny_, nz_](Zeros3(nx_, ny_, nz_));
      vy := new real[nx_, ny_, nz_](Zeros3(nx_, ny_, nz_));
      vz := new real[nx_, ny_, nz_](Zeros3(nx_, ny_, nz_));
      ax := new real[nx_, ny_, nz_](Zeros3(nx_, ny_, nz_));
      ay := new real[nx_, ny_, nz_](Zeros3(nx_, ny_, nz_));
      az := new real[nx_, ny_, nz_](Zeros3(nx_, ny_, nz_));
      div := new real[nx_, ny_, nz_](Zeros3(nx_, ny_, nz_));
    }

    /** `idx3(i, j, k, ny, nz)` for a cell of this lattice, with its range. */
    function IndexOf(i: int, j: int, k: int): (id: nat)
      requires InLattice(i, j, k, nx, ny, nz)
      ensures id == Idx3(i, j, k, ny, nz) && id < N()
    {
      Idx3InRange(i, j, k, nx, ny, nz);
      Idx3(i, j, k, ny, nz)
    }

    /** vel and dens hold the velocity and density fields in flat-index order. */
    ghost predicate Mirrors(vel: seq<Vec3>, dens: seq<real>)
      reads vx, vy, vz, div
      requires HasShape(vx) && HasShape(vy) && HasShape(vz) && HasShape(div)
    {
      |vel| == N() && |dens| == N() &&
      forall a, b, c :: InLattice(a, b, c, nx, ny, nz) ==>
        vel[IndexOf(a, b, c)] == Vec3(vx[a, b, c], vy[a, b, c], vz[a, b, c]) && dens[IndexOf(a, b, c)] == div[a, b, c]
    }

    /** The velocity and density fields of the snapshot are the arrays' contents. */
    lemma StateMirrors()
      requires Built()
      ensures Mirrors(State().vel, State().density)
    {
      forall a, b, c | InLattice(a, b, c, nx, ny, nz)
        ensures State().vel[IndexOf(a, b, c)] == Vec3(vx[a, b, c], vy[a, b, c], vz[a, b, c])
        ensures State().density[IndexOf(a, b, c)] == div[a, b, c]
      {
        CellOfIdx3(a, b, c);
      }
    }

    /** The cell of the field arrays that holds the particle with flat index id. */
    ghost function CellOf(id: int): (c: (nat, nat, nat))
      requires Valid() && 0 <= id < N()
      ensures InLattice(c.0, c.1, c.2, nx, ny, nz) && Idx3(c.0, c.1, c.2, ny, nz) == id
    {
      NonEmptyDims(id, nx, ny, nz);
      CoordInRange(id, nx, ny, nz);
      var w := (CoordI(id, ny, nz), CoordJ(id, ny, nz), CoordK(id, ny, nz));
      assert InLattice(w.0, w.1, w.2, nx, ny, nz) && Idx3(w.0, w.1, w.2, ny, nz) == id;
      var c: (nat, nat, nat) :| InLattice(c.0, c.1, c.2, nx, ny, nz) && Idx3(c.0, c.1, c.2, ny, nz) == id;
      c
    }

    /** The cell (i, j, k) holds particle idx3(i, j, k). */
    lemma CellOfIdx3(i: int, j: int, k: int)
      requires Valid() && InLattice(i, j, k, nx, ny, nz)
      ensures 0 <= Idx3(i, j, k, ny, nz) < N()
      ensures CellOf(Idx3(i, j, k, ny, nz)) == (i, j, k)
    {
      Idx3InRange(i, j, k, nx, ny, nz);
      var c := CellOf(Idx3(i, j, k, ny, nz));
      Idx3Injective(c.0, c.1, c.2, i, j, k, ny, nz);
    }

    ghost function Field(a: array3<real>): (f: seq<real>)
      reads a
      requires Valid() && HasShape(a)
      ensures |f| == N()
    {
      seq(N(), id requires 0 <= id < N() reads a => var c := CellOf(id); a[c.0, c.1, c.2])
    }

    ghost function Field3(a: array3<real>, b: array3<real>, c: array3<real>): (f: seq<Vec3>)
      reads a, b, c
      requires Valid() && HasShape(a) && HasShape(b) && HasShape(c)
      ensures |f| == N()
    {
      seq(N(), id requires 0 <= id < N() reads a, b, c =>
        var p := CellOf(id); Vec3(a[p.0, p.1, p.2], b[p.0, p.1, p.2], c[p.0, p.1, p.2]))
    }

    /** The whole lattice as a value, in flat-index order. */
    ghost function State(): (s: Snapshot)
      reads this, vx, vy, vz, ax, ay, az, div
      requires Built()
      ensures WellFormed(s) && |s.pos| == N()
    {
      Snapshot(Positions(vertices), Field3(vx, vy, vz), Field3(ax, ay, az), Field(div), Colours(vertices))
    }
  }
}
