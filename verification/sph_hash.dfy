/** The uniform-grid spatial hash of spatial_hash.py: a map from a cell (the
    floor of position / cell_size on each axis) to the particles inserted there,
    queried over the 3x3 block of cells around a point. */
module SphHash {
  import opened Numerics
  import opened Plane
  import opened SphParticle

  type Cell = (int, int)

  /** Bucket of a cell; a cell never written to reads as empty. */
  function Bucket(grid: map<Cell, seq<Particle>>, c: Cell): seq<Particle> {
    if c in grid then grid[c] else []
  }

  /** The map after appending p to the bucket of cell c (creating the bucket if needed). */
  function Appended(grid: map<Cell, seq<Particle>>, c: Cell, p: Particle): (g: map<Cell, seq<Particle>>)
    ensures g.Keys == grid.Keys + {c}
    ensures g[c] == Bucket(grid, c) + [p]
    ensures forall d | d in grid && d != c :: g[d] == grid[d]
  {
    grid[c := Bucket(grid, c) + [p]]
  }

  /** Every particle held in some bucket. */
  ghost function Stored(grid: map<Cell, seq<Particle>>): set<Particle> {
    set c, p | c in grid && p in grid[c] :: p
  }

  /** The bounds of one axis of a cell: floor(x / s) * s <= x < floor(x / s) * s + s. */
  lemma FloorCell(x: real, s: real)
    requires 0.0 < s
    ensures (x / s).Floor as real * s <= x < (x / s).Floor as real * s + s
  {
    var f := (x / s).Floor as real;
    CellLower(x, s, f);
    CellUpper(x, s, f);
  }

  lemma CellLower(x: real, s: real, f: real)
    requires 0.0 < s && f <= x / s
    ensures f * s <= x
  {
    var d := x / s - f;
    assert d * s >= 0.0;
    assert d * s == x - f * s;
  }

  lemma CellUpper(x: real, s: real, f: real)
    requires 0.0 < s && x / s < f + 1.0
    ensures x < f * s + s
  {
    var d := f + 1.0 - x / s;
    assert d * s > 0.0;
    assert d * s == f * s + s - x;
  }

  /** `_hash(position)`: the cell holding a point. */
  function HashOf(p: Vec2, cellSize: real): Cell
    requires 0.0 < cellSize
  {
    ((p.x / cellSize).Floor, (p.y / cellSize).Floor)
  }

  /** The cell `_hash` picks contains the point: on each axis the point lies in
      [i * cell_size, (i + 1) * cell_size). */
  lemma HashContains(p: Vec2, cellSize: real)
    requires 0.0 < cellSize
    ensures HashOf(p, cellSize).0 as real * cellSize <= p.x < HashOf(p, cellSize).0 as real * cellSize + cellSize
    ensures HashOf(p, cellSize).1 as real * cellSize <= p.y < HashOf(p, cellSize).1 as real * cellSize + cellSize
  {
    FloorCell(p.x, cellSize);
    FloorCell(p.y, cellSize);
  }

  /** Cell c moved by offset o. */
  function Shift(c: Cell, o: Cell): Cell { (c.0 + o.0, c.1 + o.1) }

  /** The 3x3 block around a cell, in the order of the two `for` loops over [-1, 0, 1]. */
  const Offsets: seq<Cell> := [(-1, -1), (-1, 0), (-1, 1), (0, -1), (0, 0), (0, 1), (1, -1), (1, 0), (1, 1)]

  /** `np.linalg.norm(p.position - q)`. */
  function Distance(p: Particle, q: Vec2, sqrt: real -> real): real
    reads p`position
  {
    sqrt(NormSq(Sub(p.position, q)))
  }

  /** The particles of one bucket closer than radius to q, in bucket order. */
  function Near(bucket: seq<Particle>, q: Vec2, radius: real, sqrt: real -> real): seq<Particle>
    reads bucket`position
    decreases |bucket|
  {
    if bucket == [] then []
    else
      var rest := Near(bucket[..|bucket| - 1], q, radius, sqrt);
      var p := bucket[|bucket| - 1];
      if Distance(p, q, sqrt) < radius then rest + [p] else rest
  }

  /** What the loops over the offsets collect around cell c, skipping cells
      that have no bucket. */
  function Gathered(grid: map<Cell, seq<Particle>>, c: Cell, offsets: seq<Cell>, q: Vec2, radius: real,
                    sqrt: real -> real): seq<Particle>
    reads Stored(grid)`position
    decreases |offsets|
  {
    if offsets == [] then []
    else
      var rest := Gathered(grid, c, offsets[..|offsets| - 1], q, radius, sqrt);
      var d := Shift(c, offsets[|offsets| - 1]);
      if d in grid then
        assert forall p | p in grid[d] :: p in Stored(grid);
        rest + Near(grid[d], q, radius, sqrt)
      else rest
  }

  /** `get_neighbors(position, radius)` on a grid with the given cell size. */
  function Neighbours(grid: map<Cell, seq<Particle>>, cellSize: real, q: Vec2, radius: real,
                      sqrt: real -> real): seq<Particle>
    requires 0.0 < cellSize
    reads Stored(grid)`position
  {
    Gathered(grid, HashOf(q, cellSize), Offsets, q, radius, sqrt)
  }

  /** Every particle sits in the bucket of its own cell. */
  ghost predicate Indexed(grid: map<Cell, seq<Particle>>, cellSize: real)
    requires 0.0 < cellSize
    reads Stored(grid)`position
  {
    forall c, p | c in grid && p in grid[c] :: HashOf(p.position, cellSize) == c
  }

  /** No bucket holds a particle twice. */
  ghost predicate NoRepeats(grid: map<Cell, seq<Particle>>) {
    forall c | c in grid :: forall i, j | 0 <= i < j < |grid[c]| :: grid[c][i] != grid[c][j]
  }

  predicate Distinct(s: seq<Particle>) {
    forall i, j | 0 <= i < j < |s| :: s[i] != s[j]
  }

  class SpatialHash {
    var cellSize: real
    var grid: map<Cell, seq<Particle>>

    /** `SpatialHash(cell_size)`: no buckets yet. */
    constructor (cellSize: real)
      ensures this.cellSize == cellSize && grid == map[]
    {
      this.cellSize := cellSize;
      grid := map[];
    }

    /** `clear()`: drops every bucket. */
    method Clear()
      modifies this
      ensures grid == map[] && cellSize == old(cellSize)
    {
      grid := map[];
    }

    /** `insert(particle)`: appends the particle to the bucket of its cell. */
    method Insert(particle: Particle)
      requires 0.0 < cellSize
      modifies this
      ensures cellSize == old(cellSize)
      ensures grid == Appended(old(grid), HashOf(particle.position, cellSize), particle)
    {
      var cell := HashOf(particle.position, cellSize);
      var bucket := if cell in grid then grid[cell] else [];
      grid := grid[cell := bucket + [particle]];
    }

    /** `get_neighbors(position, radius)`. */
    method GetNeighbors(position: Vec2, radius: real, sqrt: real -> real) returns (neighbors: seq<Particle>)
      requires 0.0 < cellSize
      ensures neighbors == Neighbours(grid, cellSize, position, radius, sqrt)
    {
      neighbors := [];
      var cell := HashOf(position, cellSize);
      var steps := [-1, 0, 1];
      var a := 0;
      while a < 3
        invariant 0 <= a <= 3
        invariant neighbors == Gathered(grid, cell, Offsets[..3 * a], position, radius, sqrt)
      {
        var b := 0;
        while b < 3
          invariant 0 <= b <= 3
          invariant neighbors == Gathered(grid, cell, Offsets[..3 * a + b], position, radius, sqrt)
        {
          var neighborCell := (cell.0 + steps[a], cell.1 + steps[b]);
          assert Offsets[3 * a + b] == (steps[a], steps[b]);
          assert Offsets[..3 * a + b + 1][..3 * a + b] == Offsets[..3 * a + b];
          ghost var before := neighbors;
          if neighborCell in grid {
            var bucket := grid[neighborCell];
            var t := 0;
            while t < |bucket|
              invariant 0 <= t <= |bucket|
              invariant neighbors == before + Near(bucket[..t], position, radius, sqrt)
            {
              var particle := bucket[t];
              assert bucket[..t + 1][..t] == bucket[..t];
              var dist := sqrt(NormSq(Sub(particle.position, position)));
              if dist < radius {
                neighbors := neighbors + [particle];
              }
              t := t + 1;
            }
            assert bucket[..t] == bucket;
          }
          b := b + 1;
        }
        assert 3 * a + 3 == 3 * (a + 1);
        a := a + 1;
      }
      assert Offsets[..9] == Offsets;
    }
  }
}
