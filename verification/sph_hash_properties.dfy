/** What `get_neighbors` promises: it returns only particles closer than the
    radius, all of them when the radius does not exceed the cell size, each
    at most once; and what rebuilding the hash from a particle list gives. */
module SphHashProperties {
  import opened Numerics
  import opened Plane
  import opened SphParticle
  import opened SphHash

  /** p is held in the bucket of cell d. */
  ghost predicate InBucket(grid: map<Cell, seq<Particle>>, d: Cell, p: Particle) {
    d in grid && p in grid[d]
  }

  /** A bucket's survivors are exactly its particles closer than the radius. */
  lemma {:induction false} NearMembers(bucket: seq<Particle>, q: Vec2, radius: real, sqrt: real -> real, p: Particle)
    ensures p in Near(bucket, q, radius, sqrt) <==> p in bucket && Distance(p, q, sqrt) < radius
    decreases |bucket|
  {
    if bucket != [] {
      var init := bucket[..|bucket| - 1];
      NearMembers(init, q, radius, sqrt, p);
      assert bucket == init + [bucket[|bucket| - 1]];
    }
  }

  /** Filtering keeps a duplicate-free bucket duplicate-free. */
  lemma {:induction false} NearDistinct(bucket: seq<Particle>, q: Vec2, radius: real, sqrt: real -> real)
    requires Distinct(bucket)
    ensures Distinct(Near(bucket, q, radius, sqrt))
    decreases |bucket|
  {
    if bucket != [] {
      var init := bucket[..|bucket| - 1];
      var p := bucket[|bucket| - 1];
      NearDistinct(init, q, radius, sqrt);
      if Distance(p, q, sqrt) < radius {
        var rest := Near(init, q, radius, sqrt);
        forall x | x in rest
          ensures x != p
        {
          NearMembers(init, q, radius, sqrt, x);
          var i :| 0 <= i < |init| && init[i] == x;
          assert bucket[i] == x;
        }
        AppendDistinct(rest, p);
      }
    }
  }

  lemma AppendDistinct(s: seq<Particle>, p: Particle)
    requires Distinct(s) && p !in s
    ensures Distinct(s + [p])
  {
  }

  lemma ConcatDistinct(a: seq<Particle>, b: seq<Particle>)
    requires Distinct(a) && Distinct(b)
    requires forall x | x in a :: x !in b
    ensures Distinct(a + b)
  {
    var s := a + b;
    forall i, j | 0 <= i < j < |s|
      ensures s[i] != s[j]
    {
      if j < |a| {
      } else if i >= |a| {
        assert s[i] == b[i - |a|] && s[j] == b[j - |a|];
      } else {
        assert s[i] in a && s[j] == b[j - |a|];
      }
    }
  }

  /** A particle is gathered exactly when some offset's cell holds it and it is
      closer than the radius. */
  lemma {:induction false} GatheredMembers(grid: map<Cell, seq<Particle>>, c: Cell, offsets: seq<Cell>, q: Vec2,
                                           radius: real, sqrt: real -> real, p: Particle)
    ensures p in Gathered(grid, c, offsets, q, radius, sqrt) <==>
      Distance(p, q, sqrt) < radius && exists k | 0 <= k < |offsets| :: InBucket(grid, Shift(c, offsets[k]), p)
    decreases |offsets|
  {
    if offsets != [] {
      var n := |offsets| - 1;
      var init := offsets[..n];
      GatheredMembers(grid, c, init, q, radius, sqrt, p);
      var d := Shift(c, offsets[n]);
      if d in grid {
        NearMembers(grid[d], q, radius, sqrt, p);
      }
      if exists k | 0 <= k < |offsets| :: InBucket(grid, Shift(c, offsets[k]), p) {
        var k :| 0 <= k < |offsets| && InBucket(grid, Shift(c, offsets[k]), p);
        if k < n {
          assert init[k] == offsets[k];
        }
      }
      if exists k | 0 <= k < |init| :: InBucket(grid, Shift(c, init[k]), p) {
        var k :| 0 <= k < |init| && InBucket(grid, Shift(c, init[k]), p);
        assert offsets[k] == init[k];
      }
    }
  }

  /** Soundness: every particle returned is stored, closer than the radius, and
      (on an indexed grid) in one of the nine cells around the query point. */
  lemma NeighboursSound(grid: map<Cell, seq<Particle>>, cellSize: real, q: Vec2, radius: real,
                        sqrt: real -> real, p: Particle)
    requires 0.0 < cellSize
    requires p in Neighbours(grid, cellSize, q, radius, sqrt)
    ensures p in Stored(grid) && Distance(p, q, sqrt) < radius
    ensures Indexed(grid, cellSize) ==>
      exists k | 0 <= k < |Offsets| :: HashOf(p.position, cellSize) == Shift(HashOf(q, cellSize), Offsets[k])
  {
    GatheredMembers(grid, HashOf(q, cellSize), Offsets, q, radius, sqrt, p);
    var k :| 0 <= k < |Offsets| && InBucket(grid, Shift(HashOf(q, cellSize), Offsets[k]), p);
    var d := Shift(HashOf(q, cellSize), Offsets[k]);
    assert p in Stored(grid);
  }

  /** Everything a query returns is held in the hash. */
  lemma NeighboursStored(grid: map<Cell, seq<Particle>>, cellSize: real, q: Vec2, radius: real, sqrt: real -> real)
    requires 0.0 < cellSize
    ensures forall x | x in Neighbours(grid, cellSize, q, radius, sqrt) :: x in Stored(grid)
  {
    forall x | x in Neighbours(grid, cellSize, q, radius, sqrt)
      ensures x in Stored(grid)
    {
      NeighboursSound(grid, cellSize, q, radius, sqrt, x);
    }
  }

  /** Closer than the radius means closer than the radius on each axis. */
  lemma AxisClose(d: Vec2, radius: real, sqrt: real -> real)
    requires IsSqrt(sqrt) && sqrt(NormSq(d)) < radius
    ensures -radius < d.x < radius && -radius < d.y < radius
  {
    NormSqNonNegative(d);
    var s := sqrt(NormSq(d));
    assert 0.0 <= s && s * s == NormSq(d);
    SquareStrictMono(s, radius);
    var xx, yy := d.x * d.x, d.y * d.y;
    assert 0.0 <= xx && 0.0 <= yy;
    SquareBound(d.x, radius);
    SquareBound(d.y, radius);
  }

  /** a^2 < r^2 with r positive puts a strictly between -r and r. */
  lemma SquareBound(a: real, r: real)
    requires 0.0 < r && a * a < r * r
    ensures -r < a < r
  {
    NegSquare(a);
    if a >= r {
      SquareMono(r, a);
    } else if a <= -r {
      SquareMono(r, -a);
    }
  }

  lemma NegSquare(a: real)
    ensures (-a) * (-a) == a * a
  {
  }

  /** Two points less than one cell apart on an axis lie in the same or
      neighbouring cells on that axis. */
  lemma CellsAdjacent(a: int, b: int, s: real, x: real, y: real)
    requires 0.0 < s
    requires a as real * s <= x < a as real * s + s
    requires b as real * s <= y < b as real * s + s
    requires -s < x - y < s
    ensures -1 <= a - b <= 1
  {
    var k := (a - b) as real;
    assert k * s == a as real * s - b as real * s;
    assert (k - 2.0) * s == k * s - 2.0 * s;
    assert (-2.0 - k) * s == -2.0 * s - k * s;
    if a - b >= 2 {
      MulNonNegative(k - 2.0, s);
    } else if a - b <= -2 {
      MulNonNegative(-2.0 - k, s);
    }
  }

  lemma MulNonNegative(a: real, b: real)
    requires 0.0 <= a && 0.0 <= b
    ensures 0.0 <= a * b
  {
  }

  /** The offset at position 3 (di + 1) + (dj + 1) of the block is (di, dj). */
  lemma OffsetAt(di: int, dj: int)
    requires -1 <= di <= 1 && -1 <= dj <= 1
    ensures Offsets[3 * (di + 1) + (dj + 1)] == (di, dj)
  {
  }

  /** A point closer than the radius to q, with the radius at most the cell
      size, lies in one of the nine cells around q's cell. */
  lemma NearbyCell(x: Vec2, q: Vec2, cellSize: real, radius: real, sqrt: real -> real) returns (k: nat)
    requires IsSqrt(sqrt) && 0.0 < radius <= cellSize
    requires sqrt(NormSq(Sub(x, q))) < radius
    ensures k < |Offsets| && HashOf(x, cellSize) == Shift(HashOf(q, cellSize), Offsets[k])
  {
    var dv := Sub(x, q);
    AxisClose(dv, radius, sqrt);
    k := OffsetBetween(x, q, cellSize);
  }

  /** Points less than a cell apart on both axes hash to cells at most one
      apart on each axis: the offset between them is one of the block's. */
  lemma OffsetBetween(x: Vec2, q: Vec2, cellSize: real) returns (k: nat)
    requires 0.0 < cellSize
    requires -cellSize < x.x - q.x < cellSize && -cellSize < x.y - q.y < cellSize
    ensures k < |Offsets| && HashOf(x, cellSize) == Shift(HashOf(q, cellSize), Offsets[k])
  {
    AxisAdjacent(x.x, q.x, cellSize);
    AxisAdjacent(x.y, q.y, cellSize);
    var di := (x.x / cellSize).Floor - (q.x / cellSize).Floor;
    var dj := (x.y / cellSize).Floor - (q.y / cellSize).Floor;
    OffsetAt(di, dj);
    k := 3 * (di + 1) + (dj + 1);
  }

  lemma AxisAdjacent(u: real, v: real, s: real)
    requires 0.0 < s && -s < u - v < s
    ensures -1 <= (u / s).Floor - (v / s).Floor <= 1
  {
    FloorCell(u, s);
    FloorCell(v, s);
    CellsAdjacent((u / s).Floor, (v / s).Floor, s, u, v);
  }

  /** Completeness: when the radius is at most the cell size, every stored
      particle closer than the radius is returned, as the docstring promises. */
  lemma NeighboursComplete(grid: map<Cell, seq<Particle>>, cellSize: real, q: Vec2, radius: real,
                           sqrt: real -> real, p: Particle)
    requires IsSqrt(sqrt) && 0.0 < radius <= cellSize
    requires Indexed(grid, cellSize)
    requires p in Stored(grid) && Distance(p, q, sqrt) < radius
    ensures p in Neighbours(grid, cellSize, q, radius, sqrt)
  {
    var c :| c in grid && p in grid[c];
    assert c == HashOf(p.position, cellSize);
    var k := NearbyCell(p.position, q, cellSize, radius, sqrt);
    assert InBucket(grid, Shift(HashOf(q, cellSize), Offsets[k]), p);
    GatheredMembers(grid, HashOf(q, cellSize), Offsets, q, radius, sqrt, p);
  }

  predicate DistinctCells(offsets: seq<Cell>) {
    forall i, j | 0 <= i < j < |offsets| :: offsets[i] != offsets[j]
  }

  /** On an indexed grid whose buckets hold no repeats, gathering over distinct
      offsets returns no particle twice. */
  lemma {:induction false} GatheredDistinct(grid: map<Cell, seq<Particle>>, cellSize: real, c: Cell, offsets: seq<Cell>,
                                            q: Vec2, radius: real, sqrt: real -> real)
    requires 0.0 < cellSize && Indexed(grid, cellSize) && NoRepeats(grid) && DistinctCells(offsets)
    ensures Distinct(Gathered(grid, c, offsets, q, radius, sqrt))
    decreases |offsets|
  {
    if offsets != [] {
      var n := |offsets| - 1;
      var init := offsets[..n];
      GatheredDistinct(grid, cellSize, c, init, q, radius, sqrt);
      var d := Shift(c, offsets[n]);
      if d in grid {
        var rest := Gathered(grid, c, init, q, radius, sqrt);
        var near := Near(grid[d], q, radius, sqrt);
        NearDistinct(grid[d], q, radius, sqrt);
        forall x | x in rest
          ensures x !in near
        {
          GatheredMembers(grid, c, init, q, radius, sqrt, x);
          var k :| 0 <= k < |init| && InBucket(grid, Shift(c, init[k]), x);
          NearMembers(grid[d], q, radius, sqrt, x);
          assert init[k] == offsets[k] != offsets[n];
        }
        ConcatDistinct(rest, near);
      }
    }
  }

  /** A particle inserted once comes back at most once from a query. */
  lemma NeighboursDistinct(grid: map<Cell, seq<Particle>>, cellSize: real, q: Vec2, radius: real, sqrt: real -> real)
    requires 0.0 < cellSize && Indexed(grid, cellSize) && NoRepeats(grid)
    ensures Distinct(Neighbours(grid, cellSize, q, radius, sqrt))
  {
    GatheredDistinct(grid, cellSize, HashOf(q, cellSize), Offsets, q, radius, sqrt);
  }

  /** With cells of 0.5 and a radius of 0.8, a particle at (-0.6, 0) lies within
      the radius of the origin but two cells away from it, so the query at the
      origin misses it: completeness needs radius <= cell size. */
  lemma MissedBeyondCell(grid: map<Cell, seq<Particle>>, sqrt: real -> real, p: Particle)
    requires IsSqrt(sqrt) && Indexed(grid, 0.5)
    requires p in Stored(grid) && p.position == Vec2(-0.6, 0.0)
    ensures Distance(p, Vec2(0.0, 0.0), sqrt) < 0.8
    ensures p !in Neighbours(grid, 0.5, Vec2(0.0, 0.0), 0.8, sqrt)
  {
    WithinRadius(sqrt);
    TwoCellsAway();
    if p in Neighbours(grid, 0.5, Vec2(0.0, 0.0), 0.8, sqrt) {
      NeighboursSound(grid, 0.5, Vec2(0.0, 0.0), 0.8, sqrt, p);
    }
  }

  lemma WithinRadius(sqrt: real -> real)
    requires IsSqrt(sqrt)
    ensures sqrt(NormSq(Sub(Vec2(-0.6, 0.0), Vec2(0.0, 0.0)))) < 0.8
  {
    FarNormSq();
    RootBelow(sqrt, NormSq(Sub(Vec2(-0.6, 0.0), Vec2(0.0, 0.0))));
  }

  lemma FarNormSq()
    ensures NormSq(Sub(Vec2(-0.6, 0.0), Vec2(0.0, 0.0))) == 0.36
  {
    assert Sub(Vec2(-0.6, 0.0), Vec2(0.0, 0.0)) == Vec2(-0.6, 0.0);
    assert NormSq(Vec2(-0.6, 0.0)) == 0.36;
  }

  lemma RootBelow(sqrt: real -> real, n: real)
    requires IsSqrt(sqrt) && n == 0.36
    ensures sqrt(n) < 0.8
  {
    SqrtBelow(sqrt, n, 0.8);
  }

  /** (-0.6, 0) hashes two cells left of the origin's cell, outside its block. */
  lemma TwoCellsAway()
    ensures HashOf(Vec2(-0.6, 0.0), 0.5) == (-2, 0)
    ensures HashOf(Vec2(0.0, 0.0), 0.5) == (0, 0)
    ensures forall k | 0 <= k < |Offsets| :: Shift((0, 0), Offsets[k]) != (-2, 0)
  {
  }

  /** The grid `step` builds: the particles inserted in order into an empty hash. */
  function Built(ps: seq<Particle>, cellSize: real): (g: map<Cell, seq<Particle>>)
    requires 0.0 < cellSize
    reads ps`position
    decreases |ps|
  {
    if ps == [] then map[]
    else
      var p := ps[|ps| - 1];
      Appended(Built(ps[..|ps| - 1], cellSize), HashOf(p.position, cellSize), p)
  }

  /** Rebuilding stores exactly the listed particles, each in the bucket of its
      cell, and a list without repeats gives buckets without repeats. */
  lemma {:induction false} BuiltProperties(ps: seq<Particle>, cellSize: real)
    requires 0.0 < cellSize
    ensures Stored(Built(ps, cellSize)) == set p | p in ps
    ensures Indexed(Built(ps, cellSize), cellSize)
    ensures Distinct(ps) ==> NoRepeats(Built(ps, cellSize))
    decreases |ps|
  {
    if ps != [] {
      var init := ps[..|ps| - 1];
      var p := ps[|ps| - 1];
      BuiltProperties(init, cellSize);
      var g0 := Built(init, cellSize);
      var c := HashOf(p.position, cellSize);
      var g := Built(ps, cellSize);
      assert g == Appended(g0, c, p);
      assert ps == init + [p];
      forall x: Particle
        ensures x in Stored(g) <==> x in ps
      {
        if x in Stored(g) {
          var d :| d in g && x in g[d];
          if d == c {
            assert x in Bucket(g0, c) + [p];
            if x != p {
              assert x in Stored(g0);
            }
          } else {
            assert x in Stored(g0);
          }
        }
        if x in init {
          assert x in Stored(g0);
          var d :| d in g0 && x in g0[d];
          if d == c {
            assert x in g[d];
          } else {
            assert x in g[d];
          }
        }
        if x == p {
          assert x in g[c];
        }
      }
      forall d: Cell, x: Particle | d in g && x in g[d]
        ensures HashOf(x.position, cellSize) == d
      {
        if d == c && x != p {
          assert x in g0[d];
        } else if d != c {
          assert x in g0[d];
        }
      }
      if Distinct(ps) {
        assert Distinct(init);
        assert p !in Stored(g0);
        forall d | d in g
          ensures forall i, j | 0 <= i < j < |g[d]| :: g[d][i] != g[d][j]
        {
          if d == c {
            var b := Bucket(g0, c);
            assert p !in b;
            AppendDistinct(b, p);
          }
        }
      }
    }
  }
}
