/** The flat-index mapping `idx3` of src/grid.hpp and its inverse. */
module LatticeIndex {

  /** `idx3(i, j, k, ny, nz)`: row-major position of cell (i, j, k). */
  function Idx3(i: int, j: int, k: int, ny: int, nz: int): int {
    i * (ny * nz) + j * nz + k
  }

  /** The three coordinates recovered from a flat index. */
  function CoordI(id: int, ny: int, nz: int): int requires 0 < ny && 0 < nz { id / (ny * nz) }
  function CoordJ(id: int, ny: int, nz: int): int requires 0 < ny && 0 < nz { (id / nz) % ny }
  function CoordK(id: int, ny: int, nz: int): int requires 0 < ny && 0 < nz { id % nz }

  predicate InLattice(i: int, j: int, k: int, nx: int, ny: int, nz: int) {
    0 <= i < nx && 0 <= j < ny && 0 <= k < nz
  }

  lemma MulLe(a: int, b: int, d: int)
    requires a <= b && 0 <= d
    ensures a * d <= b * d
  {
    assert (b - a) * d >= 0;
  }

  /** Euclidean division undoes `q * d + r` when 0 <= r < d. */
  lemma DivModUnique(q: int, d: int, r: int)
    requires 0 < d && 0 <= r < d
    ensures (q * d + r) / d == q && (q * d + r) % d == r
  {
    var n := q * d + r;
    var q', r' := n / d, n % d;
    assert n == q' * d + r' && 0 <= r' < d;
    if q' < q {
      MulLe(q' + 1, q, d);
      assert false;
    } else if q < q' {
      MulLe(q + 1, q', d);
      assert false;
    }
    assert q' * d == q * d;
  }

  /** Every in-range triple lands in [0, nx*ny*nz). */
  lemma Idx3InRange(i: int, j: int, k: int, nx: int, ny: int, nz: int)
    requires InLattice(i, j, k, nx, ny, nz)
    ensures 0 <= Idx3(i, j, k, ny, nz) < nx * ny * nz
  {
    var p := ny * nz;
    RowBelow(j, k, ny, nz);
    MulLe(0, i, p);
    MulLe(i, nx - 1, p);
    assert (nx - 1) * p == nx * p - p;
    Associate(nx, ny, nz);
  }

  /** The offset of (j, k) inside its plane lies in [0, ny*nz). */
  lemma RowBelow(j: int, k: int, ny: int, nz: int)
    requires 0 <= j < ny && 0 <= k < nz
    ensures 0 <= j * nz + k < ny * nz
  {
    MulLe(0, j, nz);
    MulLe(j, ny - 1, nz);
    assert (ny - 1) * nz == ny * nz - nz;
  }

  /** Decoding an encoded triple gives the triple back. */
  lemma Idx3Decode(i: int, j: int, k: int, ny: int, nz: int)
    requires 0 <= j < ny && 0 <= k < nz
    ensures CoordI(Idx3(i, j, k, ny, nz), ny, nz) == i
    ensures CoordJ(Idx3(i, j, k, ny, nz), ny, nz) == j
    ensures CoordK(Idx3(i, j, k, ny, nz), ny, nz) == k
  {
    var id := Idx3(i, j, k, ny, nz);
    RowBelow(j, k, ny, nz);
    DivModUnique(i, ny * nz, j * nz + k);
    assert id == (i * ny + j) * nz + k by {
      Associate(i, ny, nz);
      assert (i * ny + j) * nz == (i * ny) * nz + j * nz;
    }
    DivModUnique(i * ny + j, nz, k);
    DivModUnique(i, ny, j);
  }

  /** `idx3` is injective on in-range triples. */
  lemma Idx3Injective(i: int, j: int, k: int, i': int, j': int, k': int, ny: int, nz: int)
    requires 0 <= j < ny && 0 <= k < nz && 0 <= j' < ny && 0 <= k' < nz
    requires Idx3(i, j, k, ny, nz) == Idx3(i', j', k', ny, nz)
    ensures i == i' && j == j' && k == k'
  {
    Idx3Decode(i, j, k, ny, nz);
    Idx3Decode(i', j', k', ny, nz);
  }

  /** Every index in [0, nx*ny*nz) decodes to an in-range triple that encodes back to it. */
  lemma CoordInRange(id: int, nx: int, ny: int, nz: int)
    requires 0 < ny && 0 < nz && 0 <= id < nx * ny * nz
    ensures InLattice(CoordI(id, ny, nz), CoordJ(id, ny, nz), CoordK(id, ny, nz), nx, ny, nz)
    ensures Idx3(CoordI(id, ny, nz), CoordJ(id, ny, nz), CoordK(id, ny, nz), ny, nz) == id
  {
    var i, j, k := CoordI(id, ny, nz), CoordJ(id, ny, nz), CoordK(id, ny, nz);
    var m := id / nz;
    NestedDiv(id, m, ny, nz);
    Recompose(id, m, ny, nz);
    Associate(nx, ny, nz);
    IndexBelow(id, i, nx, ny * nz, j * nz + k);
  }

  lemma Associate(a: int, b: int, c: int)
    ensures a * b * c == a * (b * c)
  {
  }

  /** id == (id / (ny*nz)) * (ny*nz) + ((id / nz) % ny) * nz + id % nz, with the tail in [0, ny*nz). */
  lemma Recompose(id: int, m: int, ny: int, nz: int)
    requires 0 < ny && 0 < nz && m == id / nz && m / ny == id / (ny * nz)
    ensures id == (id / (ny * nz)) * (ny * nz) + (m % ny) * nz + id % nz
    ensures 0 <= (m % ny) * nz + id % nz < ny * nz
  {
    var k, j, q := id % nz, m % ny, m / ny;
    assert id == m * nz + k;
    assert m == q * ny + j;
    assert 0 <= j * nz + k < ny * nz by {
      MulLe(j, ny - 1, nz);
    }
    assert m * nz == q * (ny * nz) + j * nz by {
      assert m * nz == (q * ny + j) * nz;
    }
  }

  /** id / (ny*nz) == (id / nz) / ny. */
  lemma NestedDiv(id: int, m: int, ny: int, nz: int)
    requires 0 < ny && 0 < nz && m == id / nz
    ensures m / ny == id / (ny * nz)
  {
    var k, j, q := id % nz, m % ny, m / ny;
    assert id == m * nz + k;
    assert m == q * ny + j;
    assert 0 <= j * nz + k < ny * nz by {
      MulLe(j, ny - 1, nz);
    }
    assert id == q * (ny * nz) + (j * nz + k) by {
      assert m * nz == (q * ny + j) * nz;
    }
    DivModUnique(q, ny * nz, j * nz + k);
  }

  /** An index below nx*p whose quotient by p is i has i < nx. */
  lemma IndexBelow(id: int, i: int, nx: int, p: int, rest: int)
    requires 0 < p && 0 <= rest < p && id == i * p + rest && id < nx * p && 0 <= id
    ensures 0 <= i < nx
  {
    if nx <= i {
      MulLe(nx, i, p);
    }
    if i < 0 {
      MulLe(i, -1, p);
    }
  }

  /** The triple loops i, j, k visit flat indices in increasing order: the end of
      one row (k = nz) is the start of the next, and so on. */
  lemma Idx3RowEnd(i: int, j: int, ny: int, nz: int)
    ensures Idx3(i, j, nz, ny, nz) == Idx3(i, j + 1, 0, ny, nz)
  {
    assert (j + 1) * nz == j * nz + nz;
  }

  lemma Idx3PlaneEnd(i: int, ny: int, nz: int)
    ensures Idx3(i, ny, 0, ny, nz) == Idx3(i + 1, 0, 0, ny, nz)
  {
    assert (i + 1) * (ny * nz) == i * (ny * nz) + ny * nz;
  }

  lemma Idx3End(nx: int, ny: int, nz: int)
    ensures Idx3(nx, 0, 0, ny, nz) == nx * ny * nz
  {
    Associate(nx, ny, nz);
  }

  /** Every flat index the triple loops reach, including the end of a row or a
      plane, lies in [0, nx*ny*nz]. */
  lemma Idx3Within(i: int, j: int, k: int, nx: int, ny: int, nz: int)
    requires 0 <= i && 0 <= j && 0 <= k && 0 <= ny && 0 <= nz
    requires (i < nx && j < ny && k <= nz) || (i < nx && j <= ny && k == 0) || (i <= nx && j == 0 && k == 0)
    ensures 0 <= Idx3(i, j, k, ny, nz) <= nx * ny * nz
  {
    Associate(nx, ny, nz);
    var p := ny * nz;
    assert 0 <= p;
    assert 0 <= i * p by { MulLe(0, i, p); }
    assert 0 <= j * nz by { MulLe(0, j, nz); }
    if i < nx && j < ny && k <= nz {
      MulLe(j + 1, ny, nz);
      assert (j + 1) * nz == j * nz + nz;
      MulLe(i + 1, nx, p);
      assert (i + 1) * p == i * p + p;
    } else if i < nx && j <= ny && k == 0 {
      MulLe(j, ny, nz);
      MulLe(i + 1, nx, p);
      assert (i + 1) * p == i * p + p;
    } else {
      MulLe(i, nx, p);
    }
  }
}
