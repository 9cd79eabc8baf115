/** Placing particles in the cells of a box: one pass counts the particles of each cell, an exclusive sum turns the counts
    into offsets, and a second pass fills the slots and numbers the particles. */
module Injection {
  import opened Arith

  // ---------------------------------------------------------------- cells

  datatype Cell = Cell(i: int, j: int, k: int)

  datatype TileBox = TileBox(lo: Cell, hi: Cell)
  {
    ghost predicate Valid() { lo.i <= hi.i && lo.j <= hi.j && lo.k <= hi.k }
    function Nx(): int { hi.i - lo.i + 1 }
    function Ny(): int { hi.j - lo.j + 1 }
    function Nz(): int { hi.k - lo.k + 1 }
    predicate Contains(c: Cell) { lo.i <= c.i <= hi.i && lo.j <= c.j <= hi.j && lo.k <= c.k <= hi.k }
    function NumPts(): (n: int)
      ensures Valid() ==> n >= 1
    {
      if Nx() >= 1 && Ny() >= 1 && Nz() >= 1 then Product(Nx(), Ny()); Product(Nx() * Ny(), Nz()); Nx() * Ny() * Nz()
      else Nx() * Ny() * Nz()
    }
  }

  lemma Product(a: int, b: int)
    requires a >= 1 && b >= 1
    ensures a * b >= 1
  {
  }

  function Clamp(n: int, x: int): int {
    var m := if 0 > x then 0 else x;
    if n - 1 < m then n - 1 else m
  }

  function CellId(box: TileBox, c: Cell): int {
    var ix := Clamp(box.Nx(), c.i - box.lo.i);
    var iy := Clamp(box.Ny(), c.j - box.lo.j);
    var iz := Clamp(box.Nz(), c.k - box.lo.k);
    (ix * box.Ny() + iy) * box.Nz() + iz
  }

  /** The cell with a given id. */
  function CellOf(box: TileBox, id: int): Cell
    requires box.Valid()
  {
    Cell(box.lo.i + id / box.Nz() / box.Ny(), box.lo.j + id / box.Nz() % box.Ny(), box.lo.k + id % box.Nz())
  }

  lemma NonNeg(a: int, b: int)
    requires a >= 0 && b >= 0
    ensures a * b >= 0
  {
  }

  lemma Spread(a: int, d: int, m: int)
    ensures (a + d + 1) * m == a * m + d * m + m
  {
  }

  lemma Mixed(a: int, b: int, n: int, m: int)
    requires 0 <= a < n && 0 <= b < m
    ensures 0 <= a * m + b < n * m
  {
    NonNeg(a, m);
    NonNeg(n - 1 - a, m);
    Spread(a, n - 1 - a, m);
  }

  lemma Quotient(q: int, r: int, n: int, m: int)
    requires m > 0 && 0 <= r < m && 0 <= m * q + r < n * m
    ensures 0 <= q < n
  {
    if q >= n {
      NonNeg(q - n, m);
    } else if q < 0 {
      NonNeg(-1 - q, m);
    }
  }

  lemma Unmixed(x: int, n: int, m: int)
    requires m > 0 && 0 <= x < n * m
    ensures 0 <= x / m < n && 0 <= x % m < m
  {
    DivMod(x, m);
    Quotient(x / m, x % m, n, m);
  }

  /** Cell ids number the cells of the box from 0, without gaps or repeats. */
  lemma CellIdBijective(box: TileBox, c: Cell)
    requires box.Valid() && box.Contains(c)
    ensures 0 <= CellId(box, c) < box.NumPts() && CellOf(box, CellId(box, c)) == c
  {
    var ix, iy, iz := c.i - box.lo.i, c.j - box.lo.j, c.k - box.lo.k;
    Mixed(ix, iy, box.Nx(), box.Ny());
    Mixed(ix * box.Ny() + iy, iz, box.Nx() * box.Ny(), box.Nz());
    DivUnique((ix * box.Ny() + iy) * box.Nz() + iz, box.Nz(), ix * box.Ny() + iy, iz);
    DivUnique(ix * box.Ny() + iy, box.Ny(), ix, iy);
  }

  lemma CellOfBijective(box: TileBox, id: int)
    requires box.Valid() && 0 <= id < box.NumPts()
    ensures box.Contains(CellOf(box, id)) && CellId(box, CellOf(box, id)) == id
  {
    Unmixed(id, box.Nx() * box.Ny(), box.Nz());
    Unmixed(id / box.Nz(), box.Nx(), box.Ny());
    Joined(id, box.Nz());
    Joined(id / box.Nz(), box.Ny());
  }

  /** c comes before d when the cells are run through with k fastest and i slowest. */
  predicate Before(c: Cell, d: Cell) {
    c.i < d.i || (c.i == d.i && c.j < d.j) || (c.i == d.i && c.j == d.j && c.k < d.k)
  }

  /** Cell ids number the cells in this order. */
  lemma CellIdOrder(box: TileBox, c: Cell, d: Cell)
    requires box.Valid() && box.Contains(c) && box.Contains(d)
    ensures CellId(box, c) < CellId(box, d) <==> Before(c, d)
  {
    var u, v := (c.i - box.lo.i) * box.Ny() + (c.j - box.lo.j), (d.i - box.lo.i) * box.Ny() + (d.j - box.lo.j);
    DigitsOrder(c.i - box.lo.i, c.j - box.lo.j, d.i - box.lo.i, d.j - box.lo.j, box.Ny());
    DigitsOrder(u, c.k - box.lo.k, v, d.k - box.lo.k, box.Nz());
  }

  /** Numbers of two digits are ordered by the first one first. */
  lemma DigitsOrder(a: int, b: int, c: int, d: int, m: int)
    requires 0 <= b < m && 0 <= d < m
    ensures a * m + b < c * m + d <==> a < c || (a == c && b < d)
    ensures a * m + b == c * m + d <==> a == c && b == d
  {
    assert (c - a) * m == c * m - a * m;
    MulAtLeast(m, c - a);
  }

  lemma Joined(x: int, m: int)
    requires m > 0
    ensures x / m * m + x % m == x
  {
    DivMod(x, m);
  }

  // ---------------------------------------------------------------- particles inside a cell

  datatype Spacing = Spacing(nx: int, ny: int, nz: int)
  {
    ghost predicate Valid() { nx > 0 && ny > 0 && nz > 0 }
    function Num(): int { nx * ny * nz }
    /** The index of the particle at place (ix, iy, iz) of the cell's lattice. */
    function Index(ix: int, iy: int, iz: int): int { ix * (ny * nz) + (iz * ny + iy) }
  }

  function Ix(p: Spacing, n: int): int requires p.Valid() { n / (p.ny * p.nz) }
  function Iy(p: Spacing, n: int): int requires p.Valid() { n % (p.ny * p.nz) % p.ny }
  function Iz(p: Spacing, n: int): int requires p.Valid() { n % (p.ny * p.nz) / p.ny }

  lemma Decoded(p: Spacing, n: int)
    requires p.Valid() && 0 <= n < p.Num()
    ensures 0 <= Ix(p, n) < p.nx && 0 <= Iy(p, n) < p.ny && 0 <= Iz(p, n) < p.nz
    ensures p.Index(Ix(p, n), Iy(p, n), Iz(p, n)) == n
  {
    var m := p.ny * p.nz;
    assert p.Num() == p.nx * m;
    Unmixed(n, p.nx, m);
    DivMod(n, m);
    assert m == p.nz * p.ny;
    Unmixed(n % m, p.nz, p.ny);
    DivMod(n % m, p.ny);
  }

  lemma Digits(a: int, b: int, n: int, m: int, x: int)
    requires 0 <= a < n && 0 <= b < m && x == a * m + b
    ensures 0 <= x < n * m && x / m == a && x % m == b
  {
    Mixed(a, b, n, m);
    DivUnique(x, m, a, b);
  }

  lemma Volume(p: Spacing, m: int)
    requires m == p.ny * p.nz
    ensures m == p.nz * p.ny && p.Num() == p.nx * m
  {
  }

  lemma Encoded(p: Spacing, ix: int, iy: int, iz: int)
    requires p.Valid() && 0 <= ix < p.nx && 0 <= iy < p.ny && 0 <= iz < p.nz
    ensures var n := p.Index(ix, iy, iz); 0 <= n < p.Num() && Ix(p, n) == ix && Iy(p, n) == iy && Iz(p, n) == iz
  {
    var m, a := p.ny * p.nz, iz * p.ny + iy;
    Volume(p, m);
    Digits(iz, iy, p.nz, p.ny, a);
    Digits(ix, a, p.nx, m, p.Index(ix, iy, iz));
  }

  /** The places of a cell are numbered with y fastest, then z, then x. */
  lemma IndexOrder(p: Spacing, ix: int, iy: int, iz: int, jx: int, jy: int, jz: int)
    requires p.Valid() && 0 <= iy < p.ny && 0 <= iz < p.nz && 0 <= jy < p.ny && 0 <= jz < p.nz
    ensures p.Index(ix, iy, iz) < p.Index(jx, jy, jz) <==> ix < jx || (ix == jx && iz < jz) || (ix == jx && iz == jz && iy < jy)
  {
    var m, a, b := p.ny * p.nz, iz * p.ny + iy, jz * p.ny + jy;
    Volume(p, m);
    Mixed(iz, iy, p.nz, p.ny);
    Mixed(jz, jy, p.nz, p.ny);
    DigitsOrder(iz, iy, jz, jy, p.ny);
    DigitsOrder(ix, a, jx, b, m);
  }

  /** Place n of N, evenly spaced in the unit interval. */
  function Even(n: int, size: int): real requires size > 0 { (0.5 + n as real) / size as real }

  lemma Fraction(q: real, d: real, a: real)
    requires d > 0.0 && q * d == a && 0.0 < a < d
    ensures 0.0 < q < 1.0
  {
    if q <= 0.0 { MulLe(q, 0.0, d); }
    if q >= 1.0 { MulLe(1.0, q, d); }
  }

  lemma EvenInside(n: int, size: int)
    requires 0 <= n < size
    ensures 0.0 < Even(n, size) < 1.0 && Even(n, size) * size as real == 0.5 + n as real
  {
    var d, a := size as real, 0.5 + n as real;
    var q := a / d;
    assert q * d == a;
    Fraction(q, d, a);
  }

  lemma EvenDiffers(m: int, n: int, size: int)
    requires 0 <= m < size && 0 <= n < size && Even(m, size) == Even(n, size)
    ensures m == n
  {
    EvenInside(m, size);
    EvenInside(n, size);
  }

  /** (x, y, z) is inside the unit cell, in the middle of a place of the lattice, and that place is the one numbered n. */
  ghost predicate PlacedAt(p: Spacing, x: real, y: real, z: real, n: int) {
    var ix, iy, iz := (x * p.nx as real).Floor, (y * p.ny as real).Floor, (z * p.nz as real).Floor;
    && 0.0 < x < 1.0 && 0.0 < y < 1.0 && 0.0 < z < 1.0
    && x * p.nx as real == 0.5 + ix as real && y * p.ny as real == 0.5 + iy as real && z * p.nz as real == 0.5 + iz as real
    && p.Index(ix, iy, iz) == n
  }

  lemma EvenPlaced(p: Spacing, n: int)
    requires p.Valid() && 0 <= n < p.Num()
    ensures PlacedAt(p, Even(Ix(p, n), p.nx), Even(Iy(p, n), p.ny), Even(Iz(p, n), p.nz), n)
  {
    Decoded(p, n);
    EvenInside(Ix(p, n), p.nx);
    EvenInside(Iy(p, n), p.ny);
    EvenInside(Iz(p, n), p.nz);
    PlacedBy(p, Even(Ix(p, n), p.nx), Even(Iy(p, n), p.ny), Even(Iz(p, n), p.nz), Ix(p, n), Iy(p, n), Iz(p, n), n);
  }

  lemma PlacedBy(p: Spacing, x: real, y: real, z: real, ix: int, iy: int, iz: int, n: int)
    requires 0.0 < x < 1.0 && 0.0 < y < 1.0 && 0.0 < z < 1.0 && p.Index(ix, iy, iz) == n
    requires x * p.nx as real == 0.5 + ix as real && y * p.ny as real == 0.5 + iy as real && z * p.nz as real == 0.5 + iz as real
    ensures PlacedAt(p, x, y, z, n)
  {
    HalfFloor(x * p.nx as real, ix);
    HalfFloor(y * p.ny as real, iy);
    HalfFloor(z * p.nz as real, iz);
  }

  lemma HalfFloor(x: real, i: int)
    requires x == 0.5 + i as real
    ensures x.Floor == i
  {
  }

  /** A place determines the position. */
  lemma PlacedEven(p: Spacing, x: real, y: real, z: real, n: int)
    requires p.Valid() && PlacedAt(p, x, y, z, n)
    ensures x == Even(Ix(p, n), p.nx) && y == Even(Iy(p, n), p.ny) && z == Even(Iz(p, n), p.nz)
  {
    var ix, iy, iz := (x * p.nx as real).Floor, (y * p.ny as real).Floor, (z * p.nz as real).Floor;
    PlaceInside(x, p.nx, ix);
    PlaceInside(y, p.ny, iy);
    PlaceInside(z, p.nz, iz);
    Encoded(p, ix, iy, iz);
  }

  lemma PlaceInside(x: real, size: int, i: int)
    requires size > 0 && 0.0 < x < 1.0 && x * size as real == 0.5 + i as real
    ensures 0 <= i < size && x == Even(i, size)
  {
    MulLt(0.0, x, size as real);
    MulLt(x, 1.0, size as real);
  }

  /** Writes the position of particle n of a cell into r: it is inside the cell, and decoding it gives n back. */
  method GetPositionUnitCell(r: array<real>, p: Spacing, n: int)
    requires p.Valid() && r.Length == 3
    modifies r
    ensures 0 <= n < p.Num() ==> PlacedAt(p, r[0], r[1], r[2], n)
  {
    if 0 <= n < p.Num() { EvenPlaced(p, n); }
    var ix := n / (p.ny * p.nz);
    var iy := n % (p.ny * p.nz) % p.ny;
    var iz := n % (p.ny * p.nz) / p.ny;
    r[0] := (0.5 + ix as real) / p.nx as real;
    r[1] := (0.5 + iy as real) / p.ny as real;
    r[2] := (0.5 + iz as real) / p.nz as real;
  }

  ghost predicate Inside(p: Spacing, n: int) requires p.Valid() {
    0.0 < Even(Ix(p, n), p.nx) < 1.0 && 0.0 < Even(Iy(p, n), p.ny) < 1.0 && 0.0 < Even(Iz(p, n), p.nz) < 1.0
  }

  ghost predicate SamePlace(p: Spacing, m: int, n: int) requires p.Valid() {
    Even(Ix(p, m), p.nx) == Even(Ix(p, n), p.nx) && Even(Iy(p, m), p.ny) == Even(Iy(p, n), p.ny) && Even(Iz(p, m), p.nz) == Even(Iz(p, n), p.nz)
  }

  /** The particles of a cell sit at different places, all inside the cell. */
  lemma PlacesDiffer(p: Spacing, m: int, n: int)
    requires p.Valid() && 0 <= m < p.Num() && 0 <= n < p.Num()
    ensures Inside(p, n) && (SamePlace(p, m, n) ==> m == n)
  {
    Decoded(p, m);
    Decoded(p, n);
    EvenInside(Ix(p, n), p.nx);
    EvenInside(Iy(p, n), p.ny);
    EvenInside(Iz(p, n), p.nz);
    if SamePlace(p, m, n) {
      EvenDiffers(Ix(p, m), Ix(p, n), p.nx);
      EvenDiffers(Iy(p, m), Iy(p, n), p.ny);
      EvenDiffers(Iz(p, m), Iz(p, n), p.nz);
    }
  }
}
