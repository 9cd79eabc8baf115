/** Tiled deposition: the particles of a tile are deposited into a small array with guard cells, which is then added
    back to the grid. It has the same result as the untiled loop. */
module Tiling {
  import opened Arith
  import opened Orders
  import opened Shape
  import opened Deposition

  // ---------------------------------------------------------------- tiles

  /** Tile coordinate of a position in cells. */
  function TileCoord(c: real, size: int): int requires size > 0 { Trunc(c / size as real) }

  /** Linear tile index of a particle. */
  function TileIndex(p: Plasma, size: int, ntiley: int): int
    requires size > 0
  {
    TileCoord(p.x, size) * ntiley + TileCoord(p.y, size)
  }

  lemma CoordRange(c: real, size: int, n: nat)
    requires size > 0 && 0.0 <= c < (n * size) as real
    ensures 0 <= TileCoord(c, size) < n
    ensures 0.0 <= c - (TileCoord(c, size) * size) as real < size as real
  {
    QuotientRange(c, size as real);
    CoordBounds(c, size, (c / size as real).Floor);
    Smaller((c / size as real).Floor, n, size);
  }

  lemma CoordBounds(c: real, size: int, t: int)
    requires size > 0 && c >= 0.0 && t == (c / size as real).Floor && t >= 0
    ensures (t * size) as real <= c < (t * size) as real + size as real
  {
    var q := c / size as real;
    QuotientRange(c, size as real);
    FloorTimes(q, size as real, t, c);
    CastMul(t, size);
  }

  lemma Smaller(t: int, n: int, size: int)
    requires size > 0
    ensures t * size < n * size ==> t < n
  {
    MulAtLeast(size, t - n);
  }

  lemma FloorTimes(q: real, s: real, t: int, c: real)
    requires s > 0.0 && t == q.Floor && q * s == c
    ensures t as real * s <= c
    ensures c < t as real * s + s
  {
    Lower(t as real, q, s, c);
    Upper(t as real, q, s, c);
  }

  lemma Lower(t: real, q: real, s: real, c: real)
    requires s > 0.0 && t <= q && q * s == c
    ensures t * s <= c
  {
    MulLe(t, q, s);
  }

  lemma Upper(t: real, q: real, s: real, c: real)
    requires s > 0.0 && q < t + 1.0 && q * s == c
    ensures c < t * s + s
  {
    Product(t + 1.0 - q, s);
    Expand(t, q, s);
  }

  lemma Product(x: real, s: real)
    requires x > 0.0 && s > 0.0
    ensures x * s > 0.0
  {
  }

  lemma Expand(t: real, q: real, s: real)
    ensures (t + 1.0 - q) * s == t * s + s - q * s
  {
  }

  lemma QuotientRange(c: real, s: real)
    requires s > 0.0 && c >= 0.0
    ensures c / s >= 0.0 && c / s * s == c
  {
  }

  lemma TileOf(tx: int, ty: int, ntiley: int)
    requires 0 <= tx && 0 <= ty < ntiley
    ensures (tx * ntiley + ty) / ntiley == tx && (tx * ntiley + ty) % ntiley == ty
  {
    DivUnique(tx * ntiley + ty, ntiley, tx, ty);
  }

  /** The particles of tile (tx, ty), relative to the first cell of the tile, are within `size` cells. */
  ghost predicate InTile(h: Physics, a: seq<Plasma>, size: int, tx: int, ty: int) {
    InSquare(h, a, size, tx * size, ty * size)
  }

  /** The same for the square of size cells whose first cell is (cx, cy). */
  ghost predicate InSquare(h: Physics, a: seq<Plasma>, size: int, cx: int, cy: int) {
    forall i :: 0 <= i < |a| && Deposits(h, a[i]) ==>
      0.0 <= a[i].x - cx as real < size as real && 0.0 <= a[i].y - cy as real < size as real
  }

  /** Particles of a tile add nothing outside the tile and its guard cells. */
  lemma NothingOutside(h: Physics, order: nat, a: seq<Plasma>, size: int, tx: int, ty: int, ng: int, i: int, k: int)
    requires order <= 3 && ng >= 1 && ng >= order && size > 0 && InTile(h, a, size, tx, ty)
    requires !(tx * size - ng <= i < tx * size + size + ng && ty * size - ng <= k < ty * size + size + ng)
    ensures Sum(h, order, a, i, k) == 0.0
  {
    forall p | p in a ensures Part(h, order, p, i, k) == 0.0 {
      var n :| 0 <= n < |a| && a[n] == p;
      if Deposits(h, p) { PartOutside(h, order, p, size, tx, ty, ng, i, k); }
    }
    SumZero(h, order, a, i, k);
  }

  lemma PartOutside(h: Physics, order: nat, p: Plasma, size: int, tx: int, ty: int, ng: int, i: int, k: int)
    requires order <= 3 && ng >= 1 && ng >= order && size > 0 && Deposits(h, p)
    requires 0.0 <= p.x - (tx * size) as real < size as real && 0.0 <= p.y - (ty * size) as real < size as real
    requires !(tx * size - ng <= i < tx * size + size + ng && ty * size - ng <= k < ty * size + size + ng)
    ensures Part(h, order, p, i, k) == 0.0
  {
    if !(tx * size - ng <= i < tx * size + size + ng) {
      WeightOutside(order, p.x, tx * size, size, ng, i);
    } else {
      WeightOutside(order, p.y, ty * size, size, ng, k);
    }
  }

  lemma WeightOutside(order: nat, c: real, first: int, size: int, ng: int, i: int)
    requires order <= 3 && ng >= 1 && ng >= order && size > 0
    requires 0.0 <= c - first as real < size as real && !(first - ng <= i < first + size + ng)
    ensures At(order, c - 0.5, i) == 0.0
  {
    GuardsSuffice(order, c - first as real, size, ng);
    Support(order, c - 0.5, i);
    WeightIsSpline(order, c - 0.5 - i as real);
    LeftShift(order, c - 0.5, first);
  }

  lemma LeftShift(order: nat, x: real, c: int)
    requires order <= 3
    ensures Left(order, x - c as real) == Left(order, x) - c
  {
    assert (x - c as real).Floor == x.Floor - c && (x - c as real + 0.5).Floor == (x + 0.5).Floor - c;
  }

  // ---------------------------------------------------------------- the tiled loop

  /** setVal(0) on the tile array. */
  method Clear(tmp: array2<real>)
    modifies tmp
    ensures forall a, b :: 0 <= a < tmp.Length0 && 0 <= b < tmp.Length1 ==> tmp[a, b] == 0.0
  {
    forall a, b | 0 <= a < tmp.Length0 && 0 <= b < tmp.Length1 { tmp[a, b] := 0.0; }
  }

  /** atomicAdd: the tile array is added to the grid, its entry [0, 0] to entry [cx, cy]. */
  method AddBack(tmp: array2<real>, rho: array2<real>, cx: int, cy: int)
    requires tmp != rho && 0 <= cx && cx + tmp.Length0 <= rho.Length0 && 0 <= cy && cy + tmp.Length1 <= rho.Length1
    modifies rho
    ensures forall a, b :: 0 <= a < rho.Length0 && 0 <= b < rho.Length1 ==> rho[a, b] == old(rho[a, b]) + Back(tmp, cx, cy, tmp.Length0, a, b)
  {
    for i := 0 to tmp.Length0
      invariant forall a, b :: 0 <= a < rho.Length0 && 0 <= b < rho.Length1 ==> rho[a, b] == old(rho[a, b]) + Back(tmp, cx, cy, i, a, b)
    {
      for k := 0 to tmp.Length1
        invariant forall a, b :: 0 <= a < rho.Length0 && 0 <= b < rho.Length1 ==>
          rho[a, b] == old(rho[a, b]) + if a == cx + i && b < cy + k then Back(tmp, cx, cy, i + 1, a, b) else Back(tmp, cx, cy, i, a, b)
      {
        rho[cx + i, cy + k] := rho[cx + i, cy + k] + tmp[i, k];
      }
    }
  }

  /** What the first n rows of the tile array give to entry [a, b] of the grid. */
  function Back(tmp: array2<real>, cx: int, cy: int, n: int, a: int, b: int): real
    requires n <= tmp.Length0
    reads tmp
  {
    if cx <= a < cx + n && cy <= b < cy + tmp.Length1 then tmp[a - cx, b - cy] else 0.0
  }

  /** The bins hold the particles of every tile, in some order. */
  ghost predicate TileBins(a: seq<Plasma>, size: int, ntilex: nat, ntiley: nat, indices: seq<nat>, offsets: seq<nat>)
    requires size > 0
  {
    IsBins(indices, offsets, TileIndices(a, size, ntiley), ntilex * ntiley)
  }

  function TileIndices(a: seq<Plasma>, size: int, ntiley: int): (r: seq<int>)
    requires size > 0
    ensures |r| == |a| && forall i :: 0 <= i < |a| ==> r[i] == TileIndex(a[i], size, ntiley)
  {
    seq(|a|, i requires 0 <= i < |a| => TileIndex(a[i], size, ntiley))
  }

  /** The particles the bins list for tile t are in tile t. */
  lemma BinInTile(h: Physics, a: seq<Plasma>, size: int, ntilex: nat, ntiley: nat, indices: seq<nat>, offsets: seq<nat>, t: nat)
    requires size > 0 && Inside(h, a, ntilex * size, ntiley * size) && TileBins(a, size, ntilex, ntiley, indices, offsets) && t < ntilex * ntiley
    requires forall j :: 0 <= j < |indices| ==> indices[j] < |a|
    ensures ntiley > 0 && offsets[t] <= offsets[t + 1] <= |indices|
    ensures InTile(h, Visit(a, indices)[offsets[t]..offsets[t + 1]], size, t / ntiley, t % ntiley)
  {
    assert BinAt(indices, offsets, TileIndices(a, size, ntiley), t);
    var v := Visit(a, indices);
    forall j | offsets[t] <= j < offsets[t + 1] && Deposits(h, v[j])
      ensures 0.0 <= v[j].x - (t / ntiley * size) as real < size as real && 0.0 <= v[j].y - (t % ntiley * size) as real < size as real
    {
      CoordRange(v[j].x, size, ntilex);
      CoordRange(v[j].y, size, ntiley);
      TileOf(TileCoord(v[j].x, size), TileCoord(v[j].y, size), ntiley);
    }
  }

  function Zero(a: int, b: int): real { 0.0 }

  /** Is particle i at one of the places m, ..., j-1 of the order? */
  ghost predicate AtPlaces(indices: seq<nat>, m: nat, j: nat, i: nat) { exists k :: m <= k < j && k < |indices| && indices[k] == i }

  /** The particles at these places have been visited, and discarded where they have to be; the others are as they were. */
  ghost predicate VisitedIn(h: Physics, was: seq<Plasma>, now: seq<Plasma>, ps: seq<Plasma>, indices: seq<nat>, m: nat, j: nat) {
    && |now| == |was| == |ps| && m <= j <= |indices|
    && forall i :: 0 <= i < |ps| ==> now[i] == if AtPlaces(indices, m, j, i) then Discarded(h, ps[i]) else was[i]
  }

  /** Visiting the particle at place j, which has not been touched before. */
  lemma VisitNext(h: Physics, was: seq<Plasma>, now: seq<Plasma>, ps: seq<Plasma>, indices: seq<nat>, m: nat, j: nat)
    requires Order(indices, |ps|) && (forall i :: 0 <= i < |indices| ==> indices[i] < |ps|)
    requires VisitedIn(h, was, now, ps, indices, m, j) && j < |indices| && was[indices[j]] == ps[indices[j]]
    ensures now[indices[j]] == ps[indices[j]] == Visit(ps, indices)[j]
    ensures VisitedIn(h, was, now[indices[j] := Discarded(h, ps[indices[j]])], ps, indices, m, j + 1)
    ensures Visit(ps, indices)[m..j + 1] == Visit(ps, indices)[m..j] + [ps[indices[j]]]
  {
    Distinct(indices, |ps|, j);
    forall i: nat | i < |ps| ensures AtPlaces(indices, m, j + 1, i) <==> AtPlaces(indices, m, j, i) || i == indices[j] { }
  }

  /** A particle of the tile writes inside the tile array. */
  lemma TileFits(h: Physics, order: nat, v: seq<Plasma>, m: nat, n: nat, j: nat, ng: int, size: int, cx: int, cy: int)
    requires order <= 3 && ng >= 1 && ng >= order && m <= j < n <= |v| && InSquare(h, v[m..n], size, cx, cy) && Deposits(h, v[j])
    ensures Fits(order, v[j].x - cx as real, size + 2 * ng, ng) && Fits(order, v[j].y - cy as real, size + 2 * ng, ng)
  {
    assert v[j] == v[m..n][j - m];
    FitsInside(h, order, v[j], size, size, ng, cx, cy);
  }

  /** One pass of the particle loop. */
  method VisitPlace(h: Physics, order: nat, tile: PlasmaTile, tmp: array2<real>, ng: int, size: int, cx: int, cy: int,
                    indices: seq<nat>, m: nat, j: nat, ghost n: nat, ghost ps: seq<Plasma>, ghost was: seq<Plasma>)
    requires order <= 3 && ng >= 1 && ng >= order && size > 0 && tmp.Length0 == tmp.Length1 == size + 2 * ng
    requires Order(indices, |ps|) && forall i :: 0 <= i < |indices| ==> indices[i] < |ps|
    requires m <= j < n <= |indices| && InSquare(h, Visit(ps, indices)[m..n], size, cx, cy)
    requires VisitedIn(h, was, tile.particles, ps, indices, m, j) && was[indices[j]] == ps[indices[j]]
    requires Holds(h, order, Visit(ps, indices)[m..j], ng, cx, cy, Zero, tmp)
    modifies tile, tmp
    ensures VisitedIn(h, was, tile.particles, ps, indices, m, j + 1)
    ensures Holds(h, order, Visit(ps, indices)[m..j + 1], ng, cx, cy, Zero, tmp)
  {
    ghost var v := Visit(ps, indices);
    VisitNext(h, was, tile.particles, ps, indices, m, j);
    if Deposits(h, v[j]) { TileFits(h, order, v, m, n, j, ng, size, cx, cy); }
    DepositAndDiscard(h, order, tile, tmp, ng, cx, cy, indices[j], v[m..j]);
  }

  /** The particle loop of one tile: the tile array, cleared before, receives the parts of the particles at places
      [m..n] of the order. Its first cell is (cx, cy). */
  method DepositTile(h: Physics, order: nat, tile: PlasmaTile, tmp: array2<real>, ng: int, size: int, cx: int, cy: int,
                     indices: seq<nat>, m: nat, n: nat, ghost ps: seq<Plasma>)
    requires order <= 3 && ng >= 1 && ng >= order && size > 0 && tmp.Length0 == tmp.Length1 == size + 2 * ng
    requires |tile.particles| == |ps| && Order(indices, |ps|) && (forall i :: 0 <= i < |indices| ==> indices[i] < |ps|)
    requires m <= n <= |indices| && forall j :: m <= j < n ==> tile.particles[indices[j]] == ps[indices[j]]
    requires InSquare(h, Visit(ps, indices)[m..n], size, cx, cy)
    modifies tile, tmp
    ensures VisitedIn(h, old(tile.particles), tile.particles, ps, indices, m, n)
    ensures Holds(h, order, Visit(ps, indices)[m..n], ng, cx, cy, Zero, tmp)
  {
    ghost var v, was := Visit(ps, indices), tile.particles;
    Clear(tmp);
    NoneHeld(h, order, ng, cx, cy, tmp);
    assert v[m..m] == [] && VisitedIn(h, was, was, ps, indices, m, m);
    for j := m to n
      invariant VisitedIn(h, was, tile.particles, ps, indices, m, j) && Holds(h, order, v[m..j], ng, cx, cy, Zero, tmp)
    {
      VisitPlace(h, order, tile, tmp, ng, size, cx, cy, indices, m, j, n, ps, was);
    }
  }

  lemma NoneHeld(h: Physics, order: nat, ng: int, cx: int, cy: int, tmp: array2<real>)
    requires forall a, b :: 0 <= a < tmp.Length0 && 0 <= b < tmp.Length1 ==> tmp[a, b] == 0.0
    ensures Holds(h, order, [], ng, cx, cy, Zero, tmp)
  {
  }

  /** The body of the particle loop. */
  method DepositAndDiscard(h: Physics, order: nat, tile: PlasmaTile, tmp: array2<real>, ng: int, cx: int, cy: int, ip: nat, ghost done: seq<Plasma>)
    requires order <= 3 && ip < |tile.particles| && Holds(h, order, done, ng, cx, cy, Zero, tmp)
    requires var p := tile.particles[ip];
             Deposits(h, p) ==> Fits(order, p.x - cx as real, tmp.Length0, ng) && Fits(order, p.y - cy as real, tmp.Length1, ng)
    modifies tile, tmp
    ensures tile.particles == old(tile.particles)[ip := Discarded(h, old(tile.particles[ip]))]
    ensures Holds(h, order, done + [old(tile.particles[ip])], ng, cx, cy, Zero, tmp)
  {
    var p := tile.particles[ip];
    DepositNext(h, order, p, tmp, ng, cx, cy, done, Zero);
    if p.id >= 0 && h.violates(p) {
      tile.particles := tile.particles[ip := p.(w := 0.0, id := -Abs(p.id))];
    }
  }

  /** Adding the tile array back gives every cell of the grid the parts of the particles of the tile. */
  lemma TileAdded(h: Physics, order: nat, done: seq<Plasma>, bin: seq<Plasma>, ng: int, size: int, tx: int, ty: int, a: int, b: int)
    requires order <= 3 && ng >= 1 && ng >= order && size > 0 && InTile(h, bin, size, tx, ty)
    ensures SumIn(h, order, done + bin, ng, 0, 0, a, b) == SumIn(h, order, done, ng, 0, 0, a, b) +
            if tx * size <= a < tx * size + size + 2 * ng && ty * size <= b < ty * size + size + 2 * ng
            then SumIn(h, order, bin, ng, tx * size, ty * size, a - tx * size, b - ty * size) else 0.0
  {
    SumConcat(h, order, done, bin, a - ng, b - ng);
    if !(tx * size <= a < tx * size + size + 2 * ng && ty * size <= b < ty * size + size + 2 * ng) {
      NothingOutside(h, order, bin, size, tx, ty, ng, a - ng, b - ng);
    }
  }

  lemma TileInGrid(t: nat, ntilex: nat, ntiley: nat, size: int)
    requires size > 0 && ntiley > 0 && t < ntilex * ntiley
    ensures 0 <= t / ntiley < ntilex && 0 <= t % ntiley < ntiley
    ensures t / ntiley * size + size <= ntilex * size && t % ntiley * size + size <= ntiley * size
  {
    DivMod(t, ntiley);
    MulAtLeast(ntiley, t / ntiley - ntilex);
    MulAtLeast(ntiley, t / ntiley);
    NextFits(t / ntiley, ntilex, size);
    NextFits(t % ntiley, ntiley, size);
  }

  lemma NextFits(t: int, n: int, size: int)
    requires size > 0 && t < n
    ensures t * size + size <= n * size
  {
    MulAtLeast(size, n - t);
  }

  // ---------------------------------------------------------------- all tiles, in any order

  /** Tile t is one of the first a tiles of the order. */
  ghost predicate TileBefore(tiles: seq<nat>, a: nat, t: int) { exists b :: 0 <= b < a && b < |tiles| && tiles[b] == t }

  /** The particles of the first a tiles have been visited. */
  ghost predicate TilesDone(h: Physics, now: seq<Plasma>, ps: seq<Plasma>, tileOf: seq<int>, tiles: seq<nat>, a: nat) {
    && |now| == |ps| == |tileOf|
    && forall i :: 0 <= i < |ps| ==> now[i] == if TileBefore(tiles, a, tileOf[i]) then Discarded(h, ps[i]) else ps[i]
  }

  /** The particles of the next tile have not been visited yet. */
  lemma TileFresh(h: Physics, now: seq<Plasma>, ps: seq<Plasma>, tileOf: seq<int>, indices: seq<nat>, offsets: seq<nat>, tiles: seq<nat>, n: nat, a: nat)
    requires TilesDone(h, now, ps, tileOf, tiles, a) && Order(tiles, n) && a < n && BinAt(indices, offsets, tileOf, tiles[a])
    requires forall j :: 0 <= j < |indices| ==> indices[j] < |ps|
    ensures forall j :: offsets[tiles[a]] <= j < offsets[tiles[a] + 1] ==> now[indices[j]] == ps[indices[j]]
  {
    Distinct(tiles, n, a);
    assert !TileBefore(tiles, a, tiles[a]);
  }

  /** The particles at the places of a bin are the particles of the tile. */
  lemma PlacesOfTile(indices: seq<nat>, offsets: seq<nat>, tileOf: seq<int>, t: nat, i: nat)
    requires Order(indices, |tileOf|) && BinAt(indices, offsets, tileOf, t) && i < |tileOf|
    ensures AtPlaces(indices, offsets[t], offsets[t + 1], i) <==> tileOf[i] == t
  {
    var k := Covers(indices, |tileOf|, i);
    if AtPlaces(indices, offsets[t], offsets[t + 1], i) {
      var j :| offsets[t] <= j < offsets[t + 1] && j < |indices| && indices[j] == i;
      assert tileOf[indices[j]] == t;
    }
    assert tileOf[indices[k]] == t <==> offsets[t] <= k < offsets[t + 1];
  }

  lemma TilesNext(h: Physics, was: seq<Plasma>, now: seq<Plasma>, ps: seq<Plasma>, tileOf: seq<int>, indices: seq<nat>, offsets: seq<nat>, tiles: seq<nat>, a: nat)
    requires TilesDone(h, was, ps, tileOf, tiles, a) && a < |tiles| && Order(indices, |ps|) && BinAt(indices, offsets, tileOf, tiles[a])
    requires VisitedIn(h, was, now, ps, indices, offsets[tiles[a]], offsets[tiles[a] + 1])
    ensures TilesDone(h, now, ps, tileOf, tiles, a + 1)
  {
    forall i | 0 <= i < |ps| ensures now[i] == if TileBefore(tiles, a + 1, tileOf[i]) then Discarded(h, ps[i]) else ps[i] {
      PlacesOfTile(indices, offsets, tileOf, tiles[a], i);
      assert TileBefore(tiles, a + 1, tileOf[i]) <==> TileBefore(tiles, a, tileOf[i]) || tileOf[i] == tiles[a];
    }
  }

  /** Every place belongs to a bin. */
  lemma {:induction false} BinOfPlace(offsets: seq<nat>, n: nat, k: nat) returns (t: nat)
    requires n < |offsets| && offsets[0] == 0 && k < offsets[n]
    ensures t < n && offsets[t] <= k < offsets[t + 1]
  {
    if offsets[n - 1] <= k { t := n - 1; } else { t := BinOfPlace(offsets, n - 1, k); }
  }

  lemma AllVisited(h: Physics, now: seq<Plasma>, ps: seq<Plasma>, tileOf: seq<int>, indices: seq<nat>, offsets: seq<nat>, tiles: seq<nat>, n: nat)
    requires TilesDone(h, now, ps, tileOf, tiles, n) && Order(tiles, n) && IsBins(indices, offsets, tileOf, n)
    requires offsets[0] == 0 && offsets[n] == |ps| && forall j :: 0 <= j < |indices| ==> indices[j] < |ps|
    ensures now == DiscardAll(h, ps)
  {
    forall i | 0 <= i < |ps| ensures now[i] == Discarded(h, ps[i]) {
      var k := Covers(indices, |ps|, i);
      var t := BinOfPlace(offsets, n, k);
      assert BinAt(indices, offsets, tileOf, t) && tileOf[indices[k]] == t;
      var b := Covers(tiles, n, t);
      assert TileBefore(tiles, n, tileOf[i]);
    }
  }

  /** Particles that hold what all tiles hold together have the sum of all particles. */
  lemma AllSummed(h: Physics, order: nat, ps: seq<Plasma>, indices: seq<nat>, offsets: seq<nat>, tileOf: seq<int>, tiles: seq<nat>, n: nat,
                  done: seq<Plasma>, ng: int)
    requires |tileOf| == |ps| && (forall i :: 0 <= i < |indices| ==> indices[i] < |ps|)
    requires IsBins(indices, offsets, tileOf, n) && offsets[0] == 0 && offsets[n] == |ps| && Order(tiles, n)
    requires multiset(done) == Union(BinSet(Visit(ps, indices), offsets), tiles)
    ensures forall a, b {:trigger SumIn(h, order, ps, ng, 0, 0, a, b)} ::
              SumIn(h, order, done, ng, 0, 0, a, b) == SumIn(h, order, ps, ng, 0, 0, a, b)
  {
    VisitAll(ps, indices);
    forall k: nat | k < n ensures BinBounds(offsets, |ps|, k) { assert BinAt(indices, offsets, tileOf, k); }
    UnionAll(Visit(ps, indices), offsets, tiles, n);
    forall a: int, b: int ensures SumIn(h, order, done, ng, 0, 0, a, b) == SumIn(h, order, ps, ng, 0, 0, a, b) {
      SumPermuted(h, order, done, ps, a - ng, b - ng);
    }
  }

  lemma UnionNext(v: seq<Plasma>, offsets: seq<nat>, tiles: seq<nat>, a: nat, done: seq<Plasma>)
    requires a < |tiles| && BinBounds(offsets, |v|, tiles[a]) && multiset(done) == Union(BinSet(v, offsets), tiles[..a])
    ensures multiset(done + v[offsets[tiles[a]]..offsets[tiles[a] + 1]]) == Union(BinSet(v, offsets), tiles[..a + 1])
  {
    assert tiles[..a + 1][..a] == tiles[..a];
  }

  /** One tile: cleared, filled by its particles, added back. */
  method NextTile(h: Physics, order: nat, tile: PlasmaTile, rho: array2<real>, tmp: array2<real>, ng: int, size: int, tx: int, ty: int,
                  tiles: seq<nat>, a: nat, ghost n: nat, indices: seq<nat>, offsets: seq<nat>, ghost ps: seq<Plasma>, ghost tileOf: seq<int>,
                  ghost done: seq<Plasma>, ghost was: (int, int) -> real) returns (ghost now: seq<Plasma>)
    requires order <= 3 && ng >= 1 && ng >= order && size > 0 && tmp != rho && tmp.Length0 == tmp.Length1 == size + 2 * ng
    requires 0 <= tx && tx * size + size + 2 * ng <= rho.Length0 && 0 <= ty && ty * size + size + 2 * ng <= rho.Length1
    requires Order(tiles, n) && a < n && Order(indices, |ps|) && forall j :: 0 <= j < |indices| ==> indices[j] < |ps|
    requires BinAt(indices, offsets, tileOf, tiles[a]) && TilesDone(h, tile.particles, ps, tileOf, tiles, a)
    requires InTile(h, Visit(ps, indices)[offsets[tiles[a]]..offsets[tiles[a] + 1]], size, tx, ty) && Holds(h, order, done, ng, 0, 0, was, rho)
    requires multiset(done) == Union(BinSet(Visit(ps, indices), offsets), tiles[..a])
    modifies tile, rho, tmp
    ensures TilesDone(h, tile.particles, ps, tileOf, tiles, a + 1) && Holds(h, order, now, ng, 0, 0, was, rho)
    ensures multiset(now) == Union(BinSet(Visit(ps, indices), offsets), tiles[..a + 1])
  {
    var itile := tiles[a];
    ghost var bin, before := Visit(ps, indices)[offsets[itile]..offsets[itile + 1]], tile.particles;
    TileFresh(h, before, ps, tileOf, indices, offsets, tiles, n, a);
    DepositTile(h, order, tile, tmp, ng, size, tx * size, ty * size, indices, offsets[itile], offsets[itile + 1], ps);
    TilesNext(h, before, tile.particles, ps, tileOf, indices, offsets, tiles, a);
    UnionNext(Visit(ps, indices), offsets, tiles, a, done);
    AddTile(h, order, tmp, rho, ng, size, tx, ty, done, bin, was);
    now := done + bin;
  }

  /** Tiled deposition refines the untiled loop: same grid, same discarded particles, for every tile size that divides
      the grid, every order of the tiles and every order of the particles in the bins. */
  method DepositTiled(h: Physics, order: nat, tile: PlasmaTile, rho: array2<real>, tmp: array2<real>, ng: int, size: int,
                      ntilex: nat, ntiley: nat, tiles: seq<nat>, indices: seq<nat>, offsets: seq<nat>, ghost was: (int, int) -> real)
    requires size > 0 && Guarded(order, ng, rho, ntilex * size, ntiley * size) && tmp != rho && tmp.Length0 == tmp.Length1 == size + 2 * ng
    requires Inside(h, tile.particles, ntilex * size, ntiley * size) && Order(tiles, ntilex * ntiley)
    requires TileBins(tile.particles, size, ntilex, ntiley, indices, offsets) && offsets[0] == 0 && offsets[ntilex * ntiley] == |tile.particles|
    requires Holds(h, order, [], ng, 0, 0, was, rho)
    modifies tile, rho, tmp
    ensures tile.particles == DiscardAll(h, old(tile.particles))
    ensures forall i :: 0 <= i < |tile.particles| && old(tile.particles[i]).id > 0 ==>
              (tile.particles[i].id > 0 <==> !h.violates(old(tile.particles[i])))
    ensures Holds(h, order, old(tile.particles), ng, 0, 0, was, rho)
  {
    ghost var ps, ntiles := tile.particles, ntilex * ntiley;
    ghost var tileOf := TileIndices(ps, size, ntiley);
    InRange(indices, |ps|);
    InRange(tiles, ntiles);
    ghost var v, done := Visit(ps, indices), [];
    for a := 0 to |tiles|
      invariant TilesDone(h, tile.particles, ps, tileOf, tiles, a)
      invariant multiset(done) == Union(BinSet(v, offsets), tiles[..a]) && Holds(h, order, done, ng, 0, 0, was, rho)
    {
      var itile := tiles[a];
      BinInTile(h, ps, size, ntilex, ntiley, indices, offsets, itile);
      TileInGrid(itile, ntilex, ntiley, size);
      done := NextTile(h, order, tile, rho, tmp, ng, size, itile / ntiley, itile % ntiley, tiles, a, ntiles, indices, offsets, ps, tileOf, done, was);
    }
    AllVisited(h, tile.particles, ps, tileOf, indices, offsets, tiles, ntiles);
    assert tiles[..|tiles|] == tiles;
    AllSummed(h, order, ps, indices, offsets, tileOf, tiles, ntiles, done, ng);
  }

  method AddTile(h: Physics, order: nat, tmp: array2<real>, rho: array2<real>, ng: int, size: int, tx: int, ty: int,
                 ghost done: seq<Plasma>, ghost bin: seq<Plasma>, ghost was: (int, int) -> real)
    requires order <= 3 && ng >= 1 && ng >= order && size > 0 && tmp != rho && tmp.Length0 == tmp.Length1 == size + 2 * ng
    requires 0 <= tx && tx * size + size + 2 * ng <= rho.Length0 && 0 <= ty && ty * size + size + 2 * ng <= rho.Length1
    requires InTile(h, bin, size, tx, ty)
    requires Holds(h, order, done, ng, 0, 0, was, rho) && Holds(h, order, bin, ng, tx * size, ty * size, Zero, tmp)
    modifies rho
    ensures Holds(h, order, done + bin, ng, 0, 0, was, rho)
  {
    AddBack(tmp, rho, tx * size, ty * size);
    forall a, b {:trigger rho[a, b]} | 0 <= a < rho.Length0 && 0 <= b < rho.Length1
      ensures rho[a, b] == was(a, b) + SumIn(h, order, done + bin, ng, 0, 0, a, b)
    {
      TileAdded(h, order, done, bin, ng, size, tx, ty, a, b);
    }
  }
}
