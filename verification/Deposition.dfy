/** Charge deposition of the plasma particles of one slice, directly and through tiles, against the sum of the
    particles' splines.

    Positions are in cells from the lower corner of the domain; the source's xmid is the position minus one half. One
    destination array stands for all of them: they differ only in the amount a particle deposits. A grid array has
    `ng` guard cells on every side, so cell (i, k) is entry [i + ng, k + ng]. */
module Deposition {
  import opened Orders
  import opened Shape

  type Attr(==, !new)

  datatype Plasma = Plasma(id: int, x: real, y: real, w: real, attr: Attr)

  /** The physics of a particle: does it violate the quasi-static approximation, and what it deposits. */
  datatype Physics = Physics(violates: Plasma -> bool, amount: Plasma -> real)

  function Abs(x: int): int { if x < 0 then -x else x }

  predicate Deposits(h: Physics, p: Plasma) { p.id >= 0 && !h.violates(p) }

  /** A particle that violates the approximation is invalidated and its weight set to zero. */
  function Discarded(h: Physics, p: Plasma): Plasma {
    if p.id >= 0 && h.violates(p) then p.(w := 0.0, id := -Abs(p.id)) else p
  }

  /** A particle with a positive id deposits exactly if it does not violate the approximation, and keeps a positive id
      exactly then; otherwise its id changes sign and its weight becomes zero. An invalid particle does neither. */
  lemma DiscardLaw(h: Physics, p: Plasma)
    ensures p.id > 0 && !h.violates(p) ==> Deposits(h, p) && Discarded(h, p) == p
    ensures p.id > 0 && h.violates(p) ==> !Deposits(h, p) && Discarded(h, p).id == -p.id && Discarded(h, p).w == 0.0
    ensures p.id < 0 ==> !Deposits(h, p) && Discarded(h, p) == p
    ensures Discarded(h, p).x == p.x && Discarded(h, p).y == p.y && Discarded(h, p).attr == p.attr
  {
  }

  /** What particle p adds to cell (i, k). */
  function Part(h: Physics, order: nat, p: Plasma, i: int, k: int): real {
    if Deposits(h, p) then At(order, p.x - 0.5, i) * At(order, p.y - 0.5, k) * h.amount(p) else 0.0
  }

  /** What all particles add to cell (i, k). */
  function Sum(h: Physics, order: nat, ps: seq<Plasma>, i: int, k: int): real {
    if ps == [] then 0.0 else Sum(h, order, ps[..|ps| - 1], i, k) + Part(h, order, ps[|ps| - 1], i, k)
  }

  // ---------------------------------------------------------------- one particle

  /** The cells a particle at local position u (in cells) writes lie within the array. */
  predicate Fits(order: nat, u: real, length: int, ng: int)
    requires order <= 3
  {
    0 <= Left(order, u - 0.5) + ng && Left(order, u - 0.5) + order + ng < length
  }

  /** The same for an array of n cells with ng guard cells on both sides. */
  predicate FitsGuarded(order: nat, u: real, n: int, ng: int)
    requires order <= 3
  {
    Fits(order, u, n + 2 * ng, ng)
  }

  /** Half the order, rounded up, is the number of guard cells that the writes of every particle in a region of n cells
      need, and with which they all fit. */
  lemma GuardsExact(order: nat, n: int, ng: int)
    requires order <= 3 && n >= 1
    ensures (forall u :: 0.0 <= u < n as real ==> FitsGuarded(order, u, n, ng)) <==> ng >= (order + 1) / 2
  {
    if ng >= (order + 1) / 2 {
      forall u | 0.0 <= u < n as real ensures FitsGuarded(order, u, n, ng) { GuardsEnough(order, u, n, ng); }
    } else {
      FirstCell(order, n, ng);
    }
  }

  lemma GuardsEnough(order: nat, u: real, n: int, ng: int)
    requires order <= 3 && 0.0 <= u < n as real && ng >= (order + 1) / 2
    ensures FitsGuarded(order, u, n, ng)
  {
  }

  /** With fewer, a particle on the lower edge of the region already writes outside the array. */
  lemma FirstCell(order: nat, n: int, ng: int)
    requires order <= 3 && ng < (order + 1) / 2
    ensures !FitsGuarded(order, 0.0, n, ng)
  {
    assert Left(order, 0.0 - 0.5) == -((order + 1) / 2);
  }

  /** The program has max(1, order) guard cells or more. */
  lemma GuardsSuffice(order: nat, u: real, n: int, ng: int)
    requires order <= 3 && 0.0 <= u < n as real && ng >= 1 && ng >= order
    ensures Fits(order, u, n + 2 * ng, ng)
  {
    GuardsExact(order, n, ng);
    assert FitsGuarded(order, u, n, ng);
  }

  /** What a particle with local indices xmid, ymid and amount wq adds to entry [a, b] of an array with ng guard cells. */
  function Stencil(order: nat, xmid: real, ymid: real, wq: real, ng: int, a: int, b: int): real {
    At(order, xmid, a - ng) * At(order, ymid, b - ng) * wq
  }

  /** What the loops add to entry [a, b]: x and y are the two weight buffers, the stencil starts at entry [j, k] and its
      first n rows are done. */
  function Added(x: seq<real>, y: seq<real>, wq: real, j: int, k: int, n: int, a: int, b: int): real
    requires n <= |y|
  {
    if k <= b < k + n && j <= a < j + |x| then x[a - j] * y[b - k] * wq else 0.0
  }

  method DepositRow(rho: array2<real>, x: seq<real>, s: real, wq: real, j: int, b: int)
    requires 0 <= j && j + |x| <= rho.Length0 && 0 <= b < rho.Length1
    modifies rho
    ensures forall a :: 0 <= a < rho.Length0 ==> rho[a, b] == old(rho[a, b]) + if j <= a < j + |x| then x[a - j] * s * wq else 0.0
    ensures forall a, c :: 0 <= a < rho.Length0 && 0 <= c < rho.Length1 && c != b ==> rho[a, c] == old(rho[a, c])
  {
    for ix := 0 to |x|
      invariant forall a :: 0 <= a < rho.Length0 ==> rho[a, b] == old(rho[a, b]) + if j <= a < j + ix then x[a - j] * s * wq else 0.0
      invariant forall a, c :: 0 <= a < rho.Length0 && 0 <= c < rho.Length1 && c != b ==> rho[a, c] == old(rho[a, c])
    {
      rho[j + ix, b] := rho[j + ix, b] + x[ix] * s * wq;
    }
  }

  method DepositStencil(rho: array2<real>, x: seq<real>, y: seq<real>, wq: real, j: int, k: int)
    requires 0 <= j && j + |x| <= rho.Length0 && 0 <= k && k + |y| <= rho.Length1
    modifies rho
    ensures forall a, b :: 0 <= a < rho.Length0 && 0 <= b < rho.Length1 ==> rho[a, b] == old(rho[a, b]) + Added(x, y, wq, j, k, |y|, a, b)
  {
    for iy := 0 to |y|
      invariant forall a, b :: 0 <= a < rho.Length0 && 0 <= b < rho.Length1 ==> rho[a, b] == old(rho[a, b]) + Added(x, y, wq, j, k, iy, a, b)
    {
      DepositRow(rho, x, y[iy], wq, j, k + iy);
    }
  }

  ghost predicate WeightsOf(order: nat, x: seq<real>, xmid: real, j: int) {
    && |x| == order + 1 && (forall n :: 0 <= n <= order ==> x[n] == At(order, xmid, j + n))
    && (forall n :: n < j || n > j + order ==> At(order, xmid, n) == 0.0)
  }

  /** The weight buffer of one direction. */
  method Weigh(order: nat, xmid: real) returns (j: int, x: seq<real>)
    requires order <= 3
    ensures j == Left(order, xmid) && WeightsOf(order, x, xmid, j)
  {
    var sx := new real[order + 1];
    j := ComputeShapeFactor(order, sx, xmid);
    x := sx[..];
  }

  /** The double loop over the cells of one particle. */
  method DepositParticle(order: nat, rho: array2<real>, ng: int, xmid: real, ymid: real, wq: real)
    requires order <= 3 && Fits(order, xmid + 0.5, rho.Length0, ng) && Fits(order, ymid + 0.5, rho.Length1, ng)
    modifies rho
    ensures forall a, b :: 0 <= a < rho.Length0 && 0 <= b < rho.Length1 ==>
              rho[a, b] == old(rho[a, b]) + Stencil(order, xmid, ymid, wq, ng, a, b)
  {
    var j, x := Weigh(order, xmid);
    var k, y := Weigh(order, ymid);
    AddedIsStencil(order, x, y, wq, j, k, xmid, ymid, ng);
    DepositStencil(rho, x, y, wq, j + ng, k + ng);
  }

  lemma AddedIsStencil(order: nat, x: seq<real>, y: seq<real>, wq: real, j: int, k: int, xmid: real, ymid: real, ng: int)
    requires WeightsOf(order, x, xmid, j) && WeightsOf(order, y, ymid, k)
    ensures forall a, b {:trigger Added(x, y, wq, j + ng, k + ng, order + 1, a, b)} ::
              Added(x, y, wq, j + ng, k + ng, order + 1, a, b) == Stencil(order, xmid, ymid, wq, ng, a, b)
  {
    forall a, b ensures Added(x, y, wq, j + ng, k + ng, order + 1, a, b) == Stencil(order, xmid, ymid, wq, ng, a, b) {
      AddedAt(order, x, xmid, j, a - ng);
      AddedAt(order, y, ymid, k, b - ng);
    }
  }

  lemma AddedAt(order: nat, x: seq<real>, xmid: real, j: int, i: int)
    requires WeightsOf(order, x, xmid, j)
    ensures At(order, xmid, i) == if j <= i < j + |x| then x[i - j] else 0.0
  {
    if j <= i < j + |x| { assert x[i - j] == At(order, xmid, j + (i - j)); }
  }

  // ---------------------------------------------------------------- sums

  lemma {:induction false} SumConcat(h: Physics, order: nat, a: seq<Plasma>, b: seq<Plasma>, i: int, k: int)
    ensures Sum(h, order, a + b, i, k) == Sum(h, order, a, i, k) + Sum(h, order, b, i, k)
  {
    if b == [] {
      assert a + b == a;
    } else {
      SumConcat(h, order, a, b[..|b| - 1], i, k);
      assert (a + b)[..|a + b| - 1] == a + b[..|b| - 1];
    }
  }

  lemma {:induction false} SumZero(h: Physics, order: nat, a: seq<Plasma>, i: int, k: int)
    requires forall p :: p in a ==> Part(h, order, p, i, k) == 0.0
    ensures Sum(h, order, a, i, k) == 0.0
  {
    if a != [] {
      forall p | p in a[..|a| - 1] ensures Part(h, order, p, i, k) == 0.0 { assert p in a; }
      SumZero(h, order, a[..|a| - 1], i, k);
    }
  }

  lemma SumRemove(h: Physics, order: nat, a: seq<Plasma>, j: nat, i: int, k: int)
    requires j < |a|
    ensures Sum(h, order, a, i, k) == Sum(h, order, a[..j] + a[j + 1..], i, k) + Part(h, order, a[j], i, k)
  {
    SumConcat(h, order, a[..j] + [a[j]], a[j + 1..], i, k);
    SumConcat(h, order, a[..j], [a[j]], i, k);
    SumConcat(h, order, a[..j], a[j + 1..], i, k);
    assert a == (a[..j] + [a[j]]) + a[j + 1..];
    assert [a[j]][..0] == [];
  }

  /** The sum does not depend on the order of the particles. */
  lemma {:induction false} SumPermuted(h: Physics, order: nat, a: seq<Plasma>, b: seq<Plasma>, i: int, k: int)
    requires multiset(a) == multiset(b)
    ensures Sum(h, order, a, i, k) == Sum(h, order, b, i, k)
    decreases |a|
  {
    if a == [] {
      assert |multiset(b)| == 0;
    } else {
      assert a[0] in multiset(b);
      var j :| 0 <= j < |b| && b[j] == a[0];
      RemoveOne(a, b, j);
      SumPermuted(h, order, a[1..], b[..j] + b[j + 1..], i, k);
      SumRemove(h, order, b, j, i, k);
      SumFirst(h, order, a, i, k);
    }
  }

  lemma SumFirst(h: Physics, order: nat, a: seq<Plasma>, i: int, k: int)
    requires a != []
    ensures Sum(h, order, a, i, k) == Sum(h, order, a[1..], i, k) + Part(h, order, a[0], i, k)
  {
    SumRemove(h, order, a, 0, i, k);
    assert a[..0] + a[1..] == a[1..];
  }

  // ---------------------------------------------------------------- the untiled loop

  class PlasmaTile {
    var particles: seq<Plasma>
    constructor (a: seq<Plasma>)
      ensures particles == a
    { particles := a; }
  }

  function DiscardAll(h: Physics, a: seq<Plasma>): (r: seq<Plasma>)
    ensures |r| == |a| && forall i :: 0 <= i < |a| ==> r[i] == Discarded(h, a[i])
  {
    seq(|a|, i requires 0 <= i < |a| => Discarded(h, a[i]))
  }

  /** Particles that deposit are inside the domain. */
  ghost predicate Inside(h: Physics, a: seq<Plasma>, nx: int, ny: int) {
    forall i :: 0 <= i < |a| && Deposits(h, a[i]) ==> 0.0 <= a[i].x < nx as real && 0.0 <= a[i].y < ny as real
  }

  ghost predicate Guarded(order: nat, ng: int, rho: array2<real>, nx: int, ny: int) {
    order <= 3 && ng >= 1 && ng >= order && nx >= 0 && ny >= 0 && rho.Length0 == nx + 2 * ng && rho.Length1 == ny + 2 * ng
  }

  /** The same for entry [a, b] of an array with ng guard cells whose first cell is (cx, cy). */
  function PartIn(h: Physics, order: nat, p: Plasma, ng: int, cx: int, cy: int, a: int, b: int): real {
    Part(h, order, p, a - ng + cx, b - ng + cy)
  }

  function SumIn(h: Physics, order: nat, ps: seq<Plasma>, ng: int, cx: int, cy: int, a: int, b: int): real {
    Sum(h, order, ps, a - ng + cx, b - ng + cy)
  }

  /** The body of the particle loop. */
  method DepositOne(h: Physics, order: nat, p: Plasma, rho: array2<real>, ng: int, cx: int, cy: int)
    requires order <= 3
    requires Deposits(h, p) ==> Fits(order, p.x - cx as real, rho.Length0, ng) && Fits(order, p.y - cy as real, rho.Length1, ng)
    modifies rho
    ensures forall a, b :: 0 <= a < rho.Length0 && 0 <= b < rho.Length1 ==> rho[a, b] == old(rho[a, b]) + PartIn(h, order, p, ng, cx, cy, a, b)
  {
    if p.id < 0 || h.violates(p) { return; }
    var xmid, ymid := p.x - 0.5, p.y - 0.5;
    PartIsStencil(h, order, p, ng, cx, cy);
    DepositParticle(order, rho, ng, xmid - cx as real, ymid - cy as real, h.amount(p));
  }

  /** Shifting particle and array alike does not change the weights. */
  lemma PartIsStencil(h: Physics, order: nat, p: Plasma, ng: int, cx: int, cy: int)
    requires Deposits(h, p)
    ensures forall a, b {:trigger PartIn(h, order, p, ng, cx, cy, a, b)} ::
              PartIn(h, order, p, ng, cx, cy, a, b) == Stencil(order, p.x - 0.5 - cx as real, p.y - 0.5 - cy as real, h.amount(p), ng, a, b)
  {
    forall a: int, b: int
      ensures PartIn(h, order, p, ng, cx, cy, a, b) == Stencil(order, p.x - 0.5 - cx as real, p.y - 0.5 - cy as real, h.amount(p), ng, a, b)
    {
      Shifted(order, p.x - 0.5, cx, a - ng);
      Shifted(order, p.y - 0.5, cy, b - ng);
    }
  }

  lemma Shifted(order: nat, x: real, c: int, i: int)
    ensures At(order, x, i + c) == At(order, x - c as real, i)
  {
    assert x - (i + c) as real == x - c as real - i as real;
  }

  lemma SumNext(h: Physics, order: nat, ps: seq<Plasma>, p: Plasma, ng: int, cx: int, cy: int)
    ensures forall a, b {:trigger SumIn(h, order, ps + [p], ng, cx, cy, a, b)} ::
              SumIn(h, order, ps + [p], ng, cx, cy, a, b) == SumIn(h, order, ps, ng, cx, cy, a, b) + PartIn(h, order, p, ng, cx, cy, a, b)
  {
    assert (ps + [p])[..|ps|] == ps;
  }

  /** The array holds what it held before, and what the particles ps have added. */
  ghost predicate Holds(h: Physics, order: nat, ps: seq<Plasma>, ng: int, cx: int, cy: int, was: (int, int) -> real, rho: array2<real>)
    reads rho
  {
    forall a, b :: 0 <= a < rho.Length0 && 0 <= b < rho.Length1 ==> rho[a, b] == was(a, b) + SumIn(h, order, ps, ng, cx, cy, a, b)
  }

  /** Particle p is one of those already handled. */
  method DepositNext(h: Physics, order: nat, p: Plasma, rho: array2<real>, ng: int, cx: int, cy: int, ghost done: seq<Plasma>, ghost was: (int, int) -> real)
    requires order <= 3 && Holds(h, order, done, ng, cx, cy, was, rho)
    requires Deposits(h, p) ==> Fits(order, p.x - cx as real, rho.Length0, ng) && Fits(order, p.y - cy as real, rho.Length1, ng)
    modifies rho
    ensures Holds(h, order, done + [p], ng, cx, cy, was, rho)
  {
    SumNext(h, order, done, p, ng, cx, cy);
    DepositOne(h, order, p, rho, ng, cx, cy);
  }

  lemma FitsInside(h: Physics, order: nat, p: Plasma, n0: int, n1: int, ng: int, cx: int, cy: int)
    requires order <= 3 && ng >= 1 && ng >= order
    requires 0.0 <= p.x - cx as real < n0 as real && 0.0 <= p.y - cy as real < n1 as real
    ensures Fits(order, p.x - cx as real, n0 + 2 * ng, ng) && Fits(order, p.y - cy as real, n1 + 2 * ng, ng)
  {
    GuardsSuffice(order, p.x - cx as real, n0, ng);
    GuardsSuffice(order, p.y - cy as real, n1, ng);
  }

  /** The particle loop without tiling: every cell receives the parts of all particles, and the particles that violate
      the approximation are discarded. `was` is the content of the array before. */
  method DepositDirect(h: Physics, order: nat, tile: PlasmaTile, rho: array2<real>, ng: int, nx: int, ny: int, ghost was: (int, int) -> real)
    requires Guarded(order, ng, rho, nx, ny) && Inside(h, tile.particles, nx, ny)
    requires Holds(h, order, [], ng, 0, 0, was, rho)
    modifies tile, rho
    ensures tile.particles == DiscardAll(h, old(tile.particles))
    ensures forall i :: 0 <= i < |tile.particles| && old(tile.particles[i]).id > 0 ==>
              (tile.particles[i].id > 0 <==> !h.violates(old(tile.particles[i])))
    ensures Holds(h, order, old(tile.particles), ng, 0, 0, was, rho)
  {
    ghost var ps := tile.particles;
    for ip := 0 to |tile.particles|
      invariant |tile.particles| == |ps|
      invariant forall i :: 0 <= i < |ps| ==> tile.particles[i] == if i < ip then Discarded(h, ps[i]) else ps[i]
      invariant Holds(h, order, ps[..ip], ng, 0, 0, was, rho)
    {
      var p := tile.particles[ip];
      if Deposits(h, p) { FitsInside(h, order, p, nx, ny, ng, 0, 0); }
      assert ps[..ip + 1] == ps[..ip] + [p];
      DepositNext(h, order, p, rho, ng, 0, 0, ps[..ip], was);
      if p.id >= 0 && h.violates(p) {
        tile.particles := tile.particles[ip := p.(w := 0.0, id := -Abs(p.id))];
      }
    }
    assert ps[..|ps|] == ps;
  }
}
