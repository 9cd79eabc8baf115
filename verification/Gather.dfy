/** Field gather, and what makes it the partner of deposition: the two are adjoint, so that the total charge is
    conserved, and constant (from order 1 on: affine) fields are gathered exactly. */
module Gather {
  import opened Arith
  import opened Shape
  import opened Deposition

  // ---------------------------------------------------------------- sums over the array

  /** The weights of a particle at x as a function of the cell. */
  function Weights(order: nat, x: real): int -> real { (i: int) => At(order, x, i) }

  /** Sum over the first n entries of a row, and the same with the cell index as factor. */
  function Sum0(w: int -> real, ng: int, n: nat): real {
    if n == 0 then 0.0 else Sum0(w, ng, n - 1) + w(n - 1 - ng)
  }

  function Sum1(w: int -> real, ng: int, n: nat): real {
    if n == 0 then 0.0 else Sum1(w, ng, n - 1) + (n - 1 - ng) as real * w(n - 1 - ng)
  }

  /** w vanishes outside the cells j, ..., j+order. */
  ghost predicate Supported(w: int -> real, j: int, order: nat) {
    forall i :: i < j || i > j + order ==> w(i) == 0.0
  }

  lemma WeightsSupported(order: nat, x: real)
    requires order <= 3
    ensures Supported(Weights(order, x), Left(order, x), order)
  {
    forall i | i < Left(order, x) || i > Left(order, x) + order ensures Weights(order, x)(i) == 0.0 {
      Support(order, x, i);
      WeightIsSpline(order, x - i as real);
    }
  }

  /** Partial sums over the stencil only: its first k cells. */
  function Near0(w: int -> real, j: int, k: nat): real { if k == 0 then 0.0 else Near0(w, j, k - 1) + w(j + k - 1) }

  function Near1(w: int -> real, j: int, k: nat): real {
    if k == 0 then 0.0 else Near1(w, j, k - 1) + (j + k - 1) as real * w(j + k - 1)
  }

  /** How many of the stencil's cells are among the first n entries. */
  function Reached(j: int, order: nat, ng: int, n: nat): nat {
    var k := n - (j + ng);
    if k < 0 then 0 else if k > order + 1 then order + 1 else k
  }

  lemma {:induction false} SumsReach(w: int -> real, j: int, order: nat, ng: int, n: nat)
    requires Supported(w, j, order) && j + ng >= 0
    ensures Sum0(w, ng, n) == Near0(w, j, Reached(j, order, ng, n))
    ensures Sum1(w, ng, n) == Near1(w, j, Reached(j, order, ng, n))
  {
    if n > 0 {
      SumsReach(w, j, order, ng, n - 1);
      if !(j <= n - 1 - ng <= j + order) { assert w(n - 1 - ng) == 0.0; }
    }
  }

  lemma {:induction false} NearIsMass(order: nat, x: real, j: int, k: nat)
    ensures Near0(Weights(order, x), j, k) == Mass(order, x, j, k)
    ensures Near1(Weights(order, x), j, k) == Moment(order, x, j, k)
  {
    if k > 0 {
      NearIsMass(order, x, j, k - 1);
      assert Weights(order, x)(j + k - 1) == At(order, x, j + k - 1);
    }
  }

  /** w sums to 1 over the first n entries, and (if so asked) its mean is m. */
  ghost predicate Centred(w: int -> real, ng: int, n: nat, order: nat, m: real) {
    Sum0(w, ng, n) == 1.0 && (order >= 1 ==> Sum1(w, ng, n) == m)
  }

  /** Over the whole array the weights of a particle add up to 1 and are centred on it. */
  lemma WholeSums(order: nat, u: real, length: nat, ng: int)
    requires order <= 3 && Fits(order, u, length, ng)
    ensures Centred(Weights(order, u - 0.5), ng, length, order, u - 0.5)
  {
    var x := u - 0.5;
    WeightsSupported(order, x);
    SumsReach(Weights(order, x), Left(order, x), order, ng, length);
    NearIsMass(order, x, Left(order, x), order + 1);
    WeightsSumToOne(order, x);
    if order >= 1 { WeightsCentred(order, x); }
  }

  // ---------------------------------------------------------------- the gathered field

  /** Row b of field e gathered along x, over the first n entries of the row. */
  function GatherRow(wx: int -> real, e: (int, int) -> real, ng: int, n: nat, b: int): real {
    if n == 0 then 0.0 else GatherRow(wx, e, ng, n - 1, b) + wx(n - 1 - ng) * e(n - 1, b)
  }

  /** Field e at a particle: rows of n0 entries, the first n rows. */
  function Gathered(wx: int -> real, wy: int -> real, e: (int, int) -> real, ng: int, n0: nat, n: nat): real {
    if n == 0 then 0.0 else Gathered(wx, wy, e, ng, n0, n - 1) + wy(n - 1 - ng) * GatherRow(wx, e, ng, n0, n - 1)
  }

  /** e is an affine field, in cell indices. */
  ghost predicate Affine(e: (int, int) -> real, c0: real, c1: real, c2: real, ng: int) {
    forall a: int, b: int {:trigger AffineAt(e, c0, c1, c2, ng, a, b)} :: AffineAt(e, c0, c1, c2, ng, a, b)
  }

  ghost predicate AffineAt(e: (int, int) -> real, c0: real, c1: real, c2: real, ng: int, a: int, b: int) {
    e(a, b) == c0 + c1 * (a - ng) as real + c2 * (b - ng) as real
  }

  lemma {:induction false} AffineRow(w: int -> real, e: (int, int) -> real, c0: real, c1: real, c2: real, ng: int, n: nat, b: int)
    requires Affine(e, c0, c1, c2, ng)
    ensures GatherRow(w, e, ng, n, b) == (c0 + c2 * (b - ng) as real) * Sum0(w, ng, n) + c1 * Sum1(w, ng, n)
  {
    if n > 0 {
      AffineRow(w, e, c0, c1, c2, ng, n - 1, b);
      assert AffineAt(e, c0, c1, c2, ng, n - 1, b);
      RowStep(c0, c1, c2 * (b - ng) as real, Sum0(w, ng, n - 1), Sum1(w, ng, n - 1), w(n - 1 - ng), (n - 1 - ng) as real);
    }
  }

  lemma RowStep(c0: real, c1: real, d: real, s0: real, s1: real, w: real, i: real)
    ensures (c0 + d) * s0 + c1 * s1 + w * (c0 + c1 * i + d) == (c0 + d) * (s0 + w) + c1 * (s1 + i * w)
  {
  }

  lemma RowValue(wx: int -> real, e: (int, int) -> real, c0: real, c1: real, c2: real, ng: int, n0: nat, b: int, d: real)
    requires Sum0(wx, ng, n0) == 1.0 && Affine(e, c0, c1, c2, ng) && d == c0 + c1 * Sum1(wx, ng, n0)
    ensures GatherRow(wx, e, ng, n0, b) == d + c2 * (b - ng) as real
  {
    AffineRow(wx, e, c0, c1, c2, ng, n0, b);
  }

  /** Row b of the field is gathered to an affine function of b. */
  ghost predicate RowIs(wx: int -> real, e: (int, int) -> real, d: real, c2: real, ng: int, n0: nat, b: int) {
    GatherRow(wx, e, ng, n0, b) == d + c2 * (b - ng) as real
  }

  /** The affine function gathered along y. */
  function GatherLine(w: int -> real, d: real, c2: real, ng: int, n: nat): real {
    if n == 0 then 0.0 else GatherLine(w, d, c2, ng, n - 1) + w(n - 1 - ng) * (d + c2 * (n - 1 - ng) as real)
  }

  lemma {:induction false} RowsAdd(wx: int -> real, wy: int -> real, e: (int, int) -> real, d: real, c2: real, ng: int, n0: nat, n: nat)
    requires forall b :: 0 <= b < n ==> RowIs(wx, e, d, c2, ng, n0, b)
    ensures Gathered(wx, wy, e, ng, n0, n) == GatherLine(wy, d, c2, ng, n)
  {
    if n > 0 {
      RowsAdd(wx, wy, e, d, c2, ng, n0, n - 1);
      assert RowIs(wx, e, d, c2, ng, n0, n - 1);
      SameTerm(wy(n - 1 - ng), wy(n - 1 - ng), GatherRow(wx, e, ng, n0, n - 1), d + c2 * (n - 1 - ng) as real);
    }
  }

  lemma SameTerm(w: real, x: real, r: real, s: real)
    requires w == x && r == s
    ensures w * r == x * s
  {
  }

  lemma {:induction false} LineSums(w: int -> real, d: real, c2: real, ng: int, n: nat)
    ensures GatherLine(w, d, c2, ng, n) == d * Sum0(w, ng, n) + c2 * Sum1(w, ng, n)
  {
    if n > 0 {
      LineSums(w, d, c2, ng, n - 1);
      LineStep(d, c2, Sum0(w, ng, n - 1), Sum1(w, ng, n - 1), w(n - 1 - ng), (n - 1 - ng) as real);
    }
  }

  lemma LineStep(d: real, c2: real, s0: real, s1: real, w: real, i: real)
    ensures d * s0 + c2 * s1 + w * (d + c2 * i) == d * (s0 + w) + c2 * (s1 + i * w)
  {
  }

  lemma AffineRows(wx: int -> real, e: (int, int) -> real, c0: real, c1: real, c2: real, ng: int, n0: nat, n: nat, d: real)
    requires Sum0(wx, ng, n0) == 1.0 && Affine(e, c0, c1, c2, ng) && d == c0 + c1 * Sum1(wx, ng, n0)
    ensures forall b :: 0 <= b < n ==> RowIs(wx, e, d, c2, ng, n0, b)
  {
    forall b | 0 <= b < n ensures RowIs(wx, e, d, c2, ng, n0, b) {
      RowValue(wx, e, c0, c1, c2, ng, n0, b, d);
    }
  }

  lemma AffineGrid(wx: int -> real, wy: int -> real, e: (int, int) -> real, c0: real, c1: real, c2: real, ng: int, n0: nat, n1: nat, d: real)
    requires Sum0(wx, ng, n0) == 1.0 && Affine(e, c0, c1, c2, ng) && d == c0 + c1 * Sum1(wx, ng, n0)
    ensures Gathered(wx, wy, e, ng, n0, n1) == d * Sum0(wy, ng, n1) + c2 * Sum1(wy, ng, n1)
  {
    AffineRows(wx, e, c0, c1, c2, ng, n0, n1, d);
    RowsAdd(wx, wy, e, d, c2, ng, n0, n1);
    LineSums(wy, d, c2, ng, n1);
  }

  lemma Exact(g: real, d: real, c0: real, c1: real, c2: real, s: real, one: real, t: real, x: real, y: real, order: nat)
    requires g == d * one + c2 * t && d == c0 + c1 * s && one == 1.0
    requires if order == 0 then c1 == 0.0 && c2 == 0.0 else s == x && t == y
    ensures g == c0 + c1 * x + c2 * y
  {
  }

  /** wx are the weights of a particle at x (in cells). */
  ghost predicate IsWeights(order: nat, x: real, wx: int -> real) {
    forall i: int {:trigger IsWeight(order, x, wx, i)} :: IsWeight(order, x, wx, i)
  }

  ghost predicate IsWeight(order: nat, x: real, wx: int -> real, i: int) { wx(i) == At(order, x - 0.5, i) }

  lemma {:induction false} SameSums(order: nat, x: real, wx: int -> real, ng: int, n: nat)
    requires IsWeights(order, x, wx)
    ensures Sum0(wx, ng, n) == Sum0(Weights(order, x - 0.5), ng, n) && Sum1(wx, ng, n) == Sum1(Weights(order, x - 0.5), ng, n)
  {
    if n > 0 {
      SameSums(order, x, wx, ng, n - 1);
      assert IsWeight(order, x, wx, n - 1 - ng);
      SameTerm((n - 1 - ng) as real, (n - 1 - ng) as real, wx(n - 1 - ng), Weights(order, x - 0.5)(n - 1 - ng));
    }
  }

  lemma ParticleCentred(order: nat, x: real, wx: int -> real, ng: int, n: nat)
    requires order <= 3 && Fits(order, x, n, ng) && IsWeights(order, x, wx)
    ensures Centred(wx, ng, n, order, x - 0.5)
  {
    WholeSums(order, x, n, ng);
    SameSums(order, x, wx, ng, n);
  }

  lemma CentredGather(order: nat, x: real, y: real, wx: int -> real, wy: int -> real, e: (int, int) -> real,
                      c0: real, c1: real, c2: real, ng: int, n0: nat, n1: nat)
    requires Centred(wx, ng, n0, order, x) && Centred(wy, ng, n1, order, y)
    requires Affine(e, c0, c1, c2, ng) && (order == 0 ==> c1 == 0.0 && c2 == 0.0)
    ensures Gathered(wx, wy, e, ng, n0, n1) == c0 + c1 * x + c2 * y
  {
    var d := c0 + c1 * Sum1(wx, ng, n0);
    AffineGrid(wx, wy, e, c0, c1, c2, ng, n0, n1, d);
    Exact(Gathered(wx, wy, e, ng, n0, n1), d, c0, c1, c2, Sum1(wx, ng, n0), Sum0(wy, ng, n1), Sum1(wy, ng, n1), x, y, order);
  }

  /** Affine fields (in cell indices) are gathered exactly from order 1 on, constant fields for every order. */
  lemma GatherExact(order: nat, x: real, y: real, wx: int -> real, wy: int -> real, e: (int, int) -> real,
                    c0: real, c1: real, c2: real, ng: int, n0: nat, n1: nat)
    requires order <= 3 && Fits(order, x, n0, ng) && Fits(order, y, n1, ng) && IsWeights(order, x, wx) && IsWeights(order, y, wy)
    requires Affine(e, c0, c1, c2, ng) && (order == 0 ==> c1 == 0.0 && c2 == 0.0)
    ensures Gathered(wx, wy, e, ng, n0, n1) == c0 + c1 * (x - 0.5) + c2 * (y - 0.5)
  {
    ParticleCentred(order, x, wx, ng, n0);
    ParticleCentred(order, y, wy, ng, n1);
    CentredGather(order, x - 0.5, y - 0.5, wx, wy, e, c0, c1, c2, ng, n0, n1);
  }

  // ---------------------------------------------------------------- the adjoint of deposition

  /** A particle as its weights and its amount. */
  datatype Splat = Splat(wx: int -> real, wy: int -> real, q: real)

  /** What the splats deposit into entry [a, b]. */
  function Deposited(ss: seq<Splat>, ng: int, a: int, b: int): real {
    if ss == [] then 0.0 else
      var s := ss[|ss| - 1];
      Deposited(ss[..|ss| - 1], ng, a, b) + s.wx(a - ng) * s.wy(b - ng) * s.q
  }

  /** Sum over the splats of their amount times the field they gather. */
  function GatherAll(ss: seq<Splat>, e: (int, int) -> real, ng: int, n0: nat, n1: nat): real {
    if ss == [] then 0.0 else
      var s := ss[|ss| - 1];
      GatherAll(ss[..|ss| - 1], e, ng, n0, n1) + s.q * Gathered(s.wx, s.wy, e, ng, n0, n1)
  }

  /** Sum of e times d over the first n entries of row b, and over the first n rows of n0 entries. */
  function DotRow(e: (int, int) -> real, d: (int, int) -> real, n: nat, b: int): real {
    if n == 0 then 0.0 else DotRow(e, d, n - 1, b) + e(n - 1, b) * d(n - 1, b)
  }

  function Dot(e: (int, int) -> real, d: (int, int) -> real, n0: nat, n: nat): real {
    if n == 0 then 0.0 else Dot(e, d, n0, n - 1) + DotRow(e, d, n0, n - 1)
  }

  /** d is what the splats deposit. */
  ghost predicate IsDeposit(ss: seq<Splat>, d: (int, int) -> real, ng: int, n0: nat, n1: nat) {
    forall a, b :: 0 <= a < n0 && 0 <= b < n1 ==> d(a, b) == Deposited(ss, ng, a, b)
  }

  /** d is f plus what splat s deposits. */
  ghost predicate AddsOne(f: (int, int) -> real, s: Splat, d: (int, int) -> real, ng: int, n0: nat, n1: nat) {
    forall a, b :: 0 <= a < n0 && 0 <= b < n1 ==> d(a, b) == f(a, b) + s.wx(a - ng) * s.wy(b - ng) * s.q
  }

  lemma {:induction false} RowAddsOne(e: (int, int) -> real, f: (int, int) -> real, s: Splat, d: (int, int) -> real, ng: int, n0: nat, n1: nat, n: nat, b: int)
    requires AddsOne(f, s, d, ng, n0, n1) && n <= n0 && 0 <= b < n1
    ensures DotRow(e, d, n, b) == DotRow(e, f, n, b) + s.q * (s.wy(b - ng) * GatherRow(s.wx, e, ng, n, b))
  {
    if n > 0 {
      RowAddsOne(e, f, s, d, ng, n0, n1, n - 1, b);
      RowTerm(e(n - 1, b), f(n - 1, b), s.wx(n - 1 - ng), s.wy(b - ng), s.q, d(n - 1, b),
              DotRow(e, f, n - 1, b), GatherRow(s.wx, e, ng, n - 1, b), DotRow(e, d, n - 1, b));
    }
  }

  lemma RowTerm(e: real, f: real, w: real, y: real, q: real, d: real, rf: real, g: real, rd: real)
    requires d == f + w * y * q && rd == rf + q * (y * g)
    ensures rd + e * d == (rf + e * f) + q * (y * (g + w * e))
  {
    assert e * d == e * f + q * (y * (w * e));
    assert q * (y * (g + w * e)) == q * (y * g) + q * (y * (w * e));
  }

  /** q times the gathered field, added up row by row. */
  function GatheredTimes(q: real, wx: int -> real, wy: int -> real, e: (int, int) -> real, ng: int, n0: nat, n: nat): real {
    if n == 0 then 0.0 else GatheredTimes(q, wx, wy, e, ng, n0, n - 1) + q * (wy(n - 1 - ng) * GatherRow(wx, e, ng, n0, n - 1))
  }

  lemma {:induction false} TimesIsProduct(q: real, wx: int -> real, wy: int -> real, e: (int, int) -> real, ng: int, n0: nat, n: nat)
    ensures GatheredTimes(q, wx, wy, e, ng, n0, n) == q * Gathered(wx, wy, e, ng, n0, n)
  {
    if n > 0 {
      TimesIsProduct(q, wx, wy, e, ng, n0, n - 1);
      Distribute(q, Gathered(wx, wy, e, ng, n0, n - 1), wy(n - 1 - ng) * GatherRow(wx, e, ng, n0, n - 1));
    }
  }

  lemma Distribute(q: real, g: real, r: real)
    ensures q * (g + r) == q * g + q * r
  {
  }

  lemma {:induction false} GridAddsOne(e: (int, int) -> real, f: (int, int) -> real, s: Splat, d: (int, int) -> real, ng: int, n0: nat, n1: nat, n: nat)
    requires AddsOne(f, s, d, ng, n0, n1) && n <= n1
    ensures Dot(e, d, n0, n) == Dot(e, f, n0, n) + GatheredTimes(s.q, s.wx, s.wy, e, ng, n0, n)
  {
    if n > 0 {
      GridAddsOne(e, f, s, d, ng, n0, n1, n - 1);
      RowAddsOne(e, f, s, d, ng, n0, n1, n0, n - 1);
    }
  }

  lemma {:induction false} DotZero(e: (int, int) -> real, d: (int, int) -> real, n0: nat, n1: nat, n: nat)
    requires n <= n1 && forall a, b :: 0 <= a < n0 && 0 <= b < n1 ==> d(a, b) == 0.0
    ensures Dot(e, d, n0, n) == 0.0
  {
    if n > 0 {
      DotZero(e, d, n0, n1, n - 1);
      RowZero(e, d, n0, n1, n0, n - 1);
    }
  }

  lemma {:induction false} RowZero(e: (int, int) -> real, d: (int, int) -> real, n0: nat, n1: nat, n: nat, b: int)
    requires n <= n0 && 0 <= b < n1 && forall a, b :: 0 <= a < n0 && 0 <= b < n1 ==> d(a, b) == 0.0
    ensures DotRow(e, d, n, b) == 0.0
  {
    if n > 0 { RowZero(e, d, n0, n1, n - 1, b); }
  }

  function DepositFn(ss: seq<Splat>, ng: int): (int, int) -> real { (a: int, b: int) => Deposited(ss, ng, a, b) }

  /** Deposition and gather are adjoint: the field times what has been deposited, summed over the grid, is the sum over
      the particles of their amount times the field they gather. */
  lemma {:induction false} DepositAdjointGather(ss: seq<Splat>, d: (int, int) -> real, e: (int, int) -> real, ng: int, n0: nat, n1: nat)
    requires IsDeposit(ss, d, ng, n0, n1)
    ensures Dot(e, d, n0, n1) == GatherAll(ss, e, ng, n0, n1)
    decreases |ss|
  {
    if ss == [] {
      DotZero(e, d, n0, n1, n1);
    } else {
      var rest, s := ss[..|ss| - 1], ss[|ss| - 1];
      var f := DepositFn(rest, ng);
      DepositAdjointGather(rest, f, e, ng, n0, n1);
      GridAddsOne(e, f, s, d, ng, n0, n1, n1);
      TimesIsProduct(s.q, s.wx, s.wy, e, ng, n0, n1);
    }
  }

  // ---------------------------------------------------------------- the particles of the deposition loops

  /** Splat s is particle p. */
  ghost predicate IsSplat(h: Physics, order: nat, p: Plasma, s: Splat) {
    s.q == (if Deposits(h, p) then h.amount(p) else 0.0) && IsWeights(order, p.x, s.wx) && IsWeights(order, p.y, s.wy)
  }

  ghost predicate AreSplats(h: Physics, order: nat, ps: seq<Plasma>, ss: seq<Splat>) {
    |ss| == |ps| && forall i :: 0 <= i < |ps| ==> IsSplat(h, order, ps[i], ss[i])
  }

  lemma PartIsSplat(h: Physics, order: nat, p: Plasma, s: Splat, ng: int, a: int, b: int)
    requires IsSplat(h, order, p, s)
    ensures PartIn(h, order, p, ng, 0, 0, a, b) == s.wx(a - ng) * s.wy(b - ng) * s.q
  {
    assert IsWeight(order, p.x, s.wx, a - ng) && IsWeight(order, p.y, s.wy, b - ng);
  }

  /** The grid of the deposition loops is what the splats deposit. */
  lemma {:induction false} SumIsDeposited(h: Physics, order: nat, ps: seq<Plasma>, ss: seq<Splat>, ng: int, a: int, b: int)
    requires AreSplats(h, order, ps, ss)
    ensures SumIn(h, order, ps, ng, 0, 0, a, b) == Deposited(ss, ng, a, b)
  {
    if ps != [] {
      var last := |ps| - 1;
      SumIsDeposited(h, order, ps[..last], ss[..last], ng, a, b);
      PartIsSplat(h, order, ps[last], ss[last], ng, a, b);
    }
  }

  /** What the particles deposit in all. */
  function TotalAmount(h: Physics, ps: seq<Plasma>): real {
    if ps == [] then 0.0 else TotalAmount(h, ps[..|ps| - 1]) + if Deposits(h, ps[|ps| - 1]) then h.amount(ps[|ps| - 1]) else 0.0
  }

  /** Every particle's stencil lies within the array. */
  ghost predicate AllFit(order: nat, ps: seq<Plasma>, ng: int, n0: nat, n1: nat)
    requires order <= 3
  {
    forall i :: 0 <= i < |ps| ==> Fits(order, ps[i].x, n0, ng) && Fits(order, ps[i].y, n1, ng)
  }

  lemma {:induction false} GatherOnes(h: Physics, order: nat, ps: seq<Plasma>, ss: seq<Splat>, e: (int, int) -> real, ng: int, n0: nat, n1: nat)
    requires order <= 3 && AreSplats(h, order, ps, ss) && AllFit(order, ps, ng, n0, n1) && Affine(e, 1.0, 0.0, 0.0, ng)
    ensures GatherAll(ss, e, ng, n0, n1) == TotalAmount(h, ps)
  {
    if ps != [] {
      var last := |ps| - 1;
      var p, s := ps[last], ss[last];
      GatherOnes(h, order, ps[..last], ss[..last], e, ng, n0, n1);
      assert IsSplat(h, order, p, s);
      GatherExact(order, p.x, p.y, s.wx, s.wy, e, 1.0, 0.0, 0.0, ng, n0, n1);
      Unit(s.q, Gathered(s.wx, s.wy, e, ng, n0, n1));
    }
  }

  lemma Unit(q: real, g: real)
    requires g == 1.0
    ensures q * g == q
  {
  }

  /** Charge conservation: the entries of the grid add up to what the particles deposit. */
  lemma ChargeConserved(h: Physics, order: nat, ps: seq<Plasma>, ss: seq<Splat>, grid: (int, int) -> real, one: (int, int) -> real,
                        ng: int, n0: nat, n1: nat)
    requires order <= 3 && AreSplats(h, order, ps, ss) && AllFit(order, ps, ng, n0, n1) && Affine(one, 1.0, 0.0, 0.0, ng)
    requires forall a, b :: 0 <= a < n0 && 0 <= b < n1 ==> grid(a, b) == SumIn(h, order, ps, ng, 0, 0, a, b)
    ensures Dot(one, grid, n0, n1) == TotalAmount(h, ps)
  {
    AdjointOnGrid(h, order, ps, ss, grid, one, ng, n0, n1);
    GatherOnes(h, order, ps, ss, one, ng, n0, n1);
  }

  /** Deposition and gather are adjoint, for the grid the deposition loops leave. */
  lemma AdjointOnGrid(h: Physics, order: nat, ps: seq<Plasma>, ss: seq<Splat>, grid: (int, int) -> real, e: (int, int) -> real,
                      ng: int, n0: nat, n1: nat)
    requires AreSplats(h, order, ps, ss)
    requires forall a, b :: 0 <= a < n0 && 0 <= b < n1 ==> grid(a, b) == SumIn(h, order, ps, ng, 0, 0, a, b)
    ensures Dot(e, grid, n0, n1) == GatherAll(ss, e, ng, n0, n1)
  {
    forall a, b | 0 <= a < n0 && 0 <= b < n1 ensures grid(a, b) == Deposited(ss, ng, a, b) {
      SumIsDeposited(h, order, ps, ss, ng, a, b);
    }
    DepositAdjointGather(ss, grid, e, ng, n0, n1);
  }

  // ---------------------------------------------------------------- the gather loops

  /** The stencil part of a row, and of the grid: the weights are buffers, the stencil starts at entry [j, k]. */
  function NearRow(x: seq<real>, e: (int, int) -> real, j: int, b: int, n: nat): real
    requires n <= |x|
  {
    if n == 0 then 0.0 else NearRow(x, e, j, b, n - 1) + x[n - 1] * e(j + n - 1, b)
  }

  function NearGrid(x: seq<real>, y: seq<real>, e: (int, int) -> real, j: int, k: int, n: nat): real
    requires n <= |y|
  {
    if n == 0 then 0.0 else NearGrid(x, y, e, j, k, n - 1) + y[n - 1] * NearRow(x, e, j, k + n - 1, |x|)
  }

  function SumSeq(z: seq<real>, n: nat): real
    requires n <= |z|
  {
    if n == 0 then 0.0 else SumSeq(z, n - 1) + z[n - 1]
  }

  ghost predicate Content(e: (int, int) -> real, arr: array2<real>)
    reads arr
  {
    forall a, b :: 0 <= a < arr.Length0 && 0 <= b < arr.Length1 ==> e(a, b) == arr[a, b]
  }

  method GatherStencilRow(x: seq<real>, y: real, z: real, arr: array2<real>, j: int, b: int, acc: real, ghost e: (int, int) -> real) returns (r: real)
    requires 0 <= j && j + |x| <= arr.Length0 && 0 <= b < arr.Length1 && Content(e, arr)
    ensures r == acc + z * (y * NearRow(x, e, j, b, |x|))
  {
    r := acc;
    for ix := 0 to |x|
      invariant r == acc + z * (y * NearRow(x, e, j, b, ix))
    {
      RowAcc(acc, y, z, NearRow(x, e, j, b, ix), x[ix], arr[j + ix, b]);
      r := r + x[ix] * y * z * arr[j + ix, b];
    }
  }

  lemma RowAcc(acc: real, y: real, z: real, s: real, x: real, e: real)
    ensures acc + z * (y * s) + x * y * z * e == acc + z * (y * (s + x * e))
  {
  }

  method GatherStencilGrid(x: seq<real>, y: seq<real>, z: real, arr: array2<real>, j: int, k: int, acc: real, ghost e: (int, int) -> real) returns (r: real)
    requires 0 <= j && j + |x| <= arr.Length0 && 0 <= k && k + |y| <= arr.Length1 && Content(e, arr)
    ensures r == acc + z * NearGrid(x, y, e, j, k, |y|)
  {
    r := acc;
    for iy := 0 to |y|
      invariant r == acc + z * NearGrid(x, y, e, j, k, iy)
    {
      Distribute(z, NearGrid(x, y, e, j, k, iy), y[iy] * NearRow(x, e, j, k + iy, |x|));
      r := GatherStencilRow(x, y[iy], z, arr, j, k + iy, r, e);
    }
  }

  /** The buffer x holds the weights w of the cells from j on; w is zero elsewhere. */
  ghost predicate Buffered(w: int -> real, x: seq<real>, j: int) {
    x != [] && Supported(w, j, |x| - 1) && forall i :: 0 <= i < |x| ==> x[i] == w(j + i)
  }

  lemma {:induction false} RowReach(w: int -> real, x: seq<real>, e: (int, int) -> real, j: int, ng: int, n: nat, b: int)
    requires Buffered(w, x, j) && j + ng >= 0
    ensures GatherRow(w, e, ng, n, b) == NearRow(x, e, j + ng, b, Reached(j, |x| - 1, ng, n))
  {
    if n > 0 {
      RowReach(w, x, e, j, ng, n - 1, b);
      var i := n - 1 - ng;
      if j <= i <= j + |x| - 1 { assert x[i - j] == w(j + (i - j)); } else { assert w(i) == 0.0; }
    }
  }

  /** Row b gathered along x is entry b of `rows`. */
  ghost predicate RowValueAt(wx: int -> real, e: (int, int) -> real, ng: int, n0: nat, rows: (int, int) -> real, b: int) {
    rows(b, 0) == GatherRow(wx, e, ng, n0, b)
  }

  /** Gathering along y is gathering a row whose entries are the gathered rows; and so for the stencil. */
  lemma {:induction false} GatheredAsRow(wx: int -> real, wy: int -> real, e: (int, int) -> real, ng: int, n0: nat, n: nat, rows: (int, int) -> real)
    requires forall b :: 0 <= b < n ==> RowValueAt(wx, e, ng, n0, rows, b)
    ensures Gathered(wx, wy, e, ng, n0, n) == GatherRow(wy, rows, ng, n, 0)
  {
    if n > 0 {
      GatheredAsRow(wx, wy, e, ng, n0, n - 1, rows);
      assert RowValueAt(wx, e, ng, n0, rows, n - 1);
    }
  }

  function StencilRows(x: seq<real>, e: (int, int) -> real, j: int): (int, int) -> real { (b: int, z: int) => NearRow(x, e, j, b, |x|) }

  lemma {:induction false} NearAsRow(x: seq<real>, y: seq<real>, e: (int, int) -> real, j: int, k: int, n: nat)
    requires n <= |y|
    ensures NearGrid(x, y, e, j, k, n) == NearRow(y, StencilRows(x, e, j), k, 0, n)
  {
    if n > 0 { NearAsRow(x, y, e, j, k, n - 1); }
  }

  lemma RowsReach(wx: int -> real, wy: int -> real, x: seq<real>, e: (int, int) -> real, j: int, ng: int, n0: nat, n: nat)
    requires Buffered(wx, x, j) && j + ng >= 0 && j + ng + |x| <= n0
    ensures Gathered(wx, wy, e, ng, n0, n) == GatherRow(wy, StencilRows(x, e, j + ng), ng, n, 0)
  {
    var rows := StencilRows(x, e, j + ng);
    forall b | 0 <= b < n ensures RowValueAt(wx, e, ng, n0, rows, b) { RowReach(wx, x, e, j, ng, n0, b); }
    GatheredAsRow(wx, wy, e, ng, n0, n, rows);
  }

  lemma GridReach(wx: int -> real, wy: int -> real, x: seq<real>, y: seq<real>, e: (int, int) -> real,
                  j: int, k: int, ng: int, n0: nat, n: nat)
    requires Buffered(wx, x, j) && Buffered(wy, y, k) && j + ng >= 0 && j + ng + |x| <= n0 && k + ng >= 0
    ensures Gathered(wx, wy, e, ng, n0, n) == NearGrid(x, y, e, j + ng, k + ng, Reached(k, |y| - 1, ng, n))
  {
    RowsReach(wx, wy, x, e, j, ng, n0, n);
    RowReach(wy, y, StencilRows(x, e, j + ng), k, ng, n, 0);
    NearAsRow(x, y, e, j + ng, k + ng, Reached(k, |y| - 1, ng, n));
  }

  lemma WeighedBuffer(order: nat, x: real, w: int -> real, buffer: seq<real>, j: int)
    requires order <= 3 && IsWeights(order, x, w) && WeightsOf(order, buffer, x - 0.5, j)
    ensures Buffered(w, buffer, j)
  {
    forall i | 0 <= i < |buffer| ensures buffer[i] == w(j + i) { assert IsWeight(order, x, w, j + i); }
    forall i | i < j || i > j + (|buffer| - 1) ensures w(i) == 0.0 { assert IsWeight(order, x, w, i); }
  }

  lemma {:induction false} SumIsMass(order: nat, x: real, buffer: seq<real>, j: int, n: nat)
    requires WeightsOf(order, buffer, x, j) && n <= order + 1
    ensures SumSeq(buffer, n) == Mass(order, x, j, n)
  {
    if n > 0 {
      SumIsMass(order, x, buffer, j, n - 1);
      assert buffer[n - 1] == At(order, x, j + (n - 1));
    }
  }

  /** The stencil holds everything a particle gathers. */
  lemma StencilGathers(order: nat, x: real, y: real, n0: nat, n1: nat, ng: int, e: (int, int) -> real, wx: int -> real, wy: int -> real,
                       sx: seq<real>, sy: seq<real>, j: int, k: int)
    requires order <= 3 && Fits(order, x, n0, ng) && Fits(order, y, n1, ng) && IsWeights(order, x, wx) && IsWeights(order, y, wy)
    requires WeightsOf(order, sx, x - 0.5, j) && WeightsOf(order, sy, y - 0.5, k) && j == Left(order, x - 0.5) && k == Left(order, y - 0.5)
    ensures 0 <= j + ng && j + ng + |sx| <= n0 && 0 <= k + ng && k + ng + |sy| <= n1
    ensures Gathered(wx, wy, e, ng, n0, n1) == NearGrid(sx, sy, e, j + ng, k + ng, |sy|)
  {
    WeighedBuffer(order, x, wx, sx, j);
    WeighedBuffer(order, y, wy, sy, k);
    GridReach(wx, wy, sx, sy, e, j, k, ng, n0, n1);
  }

  /** doGatherShapeN for one field: the value gathered onto the particle is added to acc. The weights along z add up to
      1 and the field is read in one plane, so neither the order nor the position along z matters. */
  method GatherField(order: nat, orderz: nat, arr: array2<real>, ng: int, x: real, y: real, zmid: real, acc: real,
                     ghost e: (int, int) -> real, ghost wx: int -> real, ghost wy: int -> real) returns (r: real)
    requires order <= 3 && orderz <= 3 && Fits(order, x, arr.Length0, ng) && Fits(order, y, arr.Length1, ng)
    requires Content(e, arr) && IsWeights(order, x, wx) && IsWeights(order, y, wy)
    ensures r == acc + Gathered(wx, wy, e, ng, arr.Length0, arr.Length1)
  {
    var j, sx := Weigh(order, x - 0.5);
    var k, sy := Weigh(order, y - 0.5);
    var l, sz := Weigh(orderz, zmid);
    StencilGathers(order, x, y, arr.Length0, arr.Length1, ng, e, wx, wy, sx, sy, j, k);
    SumIsMass(orderz, zmid, sz, l, orderz + 1);
    WeightsSumToOne(orderz, zmid);
    r := GatherPlanes(sx, sy, sz, arr, j + ng, k + ng, acc, e);
  }

  method GatherPlanes(x: seq<real>, y: seq<real>, z: seq<real>, arr: array2<real>, j: int, k: int, acc: real, ghost e: (int, int) -> real) returns (r: real)
    requires 0 <= j && j + |x| <= arr.Length0 && 0 <= k && k + |y| <= arr.Length1 && Content(e, arr)
    requires SumSeq(z, |z|) == 1.0
    ensures r == acc + NearGrid(x, y, e, j, k, |y|)
  {
    r := acc;
    ghost var g := NearGrid(x, y, e, j, k, |y|);
    for iz := 0 to |z|
      invariant r == acc + SumSeq(z, iz) * g
    {
      PlaneAcc(SumSeq(z, iz), z[iz], g);
      r := GatherStencilGrid(x, y, z[iz], arr, j, k, r, e);
    }
  }

  lemma PlaneAcc(s: real, z: real, g: real)
    ensures (s + z) * g == s * g + z * g
  {
  }
}
