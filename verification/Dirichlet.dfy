/** The correction of a Poisson source for boundary values: after it, the solver with zero boundary values solves the
    problem with the given ones. */
module Dirichlet {
  import opened Orders

  /** A box of n0 by n1 grid points, and the squares of the grid spacings. */
  datatype Grid = Grid(n0: nat, n1: nat, dxx: real, dyy: real)
  {
    predicate Valid() { n0 > 0 && n1 > 0 && dxx > 0.0 && dyy > 0.0 }
    predicate Inside(i: int, j: int) { 0 <= i < n0 && 0 <= j < n1 }
  }

  /** Potential u continued outside the box by the values v of the guard points. */
  function Extended(g: Grid, u: (int, int) -> real, v: (int, int) -> real, i: int, j: int): real {
    if g.Inside(i, j) then u(i, j) else v(i, j)
  }

  /** The five-point Laplacian at point (i, j). */
  function Laplace(g: Grid, u: (int, int) -> real, v: (int, int) -> real, i: int, j: int): real
    requires g.Valid()
  {
    (Extended(g, u, v, i - 1, j) - 2.0 * Extended(g, u, v, i, j) + Extended(g, u, v, i + 1, j)) / g.dxx
    + (Extended(g, u, v, i, j - 1) - 2.0 * Extended(g, u, v, i, j) + Extended(g, u, v, i, j + 1)) / g.dyy
  }

  /** A quadratic polynomial. */
  datatype Quadratic = Quadratic(c0: real, cx: real, cy: real, cxx: real, cxy: real, cyy: real)
  {
    function At(x: real, y: real): real { c0 + cx * x + cy * y + cxx * (x * x) + cxy * (x * y) + cyy * (y * y) }
  }

  /** q is the polynomial p at the grid points, which are dx and dy apart. */
  ghost predicate IsQuadratic(q: (int, int) -> real, p: Quadratic, dx: real, dy: real) { forall i, j :: ValueAt(q, p, dx, dy, i, j) }

  ghost predicate ValueAt(q: (int, int) -> real, p: Quadratic, dx: real, dy: real, i: int, j: int) {
    q(i, j) == p.At(i as real * dx, j as real * dy)
  }

  /** The five-point Laplacian of a quadratic polynomial is its Laplacian. */
  lemma LaplaceOfQuadratic(g: Grid, q: (int, int) -> real, p: Quadratic, dx: real, dy: real, i: int, j: int)
    requires g.Valid() && g.dxx == dx * dx && g.dyy == dy * dy && IsQuadratic(q, p, dx, dy)
    ensures Laplace(g, q, q, i, j) == 2.0 * p.cxx + 2.0 * p.cyy
  {
    DifferenceX(q, p, dx, dy, i, j, g.dxx);
    DifferenceY(q, p, dx, dy, i, j, g.dyy);
    Assemble(q(i - 1, j), q(i, j), q(i + 1, j), q(i, j - 1), q(i, j + 1), p.cxx, p.cyy, g.dxx, g.dyy);
  }

  lemma DifferenceX(q: (int, int) -> real, p: Quadratic, dx: real, dy: real, i: int, j: int, dxx: real)
    requires dxx == dx * dx && IsQuadratic(q, p, dx, dy)
    ensures q(i - 1, j) - 2.0 * q(i, j) + q(i + 1, j) == 2.0 * p.cxx * dxx
  {
    var x, y := i as real * dx, j as real * dy;
    Neighbours(i, dx);
    PointIs(q, p, dx, dy, i, j, x, y);
    PointIs(q, p, dx, dy, i - 1, j, x - dx, y);
    PointIs(q, p, dx, dy, i + 1, j, x + dx, y);
    AlongX(p, x, y, dx);
  }

  lemma DifferenceY(q: (int, int) -> real, p: Quadratic, dx: real, dy: real, i: int, j: int, dyy: real)
    requires dyy == dy * dy && IsQuadratic(q, p, dx, dy)
    ensures q(i, j - 1) - 2.0 * q(i, j) + q(i, j + 1) == 2.0 * p.cyy * dyy
  {
    var x, y := i as real * dx, j as real * dy;
    Neighbours(j, dy);
    PointIs(q, p, dx, dy, i, j, x, y);
    PointIs(q, p, dx, dy, i, j - 1, x, y - dy);
    PointIs(q, p, dx, dy, i, j + 1, x, y + dy);
    AlongY(p, x, y, dy);
  }

  lemma Neighbours(i: int, d: real)
    ensures (i - 1) as real * d == i as real * d - d && (i + 1) as real * d == i as real * d + d
  {
  }

  lemma PointIs(q: (int, int) -> real, p: Quadratic, dx: real, dy: real, i: int, j: int, x: real, y: real)
    requires IsQuadratic(q, p, dx, dy) && x == i as real * dx && y == j as real * dy
    ensures q(i, j) == p.At(x, y)
  {
    assert ValueAt(q, p, dx, dy, i, j);
  }

  lemma AlongX(p: Quadratic, x: real, y: real, d: real)
    ensures p.At(x - d, y) - 2.0 * p.At(x, y) + p.At(x + d, y) == 2.0 * p.cxx * (d * d)
  {
  }

  lemma AlongY(p: Quadratic, x: real, y: real, d: real)
    ensures p.At(x, y - d) - 2.0 * p.At(x, y) + p.At(x, y + d) == 2.0 * p.cyy * (d * d)
  {
  }

  lemma Assemble(l: real, m: real, r: real, b: real, t: real, cxx: real, cyy: real, dxx: real, dyy: real)
    requires dxx > 0.0 && dyy > 0.0 && l - 2.0 * m + r == 2.0 * cxx * dxx && b - 2.0 * m + t == 2.0 * cyy * dyy
    ensures (l - 2.0 * m + r) / dxx + (b - 2.0 * m + t) / dyy == 2.0 * cxx + 2.0 * cyy
  {
    Cancelled(cxx, dxx);
    Cancelled(cyy, dyy);
  }

  lemma Cancelled(c: real, d: real)
    requires d > 0.0
    ensures 2.0 * c * d / d == 2.0 * c
  {
  }

  ghost predicate Solves(g: Grid, u: (int, int) -> real, v: (int, int) -> real, rhs: (int, int) -> real)
    requires g.Valid()
  {
    forall i, j {:trigger rhs(i, j)} :: g.Inside(i, j) ==> Laplace(g, u, v, i, j) == rhs(i, j)
  }

  function Zero(i: int, j: int): real { 0.0 }

  /** What the guard neighbours of point (i, j) take off its source. */
  function Correction(g: Grid, v: (int, int) -> real, i: int, j: int): real
    requires g.Valid()
  {
    (if i == 0 then v(-1, j) / g.dxx else 0.0) + (if i == g.n0 - 1 then v(i + 1, j) / g.dxx else 0.0)
    + (if j == 0 then v(i, -1) / g.dyy else 0.0) + (if j == g.n1 - 1 then v(i, j + 1) / g.dyy else 0.0)
  }

  lemma {:induction false} LaplaceDiffers(g: Grid, u: (int, int) -> real, v: (int, int) -> real, i: int, j: int)
    requires g.Valid() && g.Inside(i, j)
    ensures Laplace(g, u, v, i, j) == Laplace(g, u, Zero, i, j) + Correction(g, v, i, j)
  {
    AxisDiffers(Extended(g, u, v, i - 1, j), u(i, j), Extended(g, u, v, i + 1, j), i == 0, i == g.n0 - 1, g.dxx);
    AxisDiffers(Extended(g, u, v, i, j - 1), u(i, j), Extended(g, u, v, i, j + 1), j == 0, j == g.n1 - 1, g.dyy);
  }

  /** Along one axis: what the neighbours outside the box contribute. */
  lemma AxisDiffers(a: real, b: real, c: real, lower: bool, upper: bool, d: real)
    requires d > 0.0
    ensures (a - 2.0 * b + c) / d ==
            ((if lower then 0.0 else a) - 2.0 * b + (if upper then 0.0 else c)) / d + (if lower then a / d else 0.0) + if upper then c / d else 0.0
  {
  }

  /** The correction preserves meaning: with the corrected source u solves the problem with zero guard values exactly
      when with the given source it solves the problem with guard values v; corners and boxes one point wide included. */
  lemma CorrectionPreservesSolutions(g: Grid, u: (int, int) -> real, v: (int, int) -> real, rhs: (int, int) -> real, now: (int, int) -> real)
    requires g.Valid() && forall i, j :: g.Inside(i, j) ==> now(i, j) == rhs(i, j) - Correction(g, v, i, j)
    ensures Solves(g, u, Zero, now) <==> Solves(g, u, v, rhs)
  {
    forall i, j {:trigger now(i, j)} {:trigger rhs(i, j)} | g.Inside(i, j)
      ensures Laplace(g, u, Zero, i, j) == now(i, j) <==> Laplace(g, u, v, i, j) == rhs(i, j)
    {
      LaplaceDiffers(g, u, v, i, j);
    }
  }

  // ---------------------------------------------------------------- the edge loop

  /** The loop runs over the points (i, j) of an edge box of n0 + n1 by 2; point number e is (e / 2, e % 2). */
  function Edge(i: int, j: int): int { 2 * i + j }

  /** The part of the correction of point (a, b) that the edge points in `done` have made. */
  ghost function Made(g: Grid, v: (int, int) -> real, done: set<int>, a: int, b: int): real
    requires g.Valid()
  {
    (if a == 0 && Edge(g.n0 + b, 0) in done then v(-1, b) / g.dxx else 0.0)
    + (if a == g.n0 - 1 && Edge(g.n0 + b, 1) in done then v(a + 1, b) / g.dxx else 0.0)
    + (if b == 0 && Edge(a, 0) in done then v(a, -1) / g.dyy else 0.0)
    + (if b == g.n1 - 1 && Edge(a, 1) in done then v(a, b + 1) / g.dyy else 0.0)
  }

  function B(c: bool): int { if c then 1 else 0 }

  /** The point of the box an edge point belongs to, its guard neighbour, and the square of the spacing across. */
  method Locate(g: Grid, i: int, j: int) returns (a: int, b: int, ga: int, gb: int, dd: real)
    requires g.Valid() && 0 <= i < g.n0 + g.n1 && 0 <= j <= 1
    ensures if i < g.n0 then a == i && b == (if j == 0 then 0 else g.n1 - 1) && ga == a && gb == (if j == 0 then -1 else g.n1) && dd == g.dyy
            else b == i - g.n0 && a == (if j == 0 then 0 else g.n0 - 1) && gb == b && ga == (if j == 0 then -1 else g.n0) && dd == g.dxx
    ensures g.Inside(a, b)
  {
    var changing := i < g.n0;
    var iLo, iHi := !changing && j == 0, !changing && j == 1;
    var jLo, jHi := changing && j == 0, changing && j == 1;
    a := B(iHi) * (g.n0 - 1) + B(changing) * i;
    b := B(jHi) * (g.n1 - 1) + B(!changing) * (i - g.n0);
    ga := a - B(iLo) + B(iHi);
    gb := b - B(jLo) + B(jHi);
    dd := if changing then g.dyy else g.dxx;
  }

  lemma {:induction false} MadeNext(g: Grid, v: (int, int) -> real, done: set<int>, e: int, i: int, j: int, a: int, b: int, ga: int, gb: int, dd: real)
    requires g.Valid() && 0 <= i < g.n0 + g.n1 && 0 <= j <= 1 && e == Edge(i, j) && e !in done && g.Inside(a, b)
    requires if i < g.n0 then a == i && b == (if j == 0 then 0 else g.n1 - 1) && ga == a && gb == (if j == 0 then -1 else g.n1) && dd == g.dyy
             else b == i - g.n0 && a == (if j == 0 then 0 else g.n0 - 1) && gb == b && ga == (if j == 0 then -1 else g.n0) && dd == g.dxx
    ensures dd > 0.0 && Made(g, v, done + {e}, a, b) == Made(g, v, done, a, b) + v(ga, gb) / dd
    ensures forall c, d :: g.Inside(c, d) && (c != a || d != b) ==> Made(g, v, done + {e}, c, d) == Made(g, v, done, c, d)
  {
    forall k, m | 0 <= m <= 1 ensures Edge(k, m) in done + {e} <==> Edge(k, m) in done || (k == i && m == j) { }
  }

  /** The source holds its former content less what the edge points in `done` take off. */
  ghost predicate Corrected(rhs: array2<real>, g: Grid, v: (int, int) -> real, done: set<int>, was: (int, int) -> real)
    requires g.Valid()
    reads rhs
  {
    && rhs.Length0 == g.n0 && rhs.Length1 == g.n1
    && forall a, b :: g.Inside(a, b) ==> rhs[a, b] == was(a, b) - Made(g, v, done, a, b)
  }

  /** The body of the edge loop. */
  method EdgePoint(rhs: array2<real>, g: Grid, v: (int, int) -> real, i: int, j: int, ghost done: set<int>, ghost was: (int, int) -> real)
    requires g.Valid() && 0 <= i < g.n0 + g.n1 && 0 <= j <= 1 && Edge(i, j) !in done && Corrected(rhs, g, v, done, was)
    modifies rhs
    ensures Corrected(rhs, g, v, done + {Edge(i, j)}, was)
  {
    var a, b, ga, gb, dd := Locate(g, i, j);
    MadeNext(g, v, done, Edge(i, j), i, j, a, b, ga, gb, dd);
    AddAt(rhs, a, b, -v(ga, gb) / dd);
    Negative(v(ga, gb), dd);
  }

  lemma Negative(x: real, d: real)
    requires d > 0.0
    ensures -x / d == -(x / d)
  {
  }

  /** Atomic add to one entry. */
  method AddAt(rhs: array2<real>, a: int, b: int, x: real)
    requires 0 <= a < rhs.Length0 && 0 <= b < rhs.Length1
    modifies rhs
    ensures rhs[a, b] == old(rhs[a, b]) + x
    ensures forall c, d :: 0 <= c < rhs.Length0 && 0 <= d < rhs.Length1 && (c != a || d != b) ==> rhs[c, d] == old(rhs[c, d])
  {
    rhs[a, b] := rhs[a, b] + x;
  }

  /** SetDirichletBoundaries, with the guard values as a function of the guard point; the loop may run in any order, and
      the corners get two corrections. */
  method SetDirichletBoundaries(rhs: array2<real>, g: Grid, v: (int, int) -> real, order: seq<nat>, ghost was: (int, int) -> real)
    requires g.Valid() && Order(order, 2 * (g.n0 + g.n1)) && Corrected(rhs, g, v, {}, was)
    modifies rhs
    ensures rhs.Length0 == g.n0 && rhs.Length1 == g.n1
    ensures forall a, b :: g.Inside(a, b) ==> rhs[a, b] == was(a, b) - Correction(g, v, a, b)
  {
    InRange(order, 2 * (g.n0 + g.n1));
    ghost var done: set<int> := {};
    for k := 0 to |order|
      invariant forall n :: n in done <==> exists m :: 0 <= m < k && order[m] == n
      invariant Corrected(rhs, g, v, done, was)
    {
      var e := order[k];
      Distinct(order, |order|, k);
      EdgePoint(rhs, g, v, e / 2, e % 2, done, was);
      done := done + {e};
    }
    forall a, b | g.Inside(a, b) ensures rhs[a, b] == was(a, b) - Correction(g, v, a, b) {
      AllDone(g, order, done, a, b);
    }
  }

  lemma AllDone(g: Grid, order: seq<nat>, done: set<int>, a: int, b: int)
    requires g.Valid() && Order(order, 2 * (g.n0 + g.n1)) && g.Inside(a, b)
    requires forall n :: n in done <==> exists m :: 0 <= m < |order| && order[m] == n
    ensures Edge(g.n0 + b, 0) in done && Edge(g.n0 + b, 1) in done && Edge(a, 0) in done && Edge(a, 1) in done
  {
    var p := Covers(order, |order|, Edge(g.n0 + b, 0));
    var q := Covers(order, |order|, Edge(g.n0 + b, 1));
    var r := Covers(order, |order|, Edge(a, 0));
    var s := Covers(order, |order|, Edge(a, 1));
  }
}
