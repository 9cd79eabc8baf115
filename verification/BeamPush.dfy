/** The longitudinal part of the beam pusher: in the frame that moves at the speed of light no particle gets ahead. The
    pipeline model asks this of its push. */
module BeamPush {
  import opened Arith

  /** Momenta after a substep, and the Lorentz factor computed from them with 1/c^2. */
  datatype Next = Next(ux: real, uy: real, uz: real, gamma: real)
  {
    ghost predicate Valid(clightsq: real) {
      gamma > 0.0 && gamma * gamma == 1.0 + uz * uz * clightsq + ux * ux * clightsq + uy * uy * clightsq
    }
  }

  lemma Square(x: real)
    ensures x * x >= 0.0
  {
  }

  lemma SquaresOrder(x: real, y: real)
    requires y >= 0.0 && x * x < y * y
    ensures x < y
  {
    if x >= y {
      MulLe(y, x, x);
      MulLe(y, x, y);
    }
  }

  lemma Scale(u: real, g: real, c: real, k: real)
    requires c > 0.0 && k * (c * c) == 1.0 && u * u * k < g * g
    ensures u * u < (g * c) * (g * c)
  {
    MulLt(u * u * k, g * g, c * c);
    assert u * u * k * (c * c) == u * u * (k * (c * c));
    assert g * g * (c * c) == (g * c) * (g * c);
  }

  lemma Ratio(u: real, g: real, c: real)
    requires g > 0.0 && u < g * c
    ensures u / g < c
  {
    var q := u / g;
    assert q * g == u;
    if q >= c { MulLe(c, q, g); }
  }

  /** The velocity stays below that of light. */
  lemma BelowLight(n: Next, c: real, clightsq: real)
    requires c > 0.0 && clightsq == 1.0 / (c * c) && n.Valid(clightsq)
    ensures n.uz / n.gamma < c
  {
    assert c * c > 0.0;
    assert clightsq * (c * c) == 1.0;
    Transverse(n.ux, clightsq);
    Transverse(n.uy, clightsq);
    Scale(n.uz, n.gamma, c, clightsq);
    assert n.gamma * c >= 0.0;
    SquaresOrder(n.uz, n.gamma * c);
    Ratio(n.uz, n.gamma, c);
  }

  lemma Transverse(u: real, k: real)
    requires k > 0.0
    ensures u * u * k >= 0.0
  {
    Square(u);
    MulLe(0.0, u * u, k);
  }

  /** d is i times the way of a substep with momenta m, relative to light. */
  ghost predicate Advanced(d: real, m: Next, dt: real, c: real, i: nat) { d * m.gamma == i as real * (dt * (m.uz - c * m.gamma)) }

  /** The second half of a substep. */
  method Substep(z: real, dt: real, c: real, m: Next) returns (r: real)
    requires c > 0.0 && dt >= 0.0 && m.Valid(1.0 / (c * c))
    ensures r <= z && (dt > 0.0 ==> r < z)
    ensures forall d: real, i: nat :: Advanced(d, m, dt, c, i) ==> Advanced(d + (r - z), m, dt, c, i + 1)
  {
    BelowLight(m, c, 1.0 / (c * c));
    Behind(dt, m.uz / m.gamma, c);
    r := z + dt * (m.uz / m.gamma - c);
    forall d: real, i: nat | Advanced(d, m, dt, c, i) ensures Advanced(d + (r - z), m, dt, c, i + 1) {
      OneMore(i as real, (i + 1) as real, dt * (m.uz - c * m.gamma), d, dt, m, c);
    }
  }

  /** The substeps of one particle: `next(i)` are the momenta substep i computes, `lost1(i)` and `lost2(i)` whether the
      boundary condition ends the loop after its first or its second half. A particle that is not lost moves by the way of
      every substep. */
  method Substeps(z: real, n: nat, dt: real, c: real, next: nat -> Next, lost1: nat -> bool, lost2: nat -> bool, doZPush: bool) returns (zp: real)
    requires c > 0.0 && dt >= 0.0 && forall i :: next(i).Valid(1.0 / (c * c))
    ensures zp <= z && (!doZPush ==> zp == z)
    ensures doZPush && dt > 0.0 && n > 0 && !lost1(0) ==> zp < z
    ensures n > 0 && lost1(0) ==> zp == z
    ensures doZPush && n > 0 && !lost1(0) && lost2(0) ==> Advanced(zp - z, next(0), dt, c, 1)
    ensures doZPush && (forall i :: 0 <= i < n ==> !lost1(i) && !lost2(i) && next(i) == next(0)) ==> Advanced(zp - z, next(0), dt, c, n)
  {
    zp := z;
    for i := 0 to n
      invariant zp <= z && (!doZPush ==> zp == z) && (doZPush && dt > 0.0 && i > 0 ==> zp < z)
      invariant (i == 0 ==> zp == z) && (i > 0 ==> !lost1(0) && !lost2(0))
      invariant doZPush && (forall k :: 0 <= k < i ==> next(k) == next(0)) ==> Advanced(zp - z, next(0), dt, c, i)
    {
      if lost1(i) { return; }
      if doZPush {
        var was := zp;
        zp := Substep(zp, dt, c, next(i));
        assert was - z + (zp - was) == zp - z;
      }
      if lost2(i) { return; }
    }
  }

  /** One substep more of the same momenta. */
  lemma OneMore(i: real, j: real, step: real, moved: real, dt: real, m: Next, c: real)
    requires j == i + 1.0 && m.gamma > 0.0
    ensures (moved + dt * (m.uz / m.gamma - c)) * m.gamma == moved * m.gamma + dt * (m.uz - c * m.gamma)
    ensures j * step == i * step + step
  {
    var v, g := m.uz / m.gamma, m.gamma;
    assert v * g == m.uz;
    Expand(moved, dt, v, c, g);
  }

  lemma Expand(x: real, dt: real, v: real, c: real, g: real)
    ensures (x + dt * (v - c)) * g == x * g + dt * (v * g - c * g)
  {
  }

  lemma Behind(dt: real, v: real, c: real)
    requires v < c && dt >= 0.0
    ensures dt * (v - c) <= 0.0 && (dt > 0.0 ==> dt * (v - c) < 0.0)
  {
    if dt > 0.0 { MulLt(v - c, 0.0, dt); }
  }
}
