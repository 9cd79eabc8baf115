/** Particle shape factors against their reference, the centred B-splines on unit cells. */
module Shape {
  /** One step of the Cox-de Boor recursion: the two splines of order n-1 blended at u. */
  function Blend(n: nat, u: real, a: real, b: real): real
    requires n > 0
  {
    var h := (n as real + 1.0) / 2.0;
    ((h + u) * a + (h - u) * b) / (n as real)
  }

  /** The B-spline of order n centred at 0, by the Cox-de Boor recursion. */
  function Spline(n: nat, u: real): real {
    if n == 0 then (if -0.5 <= u < 0.5 then 1.0 else 0.0)
    else Blend(n, u, Spline(n - 1, u + 0.5), Spline(n - 1, u - 0.5))
  }

  /** Weight of cell i for a particle at x. */
  function At(n: nat, x: real, i: int): real { Spline(n, x - i as real) }

  function Spline1(u: real): real { if -1.0 <= u < 0.0 then 1.0 + u else if 0.0 <= u < 1.0 then 1.0 - u else 0.0 }

  function Spline2(u: real): real {
    if -1.5 <= u < -0.5 then 0.5 * (1.5 + u) * (1.5 + u)
    else if -0.5 <= u < 0.5 then 0.75 - u * u
    else if 0.5 <= u < 1.5 then 0.5 * (1.5 - u) * (1.5 - u) else 0.0
  }

  function Spline3(u: real): real {
    if -2.0 <= u < -1.0 then (2.0 + u) * (2.0 + u) * (2.0 + u) / 6.0
    else if -1.0 <= u < 0.0 then 2.0 / 3.0 - u * u * (1.0 + u / 2.0)
    else if 0.0 <= u < 1.0 then 2.0 / 3.0 - u * u * (1.0 - u / 2.0)
    else if 1.0 <= u < 2.0 then (2.0 - u) * (2.0 - u) * (2.0 - u) / 6.0 else 0.0
  }

  lemma Order1(u: real)
    ensures Spline(1, u) == Spline1(u)
  {
    assert Spline(0, u + 0.5) == if -1.0 <= u < 0.0 then 1.0 else 0.0;
    assert Spline(0, u - 0.5) == if 0.0 <= u < 1.0 then 1.0 else 0.0;
  }

  lemma {:induction false} Order2(u: real)
    ensures Spline(2, u) == Spline2(u)
  {
    Order1(u + 0.5);
    Order1(u - 0.5);
    Recursion2(u, Spline1(u + 0.5), Spline1(u - 0.5));
    Pieces2(u);
  }

  lemma Blend2(u: real, a: real, b: real)
    ensures Blend(2, u, a, b) == ((1.5 + u) * a + (1.5 - u) * b) / 2.0
  {
  }

  lemma Blend3(u: real, a: real, b: real)
    ensures Blend(3, u, a, b) == ((2.0 + u) * a + (2.0 - u) * b) / 3.0
  {
  }

  lemma {:induction false} Recursion2(u: real, a: real, b: real)
    requires a == Spline(1, u + 0.5) && b == Spline(1, u - 0.5)
    ensures Spline(2, u) == ((1.5 + u) * a + (1.5 - u) * b) / 2.0
  {
    Blend2(u, a, b);
  }

  lemma Pieces2(u: real)
    ensures ((1.5 + u) * Spline1(u + 0.5) + (1.5 - u) * Spline1(u - 0.5)) / 2.0 == Spline2(u)
  {
  }

  /** The two inner pieces of order 3, multiplied out. */
  lemma Inner3(u: real)
    ensures ((2.0 + u) * (0.75 - (u + 0.5) * (u + 0.5)) + (2.0 - u) * (0.5 * (1.0 + u) * (1.0 + u))) / 3.0 == 2.0 / 3.0 - u * u * (1.0 + u / 2.0)
  {
    var s, c := u * u, u * u * u;
    assert (2.0 + u) * (0.75 - (u + 0.5) * (u + 0.5)) == 1.0 - 1.5 * u - 3.0 * s - c by {
      assert 0.75 - (u + 0.5) * (u + 0.5) == 0.5 - u - s;
    }
    assert (2.0 - u) * (0.5 * (1.0 + u) * (1.0 + u)) == 1.0 + 1.5 * u - 0.5 * c by {
      assert 0.5 * (1.0 + u) * (1.0 + u) == 0.5 + u + 0.5 * s;
    }
  }

  lemma Outer3(u: real)
    ensures (2.0 + u) * (0.5 * (2.0 + u) * (2.0 + u)) / 3.0 == (2.0 + u) * (2.0 + u) * (2.0 + u) / 6.0
  {
  }

  lemma {:induction false} Recursion3(u: real, a: real, b: real)
    requires a == Spline(2, u + 0.5) && b == Spline(2, u - 0.5)
    ensures Spline(3, u) == ((2.0 + u) * a + (2.0 - u) * b) / 3.0
  {
    Blend3(u, a, b);
  }

  lemma Order3(u: real)
    ensures Spline(3, u) == Spline3(u)
  {
    Order2(u + 0.5);
    Order2(u - 0.5);
    Recursion3(u, Spline2(u + 0.5), Spline2(u - 0.5));
    Pieces3(u);
  }

  lemma Pieces3(u: real)
    ensures ((2.0 + u) * Spline2(u + 0.5) + (2.0 - u) * Spline2(u - 0.5)) / 3.0 == Spline3(u)
  {
    if u < 0.0 { Left3(u); } else { Right3(u); }
  }

  lemma Left3(u: real)
    requires u < 0.0
    ensures ((2.0 + u) * Spline2(u + 0.5) + (2.0 - u) * Spline2(u - 0.5)) / 3.0 == Spline3(u)
  {
    if u < -2.0 {
    } else if u < -1.0 {
      Outer3(u);
      assert Spline2(u + 0.5) == 0.5 * (2.0 + u) * (2.0 + u) && Spline2(u - 0.5) == 0.0;
    } else {
      Inner3(u);
      assert Spline2(u + 0.5) == 0.75 - (u + 0.5) * (u + 0.5) && Spline2(u - 0.5) == 0.5 * (1.0 + u) * (1.0 + u);
    }
  }

  lemma Right3(u: real)
    requires u >= 0.0
    ensures ((2.0 + u) * Spline2(u + 0.5) + (2.0 - u) * Spline2(u - 0.5)) / 3.0 == Spline3(u)
  {
    if u >= 2.0 {
    } else if u >= 1.0 {
      Outer3(-u);
      assert Spline2(u + 0.5) == 0.0 && Spline2(u - 0.5) == 0.5 * (2.0 - u) * (2.0 - u);
    } else {
      Inner3(-u);
      assert Spline2(u + 0.5) == 0.5 * (1.0 - u) * (1.0 - u) && Spline2(u - 0.5) == 0.75 - (u - 0.5) * (u - 0.5);
    }
  }

  /** The spline of order 0 to 3 in closed form. */
  function Weight(order: nat, u: real): real
    requires order <= 3
  {
    if order == 0 then (if -0.5 <= u < 0.5 then 1.0 else 0.0)
    else if order == 1 then Spline1(u) else if order == 2 then Spline2(u) else Spline3(u)
  }

  lemma WeightIsSpline(order: nat, u: real)
    requires order <= 3
    ensures Weight(order, u) == Spline(order, u)
  {
    if order == 1 { Order1(u); }
    if order == 2 { Order2(u); }
    if order == 3 { Order3(u); }
  }

  /** The leftmost cell a particle at x writes. */
  function Left(order: nat, x: real): int
    requires order <= 3
  {
    if order == 0 then (x + 0.5).Floor else if order == 1 then x.Floor
    else if order == 2 then (x + 0.5).Floor - 1 else x.Floor - 1
  }

  lemma Support(order: nat, x: real, i: int)
    requires order <= 3 && !(Left(order, x) <= i <= Left(order, x) + order)
    ensures Weight(order, x - i as real) == 0.0
  {
  }

  /** compute_shape_factor: the buffer receives the B-spline weights of the cells from the returned index on; all other
      cells have weight 0. */
  method ComputeShapeFactor(order: nat, sx: array<real>, xmid: real) returns (j: int)
    requires order <= 3 && sx.Length == order + 1
    modifies sx
    ensures j == Left(order, xmid)
    ensures forall k :: 0 <= k <= order ==> sx[k] == At(order, xmid, j + k)
    ensures forall i :: i < j || i > j + order ==> At(order, xmid, i) == 0.0
  {
    if order == 0 {
      j := (xmid + 0.5).Floor;
      sx[0] := 1.0;
    } else if order == 1 {
      j := xmid.Floor;
      var xint := xmid - j as real;
      sx[0] := 1.0 - xint;
      sx[1] := xint;
    } else if order == 2 {
      j := (xmid + 0.5).Floor;
      var xint := xmid - j as real;
      sx[0] := 0.5 * (0.5 - xint) * (0.5 - xint);
      sx[1] := 0.75 - xint * xint;
      sx[2] := 0.5 * (0.5 + xint) * (0.5 + xint);
      Pieces2At(xint);
      j := j - 1;
    } else {
      j := xmid.Floor;
      var xint := xmid - j as real;
      sx[0] := 1.0 / 6.0 * (1.0 - xint) * (1.0 - xint) * (1.0 - xint);
      sx[1] := 2.0 / 3.0 - xint * xint * (1.0 - xint / 2.0);
      sx[2] := 2.0 / 3.0 - (1.0 - xint) * (1.0 - xint) * (1.0 - 0.5 * (1.0 - xint));
      sx[3] := 1.0 / 6.0 * xint * xint * xint;
      Pieces3At(xint);
      j := j - 1;
    }
    WeightsDone(order, xmid, j, sx[..]);
  }

  lemma WeightsDone(order: nat, xmid: real, j: int, x: seq<real>)
    requires order <= 3 && |x| == order + 1 && j == Left(order, xmid)
    requires forall k :: 0 <= k <= order ==> x[k] == Weight(order, xmid - (j + k) as real)
    ensures forall k :: 0 <= k <= order ==> x[k] == At(order, xmid, j + k)
    ensures forall i :: i < j || i > j + order ==> At(order, xmid, i) == 0.0
  {
    forall k | 0 <= k <= order ensures x[k] == At(order, xmid, j + k) {
      WeightIsSpline(order, xmid - (j + k) as real);
    }
    forall i | i < j || i > j + order ensures At(order, xmid, i) == 0.0 {
      Support(order, xmid, i);
      WeightIsSpline(order, xmid - i as real);
    }
  }

  lemma Pieces2At(f: real)
    requires -0.5 <= f < 0.5
    ensures Weight(2, f + 1.0) == 0.5 * (0.5 - f) * (0.5 - f) && Weight(2, f) == 0.75 - f * f
    ensures Weight(2, f - 1.0) == 0.5 * (0.5 + f) * (0.5 + f)
  {
  }

  lemma Pieces3At(f: real)
    requires 0.0 <= f < 1.0
    ensures Weight(3, f + 1.0) == 1.0 / 6.0 * (1.0 - f) * (1.0 - f) * (1.0 - f)
    ensures Weight(3, f) == 2.0 / 3.0 - f * f * (1.0 - f / 2.0)
    ensures Weight(3, f - 1.0) == 2.0 / 3.0 - (1.0 - f) * (1.0 - f) * (1.0 - 0.5 * (1.0 - f))
    ensures Weight(3, f - 2.0) == 1.0 / 6.0 * f * f * f
  {
  }

  // ---------------------------------------------------------------- what the weights add up to

  /** Sum of the weights of the cells j, ..., j+k-1, and of the same weights times the cell index. */
  function Mass(order: nat, x: real, j: int, k: nat): real {
    if k == 0 then 0.0 else Mass(order, x, j, k - 1) + At(order, x, j + k - 1)
  }

  function Moment(order: nat, x: real, j: int, k: nat): real {
    if k == 0 then 0.0 else Moment(order, x, j, k - 1) + (j + k - 1) as real * At(order, x, j + k - 1)
  }

  /** The weights of a particle: order+1 of them, by offset from the leftmost cell. */
  lemma Weights(order: nat, x: real, k: nat)
    requires order <= 3 && k <= order
    ensures At(order, x, Left(order, x) + k) == Weight(order, x - (Left(order, x) + k) as real)
  {
    WeightIsSpline(order, x - (Left(order, x) + k) as real);
  }

  /** Partition of unity: the weights of a particle add up to 1. */
  lemma WeightsSumToOne(order: nat, x: real)
    requires order <= 3
    ensures Mass(order, x, Left(order, x), order + 1) == 1.0
  {
    var j := Left(order, x);
    Weights(order, x, 0);
    if order >= 1 { Weights(order, x, 1); }
    if order == 2 { Weights(order, x, 2); Pieces2At(x - (j + 1) as real); Sum2(x - (j + 1) as real); Mass3(order, x, j); }
    if order == 3 { Weights(order, x, 2); Weights(order, x, 3); Pieces3At(x - (j + 1) as real); Sum3(x - (j + 1) as real); Mass4(order, x, j); }
    if order == 1 { Mass2(order, x, j); }
  }

  lemma Mass2(order: nat, x: real, j: int)
    ensures Mass(order, x, j, 2) == At(order, x, j) + At(order, x, j + 1)
  {
    assert Mass(order, x, j, 1) == At(order, x, j);
  }

  lemma Mass3(order: nat, x: real, j: int)
    ensures Mass(order, x, j, 3) == At(order, x, j) + At(order, x, j + 1) + At(order, x, j + 2)
  {
    Mass2(order, x, j);
  }

  lemma Mass4(order: nat, x: real, j: int)
    ensures Mass(order, x, j, 4) == At(order, x, j) + At(order, x, j + 1) + At(order, x, j + 2) + At(order, x, j + 3)
  {
    Mass3(order, x, j);
  }

  lemma Sum2(f: real)
    ensures 0.5 * (0.5 - f) * (0.5 - f) + (0.75 - f * f) + 0.5 * (0.5 + f) * (0.5 + f) == 1.0
  {
  }

  lemma Sum3(f: real)
    ensures 1.0 / 6.0 * (1.0 - f) * (1.0 - f) * (1.0 - f) + (2.0 / 3.0 - f * f * (1.0 - f / 2.0))
            + (2.0 / 3.0 - (1.0 - f) * (1.0 - f) * (1.0 - 0.5 * (1.0 - f))) + 1.0 / 6.0 * f * f * f == 1.0
  {
  }

  /** First moment: from order 1 on the weighted mean of the cells is the position of the particle. */
  lemma WeightsCentred(order: nat, x: real)
    requires 1 <= order <= 3
    ensures Moment(order, x, Left(order, x), order + 1) == x
  {
    if order == 1 { Centred1(x); } else if order == 2 { Centred2(x); } else { Centred3(x); }
  }

  lemma Centred1(x: real)
    ensures Moment(1, x, Left(1, x), 2) == x
  {
    var j := Left(1, x);
    Weights(1, x, 0);
    Weights(1, x, 1);
    Moment2(1, x, j);
    Balance1(j as real, x - j as real);
  }

  lemma {:induction false} Centred2(x: real)
    ensures Moment(2, x, Left(2, x), 3) == x
  {
    var j := Left(2, x);
    var f := x - (j + 1) as real;
    Weights(2, x, 0);
    Weights(2, x, 1);
    Weights(2, x, 2);
    Pieces2At(f);
    Moment3(2, x, j);
    Same3(j, 0.5 * (0.5 - f) * (0.5 - f), 0.75 - f * f, 0.5 * (0.5 + f) * (0.5 + f), 0.0);
    Balance2((j + 1) as real, f);
  }

  lemma Same3(j: int, a: real, b: real, c: real, d: real)
    ensures j as real * a + (j + 1) as real * b + (j + 2) as real * c + (j + 3) as real * d
            == ((j + 1) as real - 1.0) * a + (j + 1) as real * b + ((j + 1) as real + 1.0) * c + ((j + 1) as real + 2.0) * d
  {
    assert (j + 2) as real == (j + 1) as real + 1.0 && (j + 3) as real == (j + 1) as real + 2.0;
  }

  lemma {:induction false} Centred3(x: real)
    ensures Moment(3, x, Left(3, x), 4) == x
  {
    var j := Left(3, x);
    var f := x - (j + 1) as real;
    Cubic(x, j, f);
    Moment4(3, x, j);
    Balance4(j, f, At(3, x, j), At(3, x, j + 1), At(3, x, j + 2), At(3, x, j + 3));
  }

  lemma {:induction false} Cubic(x: real, j: int, f: real)
    requires j == Left(3, x) && f == x - (j + 1) as real
    ensures && At(3, x, j) == 1.0 / 6.0 * (1.0 - f) * (1.0 - f) * (1.0 - f)
            && At(3, x, j + 1) == 2.0 / 3.0 - f * f * (1.0 - f / 2.0)
            && At(3, x, j + 2) == 2.0 / 3.0 - (1.0 - f) * (1.0 - f) * (1.0 - 0.5 * (1.0 - f))
            && At(3, x, j + 3) == 1.0 / 6.0 * f * f * f
  {
    Offset(x, j, 0, f + 1.0);
    Offset(x, j, 1, f);
    Offset(x, j, 2, f - 1.0);
    Offset(x, j, 3, f - 2.0);
    Pieces3At(f);
  }

  lemma Offset(x: real, j: int, k: nat, u: real)
    requires j == Left(3, x) && k <= 3 && u == x - (j + k) as real
    ensures At(3, x, j + k) == Weight(3, u)
  {
    WeightIsSpline(3, u);
  }

  lemma Balance4(j: int, f: real, a: real, b: real, c: real, d: real)
    requires a == 1.0 / 6.0 * (1.0 - f) * (1.0 - f) * (1.0 - f) && b == 2.0 / 3.0 - f * f * (1.0 - f / 2.0)
    requires c == 2.0 / 3.0 - (1.0 - f) * (1.0 - f) * (1.0 - 0.5 * (1.0 - f)) && d == 1.0 / 6.0 * f * f * f
    ensures j as real * a + (j + 1) as real * b + (j + 2) as real * c + (j + 3) as real * d == (j + 1) as real + f
  {
    Balance3((j + 1) as real, f);
    Same3(j, a, b, c, d);
  }

  lemma Moment2(order: nat, x: real, j: int)
    ensures Moment(order, x, j, 2) == j as real * At(order, x, j) + (j + 1) as real * At(order, x, j + 1)
  {
    assert Moment(order, x, j, 1) == j as real * At(order, x, j);
  }

  lemma Moment3(order: nat, x: real, j: int)
    ensures Moment(order, x, j, 3) == j as real * At(order, x, j) + (j + 1) as real * At(order, x, j + 1) + (j + 2) as real * At(order, x, j + 2)
  {
    Moment2(order, x, j);
  }

  lemma Moment4(order: nat, x: real, j: int)
    ensures Moment(order, x, j, 4) == j as real * At(order, x, j) + (j + 1) as real * At(order, x, j + 1) + (j + 2) as real * At(order, x, j + 2) + (j + 3) as real * At(order, x, j + 3)
  {
    Moment3(order, x, j);
  }

  lemma Balance1(m: real, f: real)
    ensures m * (1.0 - f) + (m + 1.0) * f == m + f
  {
  }

  lemma Balance2(m: real, f: real)
    ensures (m - 1.0) * (0.5 * (0.5 - f) * (0.5 - f)) + m * (0.75 - f * f) + (m + 1.0) * (0.5 * (0.5 + f) * (0.5 + f)) == m + f
  {
    Sum2(f);
    Spread(m, 0.5 * (0.5 - f) * (0.5 - f), 0.75 - f * f, 0.5 * (0.5 + f) * (0.5 + f), 0.0);
  }

  lemma Balance3(m: real, f: real)
    ensures (m - 1.0) * (1.0 / 6.0 * (1.0 - f) * (1.0 - f) * (1.0 - f)) + m * (2.0 / 3.0 - f * f * (1.0 - f / 2.0))
            + (m + 1.0) * (2.0 / 3.0 - (1.0 - f) * (1.0 - f) * (1.0 - 0.5 * (1.0 - f))) + (m + 2.0) * (1.0 / 6.0 * f * f * f) == m + f
  {
    Sum3(f);
    Tilt3(f);
    Spread(m, 1.0 / 6.0 * (1.0 - f) * (1.0 - f) * (1.0 - f), 2.0 / 3.0 - f * f * (1.0 - f / 2.0),
           2.0 / 3.0 - (1.0 - f) * (1.0 - f) * (1.0 - 0.5 * (1.0 - f)), 1.0 / 6.0 * f * f * f);
  }

  lemma Tilt3(f: real)
    ensures -(1.0 / 6.0 * (1.0 - f) * (1.0 - f) * (1.0 - f)) + (2.0 / 3.0 - (1.0 - f) * (1.0 - f) * (1.0 - 0.5 * (1.0 - f)))
            + 2.0 * (1.0 / 6.0 * f * f * f) == f
  {
  }

  lemma Spread(m: real, a: real, b: real, c: real, d: real)
    requires a + b + c + d == 1.0
    ensures (m - 1.0) * a + m * b + (m + 1.0) * c + (m + 2.0) * d == m + (-a + c + 2.0 * d)
  {
    assert m * a + m * b + m * c + m * d == m * (a + b + c + d);
  }
}
