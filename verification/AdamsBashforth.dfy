/** The pusher's integrator over whole runs: once the history is filled it is exact for forces that are polynomials of
    degree at most 4 along the slices. */
module AdamsBashforth {
  import opened PlasmaPush

  lemma Degree0(h: real)
    ensures Increment(h, 1.0, 1.0, 1.0, 1.0, 1.0) == h
  {
  }

  lemma Degree1(z: real, h: real)
    ensures Increment(h, z, z + h, z + 2.0 * h, z + 3.0 * h, z + 4.0 * h) == (z * z - (z - h) * (z - h)) / 2.0
  {
  }

  function P2(z: real): real { z * z }
  function P3(z: real): real { z * z * z }
  function P4(z: real): real { z * z * z * z }
  function P5(z: real): real { z * z * z * z * z }
  function P6(z: real): real { z * z * z * z * z * z }

  lemma Degree2(z: real, h: real)
    ensures Increment(h, P2(z), P2(z + h), P2(z + 2.0 * h), P2(z + 3.0 * h), P2(z + 4.0 * h)) == (P3(z) - P3(z - h)) / 3.0
  {
  }

  lemma Degree3(z: real, h: real)
    ensures Increment(h, P3(z), P3(z + h), P3(z + 2.0 * h), P3(z + 3.0 * h), P3(z + 4.0 * h)) == (P4(z) - P4(z - h)) / 4.0
  {
  }

  lemma {:induction false} Degree4(z: real, h: real)
    ensures Increment(h, P4(z), P4(z + h), P4(z + 2.0 * h), P4(z + 3.0 * h), P4(z + 4.0 * h)) == (P5(z) - P5(z - h)) / 5.0
  {
  }

  /** (z + k h)^5 from the products of the powers of z and h. */
  function Shifted5(k: real, a: real, b: real, c: real, d: real, e: real, f: real): real {
    a + 5.0 * k * b + 10.0 * k * k * c + 10.0 * k * k * k * d + 5.0 * k * k * k * k * e + k * k * k * k * k * f
  }

  lemma {:induction false} Fifth(z: real, h: real, k: real, x: real)
    requires x == z + k * h
    ensures P5(x) == Shifted5(k, P5(z), P4(z) * h, P3(z) * P2(h), P2(z) * P3(h), z * P4(h), P5(h))
  {
  }

  lemma Sixth(z: real, h: real, a: real, b: real, c: real, d: real, e: real, f: real)
    requires a == P5(z) && b == P4(z) * h && c == P3(z) * P2(h) && d == P2(z) * P3(h) && e == z * P4(h) && f == P5(h)
    ensures P6(z) - P6(z - h) == h * (6.0 * a - 15.0 * b + 20.0 * c - 15.0 * d + 6.0 * e - f)
  {
    Fifth(z, h, -1.0, z - h);
    Sixfold(z - h);
    Sixfold(z);
    Products(z, h);
    SixthStep(z, h, a, b, c, d, e, f);
  }

  lemma Sixfold(x: real)
    ensures P6(x) == x * P5(x)
  {
  }

  lemma Products(z: real, h: real)
    ensures z * (P4(z) * h) == h * P5(z) && z * (P3(z) * P2(h)) == h * (P4(z) * h) && z * (P2(z) * P3(h)) == h * (P3(z) * P2(h))
    ensures z * (z * P4(h)) == h * (P2(z) * P3(h)) && z * P5(h) == h * (z * P4(h)) && z * P5(z) == P6(z)
  {
  }

  lemma SixthStep(z: real, h: real, a: real, b: real, c: real, d: real, e: real, f: real)
    requires z * b == h * a && z * c == h * b && z * d == h * c && z * e == h * d && z * f == h * e
    ensures z * a - (z - h) * Shifted5(-1.0, a, b, c, d, e, f) == h * (6.0 * a - 15.0 * b + 20.0 * c - 15.0 * d + 6.0 * e - f)
  {
  }

  lemma {:induction false} Combined(h: real, a: real, b: real, c: real, d: real, e: real, f: real)
    ensures Increment(h, Shifted5(0.0, a, b, c, d, e, f), Shifted5(1.0, a, b, c, d, e, f), Shifted5(2.0, a, b, c, d, e, f),
                      Shifted5(3.0, a, b, c, d, e, f), Shifted5(4.0, a, b, c, d, e, f)) ==
            h * (6.0 * a - 15.0 * b + 20.0 * c - 15.0 * d + 6.0 * e - f) / 6.0 + 475.0 / 12.0 * (h * f)
  {
  }

  /** Degree 4 is the limit: what one push adds to the integral of the fifth power. */
  lemma {:induction false} Degree5Error(z: real, h: real)
    ensures Increment(h, P5(z), P5(z + h), P5(z + 2.0 * h), P5(z + 3.0 * h), P5(z + 4.0 * h)) == (P6(z) - P6(z - h)) / 6.0 + 475.0 / 12.0 * P6(h)
  {
    var a, b, c, d, e, f := P5(z), P4(z) * h, P3(z) * P2(h), P2(z) * P3(h), z * P4(h), P5(h);
    Fifth(z, h, 0.0, z);
    Fifth(z, h, 1.0, z + h);
    Fifth(z, h, 2.0, z + 2.0 * h);
    Fifth(z, h, 3.0, z + 3.0 * h);
    Fifth(z, h, 4.0, z + 4.0 * h);
    Combined(h, a, b, c, d, e, f);
    Sixth(z, h, a, b, c, d, e, f);
    Sixfold(h);
  }

  function Plus(f: real -> real, g: real -> real): real -> real { (z: real) => f(z) + g(z) }

  function Multiple(c: real, f: real -> real): real -> real { (z: real) => c * f(z) }

  /** The power z^k and its integral. */
  function F0(): real -> real { (z: real) => 1.0 }
  function U0(): real -> real { (z: real) => z }
  function F1(): real -> real { (z: real) => z }
  function U1(): real -> real { (z: real) => P2(z) / 2.0 }
  function F2(): real -> real { (z: real) => P2(z) }
  function U2(): real -> real { (z: real) => P3(z) / 3.0 }
  function F3(): real -> real { (z: real) => P3(z) }
  function U3(): real -> real { (z: real) => P4(z) / 4.0 }
  function F4(): real -> real { (z: real) => P4(z) }
  function U4(): real -> real { (z: real) => P5(z) / 5.0 }

  /** The polynomial c0 + c1 z + ... + c4 z^4, and its integral from 0. */
  datatype Poly = Poly(c0: real, c1: real, c2: real, c3: real, c4: real)
  {
    function Force(): real -> real {
      Plus(Plus(Plus(Plus(Multiple(c0, F0()), Multiple(c1, F1())), Multiple(c2, F2())), Multiple(c3, F3())), Multiple(c4, F4()))
    }

    function Primitive(): real -> real {
      Plus(Plus(Plus(Plus(Multiple(c0, U0()), Multiple(c1, U1())), Multiple(c2, U2())), Multiple(c3, U3())), Multiple(c4, U4()))
    }

    function At(z: real): real { Force()(z) }

    function Integral(z: real): real { Primitive()(z) }
  }

  lemma {:induction false} PolyIs(p: Poly, z: real)
    ensures p.At(z) == p.c0 + p.c1 * z + p.c2 * (z * z) + p.c3 * (z * z * z) + p.c4 * (z * z * z * z)
  {
  }

  lemma PrimitiveIs(p: Poly, z: real)
    ensures p.Integral(z) == p.c0 * z + p.c1 * (z * z / 2.0) + p.c2 * (z * z * z / 3.0) + p.c3 * (z * z * z * z / 4.0) + p.c4 * (z * z * z * z * z / 5.0)
  {
  }

  /** A formula for the increment, as a function of the last five values of the force. */
  type Formula = (real, real, real, real, real) -> real

  /** The formula, on slice z, integrates the force f exactly, with the integral u. */
  ghost predicate ExactAt(inc: Formula, f: real -> real, u: real -> real, h: real, z: real) {
    inc(f(z), f(z + h), f(z + 2.0 * h), f(z + 3.0 * h), f(z + 4.0 * h)) == u(z) - u(z - h)
  }

  ghost predicate Exact(inc: Formula, f: real -> real, u: real -> real, h: real) { forall z :: ExactAt(inc, f, u, h, z) }

  ghost predicate AddsAt(inc: Formula, a: real, b: real, c: real, d: real, e: real, a': real, b': real, c': real, d': real, e': real) {
    inc(a + a', b + b', c + c', d + d', e + e') == inc(a, b, c, d, e) + inc(a', b', c', d', e')
  }

  ghost predicate ScalesAt(inc: Formula, k: real, a: real, b: real, c: real, d: real, e: real) {
    inc(k * a, k * b, k * c, k * d, k * e) == k * inc(a, b, c, d, e)
  }

  ghost predicate Linear(inc: Formula) {
    && (forall a, b, c, d, e, a', b', c', d', e' :: AddsAt(inc, a, b, c, d, e, a', b', c', d', e'))
    && (forall k, a, b, c, d, e :: ScalesAt(inc, k, a, b, c, d, e))
  }

  /** The pusher's formula. */
  function Push(h: real): Formula { (a, b, c, d, e) => Increment(h, a, b, c, d, e) }

  lemma PushLinear(h: real)
    ensures Linear(Push(h))
  {
    forall a: real, b: real, c: real, d: real, e: real, a': real, b': real, c': real, d': real, e': real
      ensures AddsAt(Push(h), a, b, c, d, e, a', b', c', d', e') { }
    forall k: real, a: real, b: real, c: real, d: real, e: real ensures ScalesAt(Push(h), k, a, b, c, d, e) { }
  }

  /** Sums and multiples of exactly integrated forces are integrated exactly. */
  lemma {:induction false} ExactSum(inc: Formula, f: real -> real, u: real -> real, g: real -> real, v: real -> real, h: real)
    requires Linear(inc) && Exact(inc, f, u, h) && Exact(inc, g, v, h)
    ensures Exact(inc, Plus(f, g), Plus(u, v), h)
  {
    forall z ensures ExactAt(inc, Plus(f, g), Plus(u, v), h, z) {
      assert ExactAt(inc, f, u, h, z) && ExactAt(inc, g, v, h, z);
      assert AddsAt(inc, f(z), f(z + h), f(z + 2.0 * h), f(z + 3.0 * h), f(z + 4.0 * h), g(z), g(z + h), g(z + 2.0 * h), g(z + 3.0 * h), g(z + 4.0 * h));
    }
  }

  lemma {:induction false} ExactMultiple(inc: Formula, c: real, f: real -> real, u: real -> real, h: real)
    requires Linear(inc) && Exact(inc, f, u, h)
    ensures Exact(inc, Multiple(c, f), Multiple(c, u), h)
  {
    forall z ensures ExactAt(inc, Multiple(c, f), Multiple(c, u), h, z) {
      assert ExactAt(inc, f, u, h, z);
      MultipleAt(inc, c, f, u, Multiple(c, f), Multiple(c, u), h, z);
    }
  }

  lemma MultipleAt(inc: Formula, c: real, f: real -> real, u: real -> real, g: real -> real, v: real -> real, h: real, z: real)
    requires Linear(inc) && ExactAt(inc, f, u, h, z) && (forall x :: g(x) == c * f(x)) && forall x :: v(x) == c * u(x)
    ensures ExactAt(inc, g, v, h, z)
  {
    assert ScalesAt(inc, c, f(z), f(z + h), f(z + 2.0 * h), f(z + 3.0 * h), f(z + 4.0 * h));
    ScaledExact(inc, c, f(z), f(z + h), f(z + 2.0 * h), f(z + 3.0 * h), f(z + 4.0 * h), u(z), u(z - h),
                g(z), g(z + h), g(z + 2.0 * h), g(z + 3.0 * h), g(z + 4.0 * h), v(z), v(z - h));
  }

  lemma ScaledExact(inc: Formula, k: real, a: real, b: real, c: real, d: real, e: real, v: real, w: real,
                    a': real, b': real, c': real, d': real, e': real, v': real, w': real)
    requires ScalesAt(inc, k, a, b, c, d, e) && inc(a, b, c, d, e) == v - w
    requires a' == k * a && b' == k * b && c' == k * c && d' == k * d && e' == k * e && v' == k * v && w' == k * w
    ensures inc(a', b', c', d', e') == v' - w'
  {
    Distribute(k, inc(a, b, c, d, e), v, w);
  }

  lemma Distribute(c: real, i: real, a: real, b: real)
    requires i == a - b
    ensures c * i == c * a - c * b
  {
  }

  lemma Exact0(h: real)
    ensures Exact(Push(h), F0(), U0(), h)
  {
    forall z ensures ExactAt(Push(h), F0(), U0(), h, z) { Degree0(h); }
  }

  lemma Exact1(h: real)
    ensures Exact(Push(h), F1(), U1(), h)
  {
    forall z ensures ExactAt(Push(h), F1(), U1(), h, z) { Degree1(z, h); }
  }

  lemma Exact2(h: real)
    ensures Exact(Push(h), F2(), U2(), h)
  {
    forall z ensures ExactAt(Push(h), F2(), U2(), h, z) { Degree2(z, h); }
  }

  lemma Exact3(h: real)
    ensures Exact(Push(h), F3(), U3(), h)
  {
    forall z ensures ExactAt(Push(h), F3(), U3(), h, z) { Degree3(z, h); }
  }

  lemma Exact4(h: real)
    ensures Exact(Push(h), F4(), U4(), h)
  {
    forall z ensures ExactAt(Push(h), F4(), U4(), h, z) { Degree4(z, h); }
  }

  lemma ExactFive(inc: Formula, c0: real, c1: real, c2: real, c3: real, c4: real, f0: real -> real, u0: real -> real, f1: real -> real, u1: real -> real,
                  f2: real -> real, u2: real -> real, f3: real -> real, u3: real -> real, f4: real -> real, u4: real -> real, h: real)
    requires Linear(inc) && Exact(inc, f0, u0, h) && Exact(inc, f1, u1, h) && Exact(inc, f2, u2, h) && Exact(inc, f3, u3, h) && Exact(inc, f4, u4, h)
    ensures Exact(inc, Plus(Plus(Plus(Plus(Multiple(c0, f0), Multiple(c1, f1)), Multiple(c2, f2)), Multiple(c3, f3)), Multiple(c4, f4)),
                  Plus(Plus(Plus(Plus(Multiple(c0, u0), Multiple(c1, u1)), Multiple(c2, u2)), Multiple(c3, u3)), Multiple(c4, u4)), h)
  {
    ExactMultiple(inc, c0, f0, u0, h);
    ExactMultiple(inc, c1, f1, u1, h);
    ExactMultiple(inc, c2, f2, u2, h);
    ExactMultiple(inc, c3, f3, u3, h);
    ExactMultiple(inc, c4, f4, u4, h);
    var f, u := Plus(Multiple(c0, f0), Multiple(c1, f1)), Plus(Multiple(c0, u0), Multiple(c1, u1));
    ExactSum(inc, Multiple(c0, f0), Multiple(c0, u0), Multiple(c1, f1), Multiple(c1, u1), h);
    ExactSum(inc, f, u, Multiple(c2, f2), Multiple(c2, u2), h);
    f, u := Plus(f, Multiple(c2, f2)), Plus(u, Multiple(c2, u2));
    ExactSum(inc, f, u, Multiple(c3, f3), Multiple(c3, u3), h);
    f, u := Plus(f, Multiple(c3, f3)), Plus(u, Multiple(c3, u3));
    ExactSum(inc, f, u, Multiple(c4, f4), Multiple(c4, u4), h);
  }

  /** Any polynomial force of degree at most 4 is integrated exactly. */
  lemma ExactPoly(p: Poly, h: real)
    ensures Exact(Push(h), p.Force(), p.Primitive(), h)
  {
    Exact0(h);
    Exact1(h);
    Exact2(h);
    Exact3(h);
    Exact4(h);
    PushLinear(h);
    ExactFive(Push(h), p.c0, p.c1, p.c2, p.c3, p.c4, F0(), U0(), F1(), U1(), F2(), U2(), F3(), U3(), F4(), U4(), h);
  }

  /** One push integrates a polynomial force of degree at most 4 exactly. */
  lemma ExactStep(p: Poly, z: real, h: real)
    ensures Increment(h, p.At(z), p.At(z + h), p.At(z + 2.0 * h), p.At(z + 3.0 * h), p.At(z + 4.0 * h)) == p.Integral(z) - p.Integral(z - h)
  {
    ExactPoly(p, h);
    assert ExactAt(Push(h), p.Force(), p.Primitive(), h, z);
  }

  function F5(): real -> real { (z: real) => P5(z) }
  function U5(): real -> real { (z: real) => P6(z) / 6.0 }

  lemma SixthZero(c: real, h: real, x: real)
    requires x == 475.0 / 12.0 * P6(h)
    ensures c * x == 0.0 <==> h == 0.0 || c == 0.0
  {
    if h != 0.0 {
      var s := h * h;
      SquarePositive(h, s);
      var t := s * s;
      MulPositive(s, s, t);
      var u := t * s;
      MulPositive(t, s, u);
      SixthIsCube(h, s, t, u);
      if c != 0.0 { NonZero(c, x); }
    }
  }

  lemma SquarePositive(a: real, s: real)
    requires a != 0.0 && s == a * a
    ensures s > 0.0
  {
    if a > 0.0 {
      MulPositive(a, a, s);
    } else {
      var b := -a;
      assert s == b * b;
      MulPositive(b, b, s);
    }
  }

  lemma MulPositive(t: real, s: real, u: real)
    requires t > 0.0 && s > 0.0 && u == t * s
    ensures u > 0.0
  {
  }

  lemma SixthIsCube(h: real, s: real, t: real, u: real)
    requires s == h * h && t == s * s && u == t * s
    ensures P6(h) == u
  {
  }

  lemma NonZero(a: real, b: real)
    requires a != 0.0 && b != 0.0
    ensures a * b != 0.0
  {
  }

  /** The formula misses the integral by x. */
  ghost predicate MissedAt(inc: Formula, f: real -> real, u: real -> real, h: real, z: real, x: real) {
    inc(f(z), f(z + h), f(z + 2.0 * h), f(z + 3.0 * h), f(z + 4.0 * h)) == u(z) - u(z - h) + x
  }

  lemma MissedExact(inc: Formula, f: real -> real, u: real -> real, h: real, z: real, x: real)
    requires MissedAt(inc, f, u, h, z, x)
    ensures ExactAt(inc, f, u, h, z) <==> x == 0.0
  {
  }

  lemma MissedSum(inc: Formula, f: real -> real, u: real -> real, g: real -> real, v: real -> real, h: real, z: real, x: real)
    requires Linear(inc) && ExactAt(inc, f, u, h, z) && MissedAt(inc, g, v, h, z, x)
    ensures MissedAt(inc, Plus(f, g), Plus(u, v), h, z, x)
  {
    assert AddsAt(inc, f(z), f(z + h), f(z + 2.0 * h), f(z + 3.0 * h), f(z + 4.0 * h), g(z), g(z + h), g(z + 2.0 * h), g(z + 3.0 * h), g(z + 4.0 * h));
  }

  lemma MissedMultiple(inc: Formula, c: real, f: real -> real, u: real -> real, g: real -> real, v: real -> real, h: real, z: real, x: real)
    requires Linear(inc) && MissedAt(inc, f, u, h, z, x) && (forall y :: g(y) == c * f(y)) && forall y :: v(y) == c * u(y)
    ensures MissedAt(inc, g, v, h, z, c * x)
  {
    assert ScalesAt(inc, c, f(z), f(z + h), f(z + 2.0 * h), f(z + 3.0 * h), f(z + 4.0 * h));
    ScaledMissed(inc, c, f(z), f(z + h), f(z + 2.0 * h), f(z + 3.0 * h), f(z + 4.0 * h), u(z), u(z - h), x,
                 g(z), g(z + h), g(z + 2.0 * h), g(z + 3.0 * h), g(z + 4.0 * h), v(z), v(z - h));
  }

  lemma ScaledMissed(inc: Formula, k: real, a: real, b: real, c: real, d: real, e: real, v: real, w: real, x: real,
                     a': real, b': real, c': real, d': real, e': real, v': real, w': real)
    requires ScalesAt(inc, k, a, b, c, d, e) && inc(a, b, c, d, e) == v - w + x
    requires a' == k * a && b' == k * b && c' == k * c && d' == k * d && e' == k * e && v' == k * v && w' == k * w
    ensures inc(a', b', c', d', e') == v' - w' + k * x
  {
    Expand(k, v, w, x, inc(a, b, c, d, e));
  }

  lemma Expand(k: real, p: real, q: real, x: real, i: real)
    requires i == p - q + x
    ensures k * i == k * p - k * q + k * x
  {
  }

  function Error5(h: real): real { 475.0 / 12.0 * P6(h) }

  /** How much a push misses the integral of the fifth power by; k times that is zero only where k or the step is. */
  lemma FifthMissed(k: real, z: real, h: real) returns (x: real)
    ensures MissedAt(Push(h), F5(), U5(), h, z, x) && (k * x == 0.0 <==> h == 0.0 || k == 0.0)
  {
    x := Error5(h);
    FifthMissedBy(z, h);
    SixthZero(k, h, x);
  }

  lemma FifthMissedBy(z: real, h: real)
    ensures MissedAt(Push(h), F5(), U5(), h, z, Error5(h))
  {
    Degree5Error(z, h);
  }

  /** An exactly integrated force plus k times one whose integral is missed by x. */
  lemma ExactIff(inc: Formula, f: real -> real, u: real -> real, g: real -> real, v: real -> real, k: real, h: real, z: real, x: real)
    requires Linear(inc) && ExactAt(inc, f, u, h, z) && MissedAt(inc, g, v, h, z, x)
    ensures ExactAt(inc, Plus(f, Multiple(k, g)), Plus(u, Multiple(k, v)), h, z) <==> k * x == 0.0
  {
    MissedMultiple(inc, k, g, v, Multiple(k, g), Multiple(k, v), h, z, x);
    MissedSum(inc, f, u, Multiple(k, g), Multiple(k, v), h, z, k * x);
    MissedExact(inc, Plus(f, Multiple(k, g)), Plus(u, Multiple(k, v)), h, z, k * x);
  }

  lemma ExactUnless(inc: Formula, f: real -> real, u: real -> real, g: real -> real, v: real -> real, k: real, h: real, z: real, x: real, none: bool)
    requires Linear(inc) && ExactAt(inc, f, u, h, z) && MissedAt(inc, g, v, h, z, x) && (k * x == 0.0 <==> none)
    ensures ExactAt(inc, Plus(f, Multiple(k, g)), Plus(u, Multiple(k, v)), h, z) <==> none
  {
    ExactIff(inc, f, u, g, v, k, h, z, x);
  }

  lemma ExactPolyAt(p: Poly, z: real, h: real)
    ensures ExactAt(Push(h), p.Force(), p.Primitive(), h, z)
  {
    ExactPoly(p, h);
  }

  /** One push integrates a polynomial force of degree at most 5 exactly if and only if the step is zero or the degree is
      at most 4. */
  lemma Degree5Exact(p: Poly, c5: real, z: real, h: real)
    ensures ExactAt(Push(h), Plus(p.Force(), Multiple(c5, F5())), Plus(p.Primitive(), Multiple(c5, U5())), h, z) <==> h == 0.0 || c5 == 0.0
  {
    ExactPolyAt(p, z, h);
    var x := FifthMissed(c5, z, h);
    PushLinear(h);
    ExactUnless(Push(h), p.Force(), p.Primitive(), F5(), U5(), c5, h, z, x, h == 0.0 || c5 == 0.0);
  }

  // ---------------------------------------------------------------- runs

  /** A force and its integral along the slices. */
  datatype Motion = Motion(force: real -> real, integral: real -> real)

  /** One for every force term. */
  datatype Forces = Forces(x: Motion, y: Motion, ux: Motion, uy: Motion, psi: Motion)
  {
    function At(z: real): Force { Force(x.force(z), y.force(z), ux.force(z), uy.force(z), psi.force(z)) }

    /** The history of a particle on slice z: this slice and the four slices before it, at larger z. */
    function Filled(z: real, h: real): History {
      History(At(z), At(z + h), At(z + 2.0 * h), At(z + 3.0 * h), At(z + 4.0 * h))
    }

    ghost predicate StepsExactly(h: real) {
      && Exact(Push(h), x.force, x.integral, h) && Exact(Push(h), y.force, y.integral, h)
      && Exact(Push(h), ux.force, ux.integral, h) && Exact(Push(h), uy.force, uy.integral, h) && Exact(Push(h), psi.force, psi.integral, h)
    }
  }

  function Free(x: real, y: real): Bound { Bound(x, y, false) }

  /** The slice reached from z after n pushes. */
  function Slice(z: real, h: real, n: nat): real { if n == 0 then z else Slice(z, h, n - 1) - h }

  lemma {:induction false} SliceIs(z: real, h: real, n: nat)
    ensures Slice(z, h, n) == z - n as real * h
  {
    if n > 0 {
      SliceIs(z, h, n - 1);
      assert (n - 1) as real * h + h == n as real * h;
    }
  }

  /** Position, momenta and potential of particle q are those of p, integrated exactly from slice z to slice y. */
  ghost predicate Integrated(p: Particle, q: Particle, f: Forces, z: real, y: real) {
    && q.x == p.x - (f.x.integral(z) - f.x.integral(y)) && q.y == p.y - (f.y.integral(z) - f.y.integral(y))
    && q.ux == p.ux - (f.ux.integral(z) - f.ux.integral(y)) && q.uy == p.uy - (f.uy.integral(z) - f.uy.integral(y))
    && q.psi == p.psi - (f.psi.integral(z) - f.psi.integral(y))
  }

  lemma ExactPush(p: Particle, q: Particle, f: Forces, z: real, y: real, h: real)
    requires Integrated(p, q, f, z, y) && f.StepsExactly(h)
    ensures Integrated(p, RealPush(q, f.Filled(y, h), h, Free), f, z, y - h)
  {
    assert ExactAt(Push(h), f.x.force, f.x.integral, h, y);
    assert ExactAt(Push(h), f.y.force, f.y.integral, h, y);
    assert ExactAt(Push(h), f.ux.force, f.ux.integral, h, y);
    assert ExactAt(Push(h), f.uy.force, f.uy.integral, h, y);
    assert ExactAt(Push(h), f.psi.force, f.psi.integral, h, y);
  }

  /** The force is v, wherever the particle is. */
  ghost predicate Samples(force: ForceFn, v: Force) {
    forall x: real, y: real, ux: real, uy: real, psi: real, c: real :: force(x, y, ux, uy, psi, c) == v
  }

  /** In slice k the forces are those of f on slice z - k h, in the guessed field and in every later one. */
  ghost predicate Sampled(guess: nat -> ForceFn, next: nat -> nat -> ForceFn, f: Forces, z: real, h: real) {
    forall k: nat :: SampledAt(guess(k), next(k), f.At(Slice(z, h, k)))
  }

  ghost predicate SampledAt(guess: ForceFn, next: nat -> ForceFn, v: Force) {
    Samples(guess, v) && forall m: nat :: Samples(next(m), v)
  }

  lemma CorrectedSampled(p: Particle, past: History, guess: ForceFn, next: nat -> ForceFn, v: Force, dz: real, bc: BoundFn, n: nat)
    requires SampledAt(guess, next, v)
    ensures Corrected(p, past, guess, next, dz, bc, n) == v
  {
    if n > 0 { assert Samples(next(n), v); }
  }

  /** Particle i is still there after slice n. */
  ghost predicate Survives(tr: Trace, n: nat, i: nat) { n < |tr.states| && i < |tr.states[n]| && tr.states[n][i].id > 0 }

  /** A particle that is there after a slice was there before it, has its new forces, and was pushed with its past ones. */
  lemma {:induction false} SliceSampled(tr: Trace, size: nat, n: nat, guess: nat -> ForceFn, next: nat -> nat -> ForceFn,
                          f: Forces, z: real, h: real, k: nat, i: nat)
    requires IsTrace(tr, size, n, guess, next, h, Free) && Sampled(guess, next, f, z, h) && k < n && i < size && Survives(tr, k + 1, i)
    ensures Survives(tr, k, i) && tr.log[k + 5][i] == f.At(Slice(z, h, k))
    ensures SameMotion(tr.states[k + 1][i], RealPush(tr.states[k][i], PastOf(tr.log, k, i), h, Free))
  {
    assert SolvedAt(tr, k, i, guess(k), next(k), h, Free);
    var past := PastOf(tr.log, k, i);
    var q := Pushed(tr.states[k][i], past, false, true, h, Free);
    assert SampledAt(guess(k), next(k), f.At(Slice(z, h, k)));
    CorrectedSampled(q, History(past.f5, past.f1, past.f2, past.f3, past.f4), guess(k), next(k), f.At(Slice(z, h, k)), h, Free, tr.iters[k]);
  }

  predicate SameMotion(p: Particle, q: Particle) { p.x == q.x && p.y == q.y && p.ux == q.ux && p.uy == q.uy && p.psi == q.psi }

  /** The force terms of every slice that a particle has survived. */
  lemma {:induction false} TermSampled(tr: Trace, size: nat, n: nat, guess: nat -> ForceFn, next: nat -> nat -> ForceFn,
                          f: Forces, z: real, h: real, k: nat, j: nat, i: nat)
    requires IsTrace(tr, size, n, guess, next, h, Free) && Sampled(guess, next, f, z, h) && j < k <= n && i < size && Survives(tr, k, i)
    ensures j + 5 < |tr.log| && i < |tr.log[j + 5]| && tr.log[j + 5][i] == f.At(Slice(z, h, j))
    decreases k
  {
    SliceSampled(tr, size, n, guess, next, f, z, h, k - 1, i);
    if j < k - 1 { TermSampled(tr, size, n, guess, next, f, z, h, k - 1, j, i); }
  }

  /** From the sixth slice of a step on the history of a particle that is still there is the filled one. */
  lemma {:induction false} HistoryFilled(tr: Trace, size: nat, n: nat, guess: nat -> ForceFn, next: nat -> nat -> ForceFn,
                          f: Forces, z: real, h: real, k: nat, i: nat)
    requires IsTrace(tr, size, n, guess, next, h, Free) && Sampled(guess, next, f, z, h) && 5 <= k <= n && i < size && Survives(tr, k, i)
    ensures HasPast(tr.log, k, i) && PastOf(tr.log, k, i) == f.Filled(Slice(z, h, k - 1), h)
  {
    TermSampled(tr, size, n, guess, next, f, z, h, k, k - 1, i);
    TermSampled(tr, size, n, guess, next, f, z, h, k, k - 2, i);
    TermSampled(tr, size, n, guess, next, f, z, h, k, k - 3, i);
    TermSampled(tr, size, n, guess, next, f, z, h, k, k - 4, i);
    TermSampled(tr, size, n, guess, next, f, z, h, k, k - 5, i);
    FiveSampled(tr.log, k, i, f, z, h);
  }

  lemma FiveSampled(log: seq<seq<Force>>, k: nat, i: nat, f: Forces, z: real, h: real)
    requires k >= 5 && HasPast(log, k, i)
    requires log[k + 4][i] == f.At(Slice(z, h, k - 1)) && log[k + 3][i] == f.At(Slice(z, h, k - 2)) && log[k + 2][i] == f.At(Slice(z, h, k - 3))
    requires log[k + 1][i] == f.At(Slice(z, h, k - 4)) && log[k][i] == f.At(Slice(z, h, k - 5))
    ensures PastOf(log, k, i) == f.Filled(Slice(z, h, k - 1), h)
  {
    Spaced(z, h, k);
  }

  lemma Spaced(z: real, h: real, k: nat)
    requires k >= 5
    ensures var y := Slice(z, h, k - 1);
            Slice(z, h, k - 2) == y + h && Slice(z, h, k - 3) == y + 2.0 * h && Slice(z, h, k - 4) == y + 3.0 * h && Slice(z, h, k - 5) == y + 4.0 * h
  {
    assert Slice(z, h, k - 1) == Slice(z, h, k - 2) - h;
    assert Slice(z, h, k - 2) == Slice(z, h, k - 3) - h;
    assert Slice(z, h, k - 3) == Slice(z, h, k - 4) - h;
    assert Slice(z, h, k - 4) == Slice(z, h, k - 5) - h;
  }

  lemma SameIntegrated(p: Particle, q: Particle, r: Particle, f: Forces, z: real, y: real)
    requires Integrated(p, q, f, z, y) && SameMotion(r, q)
    ensures Integrated(p, r, f, z, y)
  {
  }

  lemma NothingMoved(p: Particle, f: Forces, z: real)
    ensures Integrated(p, p, f, z, z)
  {
  }

  /** Exactness carries over to a step of the program. When the forces depend on the slice only, and one push with a
      filled history integrates them exactly, then between the end of slice 4 and the end of any later slice n-1 every
      particle that is still there has moved exactly. */
  lemma {:induction false} ExactRun(tr: Trace, size: nat, n: nat, guess: nat -> ForceFn, next: nat -> nat -> ForceFn, f: Forces,
                          z: real, h: real, k: nat, i: nat)
    requires IsTrace(tr, size, n, guess, next, h, Free) && Sampled(guess, next, f, z, h) && f.StepsExactly(h)
    requires 5 <= k <= n && i < size && Survives(tr, k, i)
    ensures Survives(tr, 5, i) && Integrated(tr.states[5][i], tr.states[k][i], f, Slice(z, h, 4), Slice(z, h, k - 1))
  {
    if k == 5 {
      NothingMoved(tr.states[5][i], f, Slice(z, h, 4));
    } else {
      SliceSampled(tr, size, n, guess, next, f, z, h, k - 1, i);
      ExactRun(tr, size, n, guess, next, f, z, h, k - 1, i);
      HistoryFilled(tr, size, n, guess, next, f, z, h, k - 1, i);
      ExactPush(tr.states[5][i], tr.states[k - 1][i], f, Slice(z, h, 4), Slice(z, h, k - 2), h);
      assert Slice(z, h, k - 1) == Slice(z, h, k - 2) - h;
      SameIntegrated(tr.states[5][i], RealPush(tr.states[k - 1][i], PastOf(tr.log, k - 1, i), h, Free), tr.states[k][i], f, Slice(z, h, 4), Slice(z, h, k - 1));
    }
  }

  function PolyForces(x: Poly, y: Poly, ux: Poly, uy: Poly, psi: Poly): Forces {
    Forces(Motion(x.Force(), x.Primitive()), Motion(y.Force(), y.Primitive()), Motion(ux.Force(), ux.Primitive()),
           Motion(uy.Force(), uy.Primitive()), Motion(psi.Force(), psi.Primitive()))
  }

  /** In a step of the program forces that are polynomials of degree at most 4 along the slices are integrated exactly, in
      all components, once five slices have filled the history. */
  lemma PolyRun(tr: Trace, size: nat, n: nat, guess: nat -> ForceFn, next: nat -> nat -> ForceFn, x: Poly, y: Poly, ux: Poly, uy: Poly, psi: Poly,
                z: real, h: real, i: nat)
    requires IsTrace(tr, size, n, guess, next, h, Free) && Sampled(guess, next, PolyForces(x, y, ux, uy, psi), z, h)
    requires n >= 5 && i < size && Survives(tr, n, i)
    ensures Survives(tr, 5, i)
    ensures Integrated(tr.states[5][i], tr.states[n][i], PolyForces(x, y, ux, uy, psi), Slice(z, h, 4), Slice(z, h, n - 1))
  {
    ExactPoly(x, h);
    ExactPoly(y, h);
    ExactPoly(ux, h);
    ExactPoly(uy, h);
    ExactPoly(psi, h);
    ExactRun(tr, size, n, guess, next, PolyForces(x, y, ux, uy, psi), z, h, n, i);
  }
}
