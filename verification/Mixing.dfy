/** Field mixing in the predictor-corrector loop. */
module Mixing {
  /** Weights of the new and the previous iterate, from their errors: a large error gives a small weight. */
  function NewWeight(error: real, errorPrev: real): real
    requires error >= 0.0 && errorPrev >= 0.0
  {
    if error != 0.0 || errorPrev != 0.0 then errorPrev / (error + errorPrev) else 0.5
  }

  function OldWeight(error: real, errorPrev: real): real
    requires error >= 0.0 && errorPrev >= 0.0
  {
    if error != 0.0 || errorPrev != 0.0 then error / (error + errorPrev) else 0.5
  }

  lemma WeightsAreConvex(error: real, errorPrev: real)
    requires error >= 0.0 && errorPrev >= 0.0
    ensures NewWeight(error, errorPrev) >= 0.0 && OldWeight(error, errorPrev) >= 0.0
    ensures NewWeight(error, errorPrev) + OldWeight(error, errorPrev) == 1.0
  {
    if error != 0.0 || errorPrev != 0.0 {
      var s := error + errorPrev;
      Quotients(error, errorPrev, s);
    }
  }

  /** The weights are in inverse proportion to the errors. */
  lemma WeightsBalance(error: real, errorPrev: real)
    requires error >= 0.0 && errorPrev >= 0.0 && (error != 0.0 || errorPrev != 0.0)
    ensures NewWeight(error, errorPrev) * error == OldWeight(error, errorPrev) * errorPrev
    ensures NewWeight(error, errorPrev) * (error + errorPrev) == errorPrev && OldWeight(error, errorPrev) * (error + errorPrev) == error
  {
    var s := error + errorPrev;
    var c, d := errorPrev / s, error / s;
    assert c * s == errorPrev && d * s == error;
    CrossMultiply(c, d, error, errorPrev, s);
  }

  lemma CrossMultiply(c: real, d: real, x: real, y: real, s: real)
    requires c * s == y && d * s == x && s == x + y && s > 0.0
    ensures c * x == d * y
  {
    var p, q := c * x, d * y;
    assert p == c * (d * s) == d * (c * s) == q;
  }

  lemma Quotients(x: real, y: real, s: real)
    requires x >= 0.0 && y >= 0.0 && s == x + y && s > 0.0
    ensures x / s >= 0.0 && y / s >= 0.0 && y / s + x / s == 1.0
  {
    assert (x + y) / s == 1.0;
  }

  /** One cell of the mixed field: b old field, x new iterate, y previous iterate. */
  function Mix(b: real, x: real, y: real, a: real, c: real, d: real): real { (1.0 - a) * b + a * (c * x + d * y) }

  function Dist(x: real, y: real): real { if x < y then y - x else x - y }

  /** The mixed field in terms of the errors alone, and which iterate it is nearer to. */
  ghost predicate ErrorWeighted(was: real, now: real, x: real, y: real, a: real, error: real, errorPrev: real) {
    && (error == 0.0 && errorPrev == 0.0 ==> now == (1.0 - a) * was + a * (0.5 * x + 0.5 * y))
    && (error + errorPrev) * (now - (1.0 - a) * was) == a * (errorPrev * x + error * y)
  }

  lemma MixWeighted(b: real, x: real, y: real, a: real, error: real, errorPrev: real)
    requires error >= 0.0 && errorPrev >= 0.0
    ensures ErrorWeighted(b, Mix(b, x, y, a, NewWeight(error, errorPrev), OldWeight(error, errorPrev)), x, y, a, error, errorPrev)
  {
    if error != 0.0 || errorPrev != 0.0 {
      var c, d := NewWeight(error, errorPrev), OldWeight(error, errorPrev);
      WeightsBalance(error, errorPrev);
      TimesSum(c, d, x, y, a, error + errorPrev, errorPrev, error);
    }
  }

  lemma TimesSum(c: real, d: real, x: real, y: real, a: real, s: real, p: real, q: real)
    requires c * s == p && d * s == q
    ensures s * (a * (c * x + d * y)) == a * (p * x + q * y)
  {
    var m, n := c * x, d * y;
    assert s * m == p * x && s * n == q * y;
    assert s * (a * (m + n)) == a * (s * m + s * n);
  }

  /** What has been mixed into the field is nearer to x than to y. */
  ghost predicate Nearer(was: real, now: real, x: real, y: real, a: real) {
    Dist(now - (1.0 - a) * was, a * x) < Dist(now - (1.0 - a) * was, a * y)
  }

  lemma MixedWell(was: seq<real>, now: seq<real>, x: seq<real>, y: seq<real>, a: real, error: real, errorPrev: real)
    requires |was| == |now| == |x| == |y| && error >= 0.0 && errorPrev >= 0.0
    requires forall i :: 0 <= i < |now| ==> now[i] == Mix(was[i], x[i], y[i], a, NewWeight(error, errorPrev), OldWeight(error, errorPrev))
    ensures forall i :: 0 <= i < |now| ==> ErrorWeighted(was[i], now[i], x[i], y[i], a, error, errorPrev)
    ensures error < errorPrev && a > 0.0 ==> forall i :: 0 <= i < |now| && x[i] != y[i] ==> Nearer(was[i], now[i], x[i], y[i], a)
  {
    forall i | 0 <= i < |now|
      ensures ErrorWeighted(was[i], now[i], x[i], y[i], a, error, errorPrev)
      ensures error < errorPrev && a > 0.0 && x[i] != y[i] ==> Nearer(was[i], now[i], x[i], y[i], a)
    {
      MixWeighted(was[i], x[i], y[i], a, error, errorPrev);
      if error < errorPrev && a > 0.0 && x[i] != y[i] { NearerToNew(was[i], now[i], x[i], y[i], a, error, errorPrev); }
    }
  }

  /** With a smaller error than the previous iterate the new one draws the field nearer to itself. */
  lemma NearerToNew(was: real, now: real, x: real, y: real, a: real, error: real, errorPrev: real)
    requires ErrorWeighted(was, now, x, y, a, error, errorPrev) && 0.0 <= error < errorPrev && a > 0.0 && x != y
    ensures Nearer(was, now, x, y, a)
  {
    var s, m := error + errorPrev, now - (1.0 - a) * was;
    var ax, ay := a * x, a * y;
    Offsets(m, x, y, a, s, errorPrev, error);
    if x > y {
      TimesPositive(a, x - y);
      Compare(s, errorPrev, error, a * (x - y), ax - m, m - ay);
    } else {
      TimesPositive(a, y - x);
      Compare(s, errorPrev, error, a * (y - x), m - ax, ay - m);
    }
  }

  lemma TimesPositive(a: real, b: real)
    requires a > 0.0 && b > 0.0
    ensures a * b > 0.0
  {
  }

  lemma Compare(s: real, p: real, q: real, t: real, m: real, n: real)
    requires s > 0.0 && p > q >= 0.0 && t > 0.0 && s * m == q * t && s * n == p * t
    ensures 0.0 <= m < n
  {
    TimesPositive(p - q, t);
    assert (p - q) * t == s * (n - m);
    SignOf(s, n - m);
    SignOf(s, m);
  }

  lemma SignOf(s: real, v: real)
    requires s > 0.0
    ensures s * v >= 0.0 ==> v >= 0.0
    ensures s * v > 0.0 ==> v > 0.0
  {
  }

  lemma Offsets(m: real, x: real, y: real, a: real, s: real, p: real, q: real)
    requires s * m == a * (p * x + q * y) && s == p + q
    ensures s * (a * x - m) == q * (a * (x - y)) && s * (m - a * y) == p * (a * (x - y))
    ensures s * (m - a * x) == q * (a * (y - x)) && s * (a * y - m) == p * (a * (y - x))
  {
    var d := s * (a * x);
    assert d == p * (a * x) + q * (a * x);
    var e := s * (a * y);
    assert e == p * (a * y) + q * (a * y);
  }

  /** MultiFab::LinComb. */
  method LinComb(dst: array<real>, c: real, x: seq<real>, d: real, y: seq<real>)
    requires |x| == |y| == dst.Length
    modifies dst
    ensures forall i :: 0 <= i < dst.Length ==> dst[i] == c * x[i] + d * y[i]
  {
    for i := 0 to dst.Length
      invariant forall k :: 0 <= k < i ==> dst[k] == c * x[k] + d * y[k]
    {
      dst[i] := c * x[i] + d * y[i];
    }
  }

  /** MixAndShiftBfields: b is mixed with the iterates, and the new iterate becomes the previous one. */
  method MixAndShift(b: array<real>, iter: array<real>, prev: array<real>, error: real, errorPrev: real, a: real)
    requires b.Length == iter.Length == prev.Length && b != prev && b != iter && iter != prev && error >= 0.0 && errorPrev >= 0.0
    modifies b, prev
    ensures forall i :: 0 <= i < b.Length ==>
              b[i] == Mix(old(b[i]), iter[i], old(prev[i]), a, NewWeight(error, errorPrev), OldWeight(error, errorPrev))
    ensures forall i :: 0 <= i < b.Length ==> ErrorWeighted(old(b[i]), b[i], iter[i], old(prev[i]), a, error, errorPrev)
    ensures error < errorPrev && a > 0.0 ==>
              forall i :: 0 <= i < b.Length && iter[i] != old(prev[i]) ==> Nearer(old(b[i]), b[i], iter[i], old(prev[i]), a)
    ensures forall i :: 0 <= i < prev.Length ==> prev[i] == iter[i]
  {
    var c, d: real;
    ghost var was, y := b[..], prev[..];
    if error != 0.0 || errorPrev != 0.0 {
      c := errorPrev / (error + errorPrev);
      d := error / (error + errorPrev);
    } else {
      c, d := 0.5, 0.5;
    }
    // the mixed iterate is kept in prev for the moment
    LinComb(prev, c, iter[..], d, prev[..]);
    LinComb(b, 1.0 - a, b[..], a, prev[..]);
    MixedWell(was, b[..], iter[..], y, a, error, errorPrev);
    forall i | 0 <= i < prev.Length { prev[i] := iter[i]; }
  }

  // ---------------------------------------------------------------- runs of the loop

  /** The weight of the new iterate in iteration k; the first iteration uses its own error as the previous one. */
  function WeightAt(err: nat -> real, k: nat): real
    requires forall k :: err(k) >= 0.0
  {
    NewWeight(err(k), if k <= 1 then err(k) else err(k - 1))
  }

  lemma WeightRange(err: nat -> real, k: nat)
    requires forall k :: err(k) >= 0.0
    ensures 0.0 <= WeightAt(err, k) <= 1.0 && (k == 1 ==> WeightAt(err, k) == 0.5)
    ensures OldWeight(err(k), if k <= 1 then err(k) else err(k - 1)) == 1.0 - WeightAt(err, k)
  {
    WeightsAreConvex(err(k), if k <= 1 then err(k) else err(k - 1));
    Halves(err(k));
  }

  lemma Halves(e: real)
    requires e >= 0.0
    ensures NewWeight(e, e) == 0.5
  {
  }

  /** A cell during the loop: the field and the previous iterate. */
  datatype Cell = Cell(b: real, prev: real)

  /** The cell after n iterations: `it(k)` is the iterate of iteration k and `w(k)` its weight. */
  function After(b0: real, it: nat -> real, w: nat -> real, a: real, n: nat): Cell {
    if n == 0 then Cell(b0, b0)
    else
      var was := After(b0, it, w, a, n - 1);
      Cell(Mix(was.b, it(n), was.prev, a, w(n), 1.0 - w(n)), it(n))
  }

  /** The field stays in every interval that holds the guess and the iterates. */
  lemma {:induction false} StaysInside(b0: real, it: nat -> real, w: nat -> real, a: real, n: nat, lo: real, hi: real)
    requires forall k :: 1 <= k <= n ==> 0.0 <= w(k) <= 1.0
    requires 0.0 <= a <= 1.0 && lo <= b0 <= hi && forall k :: 1 <= k <= n ==> lo <= it(k) <= hi
    ensures lo <= After(b0, it, w, a, n).b <= hi && lo <= After(b0, it, w, a, n).prev <= hi
  {
    if n > 0 {
      StaysInside(b0, it, w, a, n - 1, lo, hi);
      var was := After(b0, it, w, a, n - 1);
      MixInside(was.b, it(n), was.prev, a, w(n), lo, hi);
    }
  }

  lemma MixInside(b: real, x: real, y: real, a: real, c: real, lo: real, hi: real)
    requires 0.0 <= c <= 1.0 && 0.0 <= a <= 1.0 && lo <= b <= hi && lo <= x <= hi && lo <= y <= hi
    ensures lo <= Mix(b, x, y, a, c, 1.0 - c) <= hi
  {
    Between(x, y, c, 1.0 - c, lo, hi);
    Between(b, c * x + (1.0 - c) * y, 1.0 - a, a, lo, hi);
  }

  lemma Between(x: real, y: real, c: real, d: real, lo: real, hi: real)
    requires c >= 0.0 && d >= 0.0 && c + d == 1.0 && lo <= x <= hi && lo <= y <= hi
    ensures lo <= c * x + d * y <= hi
  {
    NonNegative(c, x - lo);
    NonNegative(d, y - lo);
    NonNegative(c, hi - x);
    NonNegative(d, hi - y);
    Convex(c, d, lo, x, y);
    Convex(c, d, hi, x, y);
  }

  lemma NonNegative(c: real, x: real)
    requires c >= 0.0 && x >= 0.0
    ensures c * x >= 0.0
  {
  }

  lemma Convex(c: real, d: real, m: real, x: real, y: real)
    requires c + d == 1.0
    ensures c * (x - m) + d * (y - m) == c * x + d * y - m
    ensures c * (m - x) + d * (m - y) == m - (c * x + d * y)
  {
    assert c * m + d * m == (c + d) * m;
  }

  function Power(x: real, n: nat): real { if n == 0 then 1.0 else x * Power(x, n - 1) }

  lemma FirstIteration(b0: real, it: nat -> real, w: nat -> real, a: real, c: real)
    requires w(1) == 0.5 && it(1) == c
    ensures After(b0, it, w, a, 1).b - c == (1.0 - a / 2.0) * (b0 - c) && After(b0, it, w, a, 1).prev == c
  {
    assert After(b0, it, w, a, 0) == Cell(b0, b0);
    FirstMix(b0, c, a);
  }

  lemma LaterIteration(b0: real, it: nat -> real, w: nat -> real, a: real, n: nat, c: real)
    requires n >= 2 && it(n) == c && it(n - 1) == c
    ensures After(b0, it, w, a, n).b - c == (1.0 - a) * (After(b0, it, w, a, n - 1).b - c)
  {
    NextMix(After(b0, it, w, a, n - 1).b, c, a, w(n));
  }

  /** A sequence of distances that shrinks by r from iteration 2 on. */
  lemma {:induction false} Geometric(d: nat -> real, r: real, first: real, n: nat)
    requires n >= 1 && d(1) == first && forall k :: 2 <= k <= n ==> d(k) == r * d(k - 1)
    ensures d(n) == Power(r, n - 1) * first
  {
    if n > 1 {
      Geometric(d, r, first, n - 1);
      Shrinks(r, Power(r, n - 2), first, d(n - 1), d(n));
    }
  }

  /** d(k) is the distance of the field from c after k iterations. */
  ghost predicate Distances(d: nat -> real, b0: real, it: nat -> real, w: nat -> real, a: real, c: real) {
    forall k: nat {:trigger Distance(d, b0, it, w, a, c, k)} :: Distance(d, b0, it, w, a, c, k)
  }

  ghost predicate Distance(d: nat -> real, b0: real, it: nat -> real, w: nat -> real, a: real, c: real, k: nat) {
    d(k) == After(b0, it, w, a, k).b - c
  }

  lemma LaterDistance(d: nat -> real, b0: real, it: nat -> real, w: nat -> real, a: real, k: nat, c: real)
    requires Distances(d, b0, it, w, a, c) && k >= 2 && it(k) == c && it(k - 1) == c
    ensures d(k) == (1.0 - a) * d(k - 1)
  {
    assert Distance(d, b0, it, w, a, c, k) && Distance(d, b0, it, w, a, c, k - 1);
    LaterIteration(b0, it, w, a, k, c);
  }

  lemma FirstDistance(d: nat -> real, b0: real, it: nat -> real, w: nat -> real, a: real, c: real)
    requires Distances(d, b0, it, w, a, c) && w(1) == 0.5 && it(1) == c
    ensures d(1) == (1.0 - a / 2.0) * (b0 - c)
  {
    assert Distance(d, b0, it, w, a, c, 1);
    FirstIteration(b0, it, w, a, c);
  }

  /** For a constant iterate c the distance d of the field from it shrinks by 1 - a/2 in the first iteration and by 1 - a
      in every other. */
  lemma ExactRate(d: nat -> real, b0: real, it: nat -> real, w: nat -> real, a: real, n: nat, c: real)
    requires Distances(d, b0, it, w, a, c) && n >= 1 && w(1) == 0.5 && forall k :: 1 <= k <= n ==> it(k) == c
    ensures d(n) == Power(1.0 - a, n - 1) * ((1.0 - a / 2.0) * (b0 - c))
  {
    forall k | 2 <= k <= n ensures d(k) == (1.0 - a) * d(k - 1) { LaterDistance(d, b0, it, w, a, k, c); }
    FirstDistance(d, b0, it, w, a, c);
    Geometric(d, 1.0 - a, (1.0 - a / 2.0) * (b0 - c), n);
  }

  lemma FirstMix(b: real, c: real, a: real)
    ensures Mix(b, c, b, a, 0.5, 1.0 - 0.5) - c == 1.0 * ((1.0 - a / 2.0) * (b - c))
  {
  }

  lemma NextMix(b: real, c: real, a: real, x: real)
    ensures Mix(b, c, c, a, x, 1.0 - x) - c == (1.0 - a) * (b - c)
  {
    assert x * c + (1.0 - x) * c == c;
  }

  lemma Shrinks(r: real, p: real, d: real, was: real, now: real)
    requires was == p * d && now == r * was
    ensures now == (r * p) * d
  {
  }

  // ---------------------------------------------------------------- the loop

  /** One iteration: the solver fills the iterate, which is then mixed with weight w. */
  method Iteration(b: array<real>, iter: array<real>, prev: array<real>, x: seq<real>, error: real, errorPrev: real, a: real, ghost w: real)
    requires |x| == b.Length == iter.Length == prev.Length && b != prev && b != iter && iter != prev && error >= 0.0 && errorPrev >= 0.0
    requires NewWeight(error, errorPrev) == w && OldWeight(error, errorPrev) == 1.0 - w
    modifies b, iter, prev
    ensures forall i :: 0 <= i < b.Length ==> b[i] == Mix(old(b[i]), x[i], old(prev[i]), a, w, 1.0 - w) && prev[i] == x[i]
  {
    forall i | 0 <= i < iter.Length { iter[i] := x[i]; }
    MixAndShift(b, iter, prev, error, errorPrev, a);
  }

  /** The loop on one field component: `iterate(k)` is what the field solver returns in iteration k, `error(k)` its error.
      The loop runs at most `max` times and mixes every cell as `After` says. */
  method CorrectorLoop(b: array<real>, iterate: nat -> seq<real>, error: nat -> real, tolerance: real, max: nat, a: real) returns (n: nat)
    requires forall k :: |iterate(k)| == b.Length
    requires forall k :: error(k) >= 0.0
    modifies b
    ensures n <= max && (n < max ==> if n == 0 then 1.0 <= tolerance else error(n) <= tolerance)
    ensures forall i :: 0 <= i < b.Length ==> b[i] == After(old(b[i]), CellOf(iterate, i), WeightOf(error), a, n).b
  {
    var prev, iter := new real[b.Length], new real[b.Length];
    forall i | 0 <= i < b.Length { prev[i] := b[i]; }
    n := 0;
    var err, errPrev := 1.0, 1.0;
    while err > tolerance && n < max
      invariant n <= max && err == errPrev == if n == 0 then 1.0 else error(n)
      invariant forall i :: 0 <= i < b.Length ==> Cell(b[i], prev[i]) == After(old(b[i]), CellOf(iterate, i), WeightOf(error), a, n)
      decreases max - n
    {
      n := n + 1;
      err := error(n);
      if n == 1 { errPrev := err; }
      WeightRange(error, n);
      Iteration(b, iter, prev, iterate(n), err, errPrev, a, WeightAt(error, n));
      errPrev := err;
    }
  }

  /** An iteration of the loop in terms of the errors: the first one mixes the iterate with the guess in equal parts, every
      later one with the iterate before it, each weighted with the error of the other. */
  lemma {:induction false} IterationLaw(b0: real, it: nat -> real, err: nat -> real, a: real, n: nat)
    requires n >= 1 && forall k :: err(k) >= 0.0
    ensures var was, now := After(b0, it, WeightOf(err), a, n - 1).b, After(b0, it, WeightOf(err), a, n).b;
            if n == 1 then was == b0 && now == (1.0 - a) * b0 + a * (0.5 * it(1) + 0.5 * b0)
            else ErrorWeighted(was, now, it(n), it(n - 1), a, err(n), err(n - 1))
  {
    WeightRange(err, n);
    if n == 1 {
      assert After(b0, it, WeightOf(err), a, 0) == Cell(b0, b0);
    } else {
      assert After(b0, it, WeightOf(err), a, n - 1).prev == it(n - 1);
      MixWeighted(After(b0, it, WeightOf(err), a, n - 1).b, it(n), it(n - 1), a, err(n), err(n - 1));
    }
  }

  function CellOf(iterate: nat -> seq<real>, i: nat): nat -> real {
    (k: nat) => if i < |iterate(k)| then iterate(k)[i] else 0.0
  }

  function WeightOf(error: nat -> real): nat -> real
    requires forall k :: error(k) >= 0.0
  {
    (k: nat) requires forall k :: error(k) >= 0.0 => WeightAt(error, k)
  }
}
