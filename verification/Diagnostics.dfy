/** Accumulating the field diagnostics slice by slice. Every slice scatters its share to the diagnostic slices it can
    reach; in the end every diagnostic slice holds the linear interpolation along z of the slices. */
module Diagnostics {
  import opened Shape

  /** Longitudinal positions of slices and of diagnostic slices. */
  datatype Axes = Axes(dz: real, off: real, ddz: real, doff: real)
  {
    predicate Valid() { dz > 0.0 && ddz > 0.0 }
    function Slice(i: int): real { i as real * dz + off }
    function Diag(k: int): real { k as real * ddz + doff }
    /** Diagnostic slice k in units of slices. */
    function Mid(k: int): real requires Valid() { (Diag(k) - off) / dz }
  }

  /** In units of slices and from the first slice on, Mid is the position of the diagnostic slice. */
  lemma MidIs(x: Axes, k: int)
    requires x.Valid()
    ensures x.Mid(k) * x.dz + x.off == k as real * x.ddz + x.doff
  {
  }

  /** The share of slice i in diagnostic slice k. */
  function Share(x: Axes, k: int, i: int): real requires x.Valid() { At(1, x.Mid(k), i) }

  /** The same for entry n of an array that starts at diagnostic slice k0. */
  function ShareIn(x: Axes, k0: int, n: int, i: int): real requires x.Valid() { Share(x, k0 + n, i) }

  /** Nearest integer, halves away from zero. */
  function Round(x: real): int { if x >= 0.0 then (x + 0.5).Floor else -((-x + 0.5).Floor) }

  lemma RoundNear(x: real)
    ensures Round(x) as real - 0.5 <= x <= Round(x) as real + 0.5
  {
  }

  lemma ShareAway(m: real, i: int)
    requires m <= (i - 1) as real || m >= (i + 1) as real
    ensures At(1, m, i) == 0.0
  {
    WeightIsSpline(1, m - i as real);
  }

  lemma DivLe(a: real, b: real, d: real)
    requires d > 0.0
    ensures a <= b * d ==> a / d <= b
    ensures a >= b * d ==> a / d >= b
  {
    assert (a - b * d) / d == a / d - b;
    Sign(a - b * d, d);
  }

  lemma Sign(x: real, d: real)
    requires d > 0.0
    ensures x <= 0.0 ==> x / d <= 0.0
    ensures x >= 0.0 ==> x / d >= 0.0
  {
  }

  /** First and last diagnostic slice that slice i may contribute to. */
  function KMin(x: Axes, i: int): int requires x.Valid() { Round((x.Slice(i - 1) - x.doff) / x.ddz) }
  function KMax(x: Axes, i: int): int requires x.Valid() { Round((x.Slice(i + 1) - x.doff) / x.ddz) }

  /** The rounded window drops only zero shares. */
  lemma WindowSuffices(x: Axes, i: int, k: int)
    requires x.Valid() && !(KMin(x, i) <= k <= KMax(x, i))
    ensures Share(x, k, i) == 0.0
  {
    if k < KMin(x, i) {
      RoundNear((x.Slice(i - 1) - x.doff) / x.ddz);
      Below(x, i - 1, k);
    } else {
      RoundNear((x.Slice(i + 1) - x.doff) / x.ddz);
      Above(x, i + 1, k);
    }
    ShareAway(x.Mid(k), i);
  }

  lemma Below(x: Axes, i: int, k: int)
    requires x.Valid() && k as real <= (x.Slice(i) - x.doff) / x.ddz
    ensures x.Mid(k) <= i as real
  {
    Times(k as real, x.Slice(i) - x.doff, x.ddz);
    DivLe(x.Diag(k) - x.off, i as real, x.dz);
  }

  lemma Above(x: Axes, i: int, k: int)
    requires x.Valid() && k as real >= (x.Slice(i) - x.doff) / x.ddz
    ensures x.Mid(k) >= i as real
  {
    Times(k as real, x.Slice(i) - x.doff, x.ddz);
    DivLe(x.Diag(k) - x.off, i as real, x.dz);
  }

  lemma Times(k: real, a: real, d: real)
    requires d > 0.0
    ensures k <= a / d ==> k * d <= a
    ensures k >= a / d ==> k * d >= a
  {
    var q := a / d;
    assert q * d == a;
    if k <= q { assert (q - k) * d >= 0.0; }
    if k >= q { assert (k - q) * d >= 0.0; }
  }

  lemma RoundMonotone(x: real, y: real)
    requires x <= y
    ensures Round(x) <= Round(y)
  {
  }

  lemma WindowNotEmpty(x: Axes, i: int)
    requires x.Valid()
    ensures KMin(x, i) <= KMax(x, i)
  {
    var a, b := x.Slice(i - 1) - x.doff, x.Slice(i + 1) - x.doff;
    assert b - a == 2.0 * x.dz;
    assert b / x.ddz - a / x.ddz == (b - a) / x.ddz;
    Sign(b - a, x.ddz);
    RoundMonotone(a / x.ddz, b / x.ddz);
  }

  // ---------------------------------------------------------------- Copy

  /** The shares of slice i in the diagnostic slices k0, k0 + 1, ... */
  ghost predicate AreShares(x: Axes, i: int, k0: int, rel: seq<real>)
    requires x.Valid()
  {
    forall n :: 0 <= n < |rel| ==> rel[n] == ShareIn(x, k0, n, i)
  }

  /** The order-1 shape factor at mid, for cell i. */
  method PickShare(mid: real, i: int) returns (r: real)
    ensures r == At(1, mid, i)
  {
    var sz := new real[2];
    var cell := ComputeShapeFactor(1, sz, mid);
    r := 0.0;
    for n := 0 to 2
      invariant r == if cell <= i < cell + n then sz[i - cell] else 0.0
    {
      if cell + n == i { r := sz[n]; }
    }
    PickedShare(mid, i, cell, sz[..], r);
  }

  lemma PickedShare(mid: real, i: int, cell: int, sz: seq<real>, r: real)
    requires |sz| == 2 && (forall k :: 0 <= k <= 1 ==> sz[k] == At(1, mid, cell + k))
    requires forall n :: n < cell || n > cell + 1 ==> At(1, mid, n) == 0.0
    requires r == if cell <= i < cell + 2 then sz[i - cell] else 0.0
    ensures r == At(1, mid, i)
  {
    if cell <= i < cell + 2 { assert sz[i - cell] == At(1, mid, cell + (i - cell)); }
  }

  method Shares(x: Axes, i: int, kmin: int, kmax: int) returns (rel: seq<real>)
    requires x.Valid() && kmin <= kmax
    ensures |rel| == kmax + 1 - kmin && AreShares(x, i, kmin, rel)
  {
    rel := [];
    for k := kmin to kmax + 1
      invariant |rel| == k - kmin && AreShares(x, i, kmin, rel)
    {
      var r := PickShare(x.Mid(k), i);
      assert kmin + (k - kmin) == k && r == Share(x, k, i) == ShareIn(x, kmin, k - kmin, i);
      rel := rel + [r];
    }
  }

  /** The two trimming loops: the first and the last nonzero share. */
  method Trim(rel: seq<real>) returns (first: int, last: int)
    ensures 0 <= first <= |rel| && forall n :: 0 <= n < first ==> rel[n] == 0.0
    ensures -1 <= last < |rel| && forall n :: last < n < |rel| ==> rel[n] == 0.0
  {
    first := 0;
    while first < |rel| && rel[first] == 0.0
      invariant first <= |rel| && forall n :: 0 <= n < first ==> rel[n] == 0.0
    {
      first := first + 1;
    }
    last := |rel| - 1;
    while last >= 0 && rel[last] == 0.0
      invariant -1 <= last < |rel| && forall n :: last < n < |rel| ==> rel[n] == 0.0
    {
      last := last - 1;
    }
  }

  /** Copy of slice i into a diagnostic array of `ncell` cells and the slices lo, lo + 1, ...; value(c) is the slice's
      field, zero outside its box, interpolated to cell c. */
  method Copy(x: Axes, i: int, diag: array2<real>, lo: int, value: nat -> real)
    requires x.Valid()
    modifies diag
    ensures forall c, n :: 0 <= c < diag.Length0 && 0 <= n < diag.Length1 ==> diag[c, n] == old(diag[c, n]) + ShareIn(x, lo, n, i) * value(c)
  {
    var kmin := Round((x.Slice(i - 1) - x.doff) / x.ddz);
    var kmax := Round((x.Slice(i + 1) - x.doff) / x.ddz);
    WindowNotEmpty(x, i);
    var rel := Shares(x, i, kmin, kmax);
    var first, last := Trim(rel);
    var start, stop := kmin + first, kmin + last;
    if start < lo { start := lo; }
    if stop > lo + diag.Length1 - 1 { stop := lo + diag.Length1 - 1; }
    forall n | 0 <= n < diag.Length1 && !(start <= lo + n <= stop) ensures ShareIn(x, lo, n, i) == 0.0 {
      Dropped(x, i, rel, first, last, lo + n);
    }
    Kernel(x, i, diag, lo, kmin, rel, start, stop, value);
  }

  /** What the window and the trimming drop is zero. */
  lemma Dropped(x: Axes, i: int, rel: seq<real>, first: int, last: int, k: int)
    requires x.Valid() && AreShares(x, i, KMin(x, i), rel) && |rel| == KMax(x, i) + 1 - KMin(x, i)
    requires 0 <= first <= |rel| && (forall n :: 0 <= n < first ==> rel[n] == 0.0)
    requires -1 <= last < |rel| && (forall n :: last < n < |rel| ==> rel[n] == 0.0)
    requires !(KMin(x, i) + first <= k <= KMin(x, i) + last)
    ensures Share(x, k, i) == 0.0
  {
    if KMin(x, i) <= k <= KMax(x, i) {
      assert rel[k - KMin(x, i)] == ShareIn(x, KMin(x, i), k - KMin(x, i), i);
    } else {
      WindowSuffices(x, i, k);
    }
  }

  method Kernel(x: Axes, i: int, diag: array2<real>, lo: int, kmin: int, rel: seq<real>, start: int, stop: int, value: nat -> real)
    requires x.Valid() && AreShares(x, i, kmin, rel)
    requires start <= stop ==> lo <= start && stop < lo + diag.Length1 && kmin <= start && stop - kmin < |rel|
    requires forall n :: 0 <= n < diag.Length1 && !(start <= lo + n <= stop) ==> ShareIn(x, lo, n, i) == 0.0
    modifies diag
    ensures forall c, n :: 0 <= c < diag.Length0 && 0 <= n < diag.Length1 ==> diag[c, n] == old(diag[c, n]) + ShareIn(x, lo, n, i) * value(c)
  {
    if start > stop { return; }
    for k := start to stop + 1
      invariant forall c, n :: 0 <= c < diag.Length0 && 0 <= n < diag.Length1 ==>
        diag[c, n] == old(diag[c, n]) + if start <= lo + n < k then ShareIn(x, lo, n, i) * value(c) else 0.0
    {
      Column(diag, k - lo, rel[k - kmin], value);
    }
  }

  method Column(diag: array2<real>, n: int, r: real, value: nat -> real)
    requires 0 <= n < diag.Length1
    modifies diag
    ensures forall c, m :: 0 <= c < diag.Length0 && 0 <= m < diag.Length1 ==> diag[c, m] == old(diag[c, m]) + if m == n then r * value(c) else 0.0
  {
    for c := 0 to diag.Length0
      invariant forall b, m :: 0 <= b < diag.Length0 && 0 <= m < diag.Length1 ==>
        diag[b, m] == old(diag[b, m]) + if m == n && b < c then r * value(b) else 0.0
    {
      diag[c, n] := diag[c, n] + r * value(c);
    }
  }

  // ---------------------------------------------------------------- all slices

  /** Slice i of the field, zero outside the slices from..end-1. */
  function Extended(field: int -> real, from: int, end: int, i: int): real { if from <= i < end then field(i) else 0.0 }

  /** What the slices from..end-1 contribute to a diagnostic slice at m (in slices). */
  function Scattered(field: int -> real, m: real, from: int, end: int): real
    decreases end - from
  {
    if from >= end then 0.0 else At(1, m, from) * field(from) + Scattered(field, m, from + 1, end)
  }

  /** Linear interpolation at m of the zero-extended slices. */
  function Interpolated(field: int -> real, m: real, from: int, end: int): real {
    var j := m.Floor;
    var f := m - j as real;
    (1.0 - f) * Extended(field, from, end, j) + f * Extended(field, from, end, j + 1)
  }

  lemma HatIs(m: real, i: int)
    ensures At(1, m, i) == if i == m.Floor then 1.0 - (m - m.Floor as real) else if i == m.Floor + 1 then m - m.Floor as real else 0.0
  {
    WeightIsSpline(1, m - i as real);
  }

  /** Scatter equals gather: the shares of all slices add up to the linear interpolation. */
  lemma {:induction false} ScatterIsGather(field: int -> real, m: real, from: int, end: int)
    ensures Scattered(field, m, from, end) == Interpolated(field, m, from, end)
    decreases end - from
  {
    if from < end {
      ScatterIsGather(field, m, from + 1, end);
      HatIs(m, from);
      OneMore(field, m, from, end, At(1, m, from));
    } else {
      NothingLeft(field, m, from, end);
    }
  }

  lemma NothingLeft(field: int -> real, m: real, from: int, end: int)
    requires from >= end
    ensures Interpolated(field, m, from, end) == 0.0
  {
  }

  lemma OneMore(field: int -> real, m: real, from: int, end: int, w: real)
    requires from < end
    requires w == if from == m.Floor then 1.0 - (m - m.Floor as real) else if from == m.Floor + 1 then m - m.Floor as real else 0.0
    ensures Interpolated(field, m, from, end) == Interpolated(field, m, from + 1, end) + w * field(from)
  {
    var f := m - m.Floor as real;
    Two(1.0 - f, f, Extended(field, from, end, m.Floor), Extended(field, from, end, m.Floor + 1),
        Extended(field, from + 1, end, m.Floor), Extended(field, from + 1, end, m.Floor + 1), field(from));
  }

  lemma Two(p: real, q: real, a: real, b: real, a': real, b': real, x: real)
    ensures a == x && a' == 0.0 && b == b' ==> p * a + q * b == p * a' + q * b' + p * x
    ensures a == a' && b == x && b' == 0.0 ==> p * a + q * b == p * a' + q * b' + q * x
    ensures a == a' && b == b' ==> p * a + q * b == p * a' + q * b'
  {
  }

  /** A field that is linear along z has its own values on the diagnostic slices between the first and the last slice. */
  lemma LinearExact(x: Axes, field: int -> real, c0: real, c1: real, k: int, from: int, end: int)
    requires x.Valid() && forall i :: field(i) == c0 + c1 * (i as real * x.dz + x.off)
    requires from as real <= x.Mid(k) <= (end - 1) as real
    ensures Interpolated(field, x.Mid(k), from, end) == c0 + c1 * (k as real * x.ddz + x.doff)
  {
    var m := x.Mid(k);
    var j := m.Floor;
    MidIs(x, k);
    Between(c0, c1, x.dz, x.off, j as real, m, field(j), field(j + 1));
    if j == end - 1 { assert m - j as real == 0.0; }
  }

  lemma Between(c0: real, c1: real, d: real, off: real, j: real, m: real, a: real, b: real)
    requires a == c0 + c1 * (j * d + off) && b == c0 + c1 * ((j + 1.0) * d + off)
    ensures (1.0 - (m - j)) * a + (m - j) * b == c0 + c1 * (m * d + off)
  {
    var f := m - j;
    assert b == a + c1 * d;
    assert (1.0 - f) * a + f * b == a + f * (c1 * d);
    assert m * d == j * d + f * d;
    assert c1 * (m * d + off) == c1 * (j * d + off) + c1 * (f * d);
    assert c1 * (f * d) == f * (c1 * d);
  }

  /** The field of a cell as a function of the slice. */
  function CellField(value: int -> nat -> real, c: nat): int -> real { (i: int) => value(i)(c) }

  /** What the slices from..end-1 contribute to cell (c, n) of a diagnostic array that starts at diagnostic slice lo. */
  function Part(x: Axes, lo: int, value: int -> nat -> real, c: nat, n: nat, from: int, end: int): real
    requires x.Valid()
  {
    Scattered(CellField(value, c), x.Mid(lo + n), from, end)
  }

  lemma PartStep(x: Axes, lo: int, value: int -> nat -> real, c: nat, n: nat, i: int, end: int)
    requires x.Valid() && i < end
    ensures Part(x, lo, value, c, n, i, end) == ShareIn(x, lo, n, i) * value(i)(c) + Part(x, lo, value, c, n, i + 1, end)
  {
    assert CellField(value, c)(i) == value(i)(c);
  }

  /** The diagnostics of one box: Copy once for every slice, from the head to the tail. Every diagnostic slice receives the
      linear interpolation along z of the slices. */
  method Accumulate(x: Axes, from: int, end: int, diag: array2<real>, lo: int, value: int -> nat -> real)
    requires x.Valid() && from <= end
    modifies diag
    ensures forall c, n :: 0 <= c < diag.Length0 && 0 <= n < diag.Length1 ==>
              diag[c, n] == old(diag[c, n]) + Interpolated(CellField(value, c), x.Mid(lo + n), from, end)
  {
    var i := end;
    while i > from
      invariant from <= i <= end
      invariant forall c, n :: 0 <= c < diag.Length0 && 0 <= n < diag.Length1 ==>
        diag[c, n] == old(diag[c, n]) + Part(x, lo, value, c, n, i, end)
    {
      i := i - 1;
      Copy(x, i, diag, lo, value(i));
      forall c, n | 0 <= c < diag.Length0 && 0 <= n < diag.Length1
        ensures Part(x, lo, value, c, n, i, end) == ShareIn(x, lo, n, i) * value(i)(c) + Part(x, lo, value, c, n, i + 1, end)
      {
        PartStep(x, lo, value, c, n, i, end);
      }
    }
    forall c, n | 0 <= c < diag.Length0 && 0 <= n < diag.Length1
      ensures diag[c, n] == old(diag[c, n]) + Interpolated(CellField(value, c), x.Mid(lo + n), from, end)
    {
      ScatterIsGather(CellField(value, c), x.Mid(lo + n), from, end);
    }
  }
}
