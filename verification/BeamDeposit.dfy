/** Depositing the beam currents of one slice: which particles deposit on this slice and which on the next one. */
module BeamDeposit {
  import opened Beam
  import opened MultiBeam
  import opened Orders
  import opened Ring
  import opened RingTheorems
  import opened Serial
  import opened Schedule
  import D = Deposition
  import S = Shape

  datatype WhichSlice = This | Next

  /** How a beam particle deposits: its transverse position, and its share of the three currents. */
  datatype Currents = Currents(look: Particle -> D.Plasma, wqx: D.Plasma -> real, wqy: D.Plasma -> real, wqz: D.Plasma -> real)
  {
    ghost predicate Valid() { forall p: Particle :: look(p).id == p.id }
  }

  function Amount(wq: D.Plasma -> real): D.Physics { D.Physics((p: D.Plasma) => false, wq) }

  function Looked(q: Currents, a: seq<Particle>): (r: seq<D.Plasma>)
    ensures |r| == |a| && forall i :: 0 <= i < |a| ==> r[i] == q.look(a[i])
  {
    seq(|a|, i requires 0 <= i < |a| => q.look(a[i]))
  }

  /** Bin k of the box that starts at `from`. */
  predicate BinOk(arr: seq<Particle>, from: nat, perm: seq<nat>, offsets: seq<nat>, k: nat) {
    k + 1 < |offsets| && offsets[k] <= offsets[k + 1] <= |perm| && forall i :: 0 <= i < |perm| ==> from + perm[i] < |arr|
  }

  function Bin(arr: seq<Particle>, from: nat, perm: seq<nat>, offsets: seq<nat>, k: nat): (r: seq<Particle>)
    requires BinOk(arr, from, perm, offsets, k)
    ensures |r| == offsets[k + 1] - offsets[k] && forall i :: 0 <= i < |r| ==> r[i] == arr[from + perm[offsets[k] + i]]
  {
    seq(offsets[k + 1] - offsets[k], i requires 0 <= i < offsets[k + 1] - offsets[k] => arr[from + perm[offsets[k] + i]])
  }

  predicate RangeOk(arr: seq<Particle>, from: nat, perm: seq<nat>, offsets: seq<nat>, islice: nat, which: WhichSlice, nghost: nat) {
    if which.This? then BinOk(arr, from, perm, offsets, islice)
    else if islice > 0 then BinOk(arr, from, perm, offsets, islice - 1)
    else nghost <= |arr|
  }

  /** The particles that deposit: bin islice on this slice; bin islice-1, or the ghosts, on the next. */
  function Chosen(arr: seq<Particle>, from: nat, perm: seq<nat>, offsets: seq<nat>, islice: nat, which: WhichSlice, nghost: nat): seq<Particle>
    requires RangeOk(arr, from, perm, offsets, islice, which, nghost)
  {
    if which.This? then Bin(arr, from, perm, offsets, islice)
    else if islice > 0 then Bin(arr, from, perm, offsets, islice - 1)
    else arr[|arr| - nghost..]
  }

  // ---------------------------------------------------------------- the loop

  ghost predicate Inside(q: Currents, a: seq<Particle>, nx: int, ny: int) {
    forall i :: 0 <= i < |a| && a[i].id >= 0 ==> 0.0 <= q.look(a[i]).x < nx as real && 0.0 <= q.look(a[i]).y < ny as real
  }

  /** The three current arrays of a slice, and what they held before. */
  datatype Slab = Slab(jx: array2<real>, jy: array2<real>, jz: array2<real>)

  ghost predicate Ready(f: Slab, order: nat, ng: int, nx: int, ny: int) {
    && f.jx != f.jy && f.jy != f.jz && f.jx != f.jz
    && D.Guarded(order, ng, f.jx, nx, ny) && D.Guarded(order, ng, f.jy, nx, ny) && D.Guarded(order, ng, f.jz, nx, ny)
  }

  ghost predicate HasAll(q: Currents, order: nat, doXY: bool, doZ: bool, a: seq<Particle>, ng: int, was: Before, f: Slab)
    reads f.jx, f.jy, f.jz
  {
    && Has(q, q.wqx, order, doXY, a, ng, was.jx, f.jx)
    && Has(q, q.wqy, order, doXY, a, ng, was.jy, f.jy)
    && Has(q, q.wqz, order, doZ, a, ng, was.jz, f.jz)
  }

  datatype Before = Before(jx: (int, int) -> real, jy: (int, int) -> real, jz: (int, int) -> real)

  /** The body of the particle loop; the arrays hold what the particles `done` have added. */
  method DepositCurrent(q: Currents, order: nat, p: Particle, f: Slab, ng: int, nx: int, ny: int,
                        doXY: bool, doZ: bool, ghost done: seq<Particle>, ghost was: Before)
    requires q.Valid() && Inside(q, [p], nx, ny) && Ready(f, order, ng, nx, ny) && HasAll(q, order, doXY, doZ, done, ng, was, f)
    modifies f.jx, f.jy, f.jz
    ensures HasAll(q, order, doXY, doZ, done + [p], ng, was, f)
  {
    AddOne(q, q.wqx, order, p, f.jx, ng, nx, ny, doXY, done, was.jx);
    AddOne(q, q.wqy, order, p, f.jy, ng, nx, ny, doXY, done, was.jy);
    AddOne(q, q.wqz, order, p, f.jz, ng, nx, ny, doZ, done, was.jz);
  }

  /** The array holds what it held before and, if it is deposited to at all, the shares of the particles. */
  ghost predicate Has(q: Currents, wq: D.Plasma -> real, order: nat, on: bool, a: seq<Particle>, ng: int, was: (int, int) -> real, j: array2<real>)
    reads j
  {
    D.Holds(Amount(wq), order, if on then Looked(q, a) else [], ng, 0, 0, was, j)
  }

  method AddOne(q: Currents, wq: D.Plasma -> real, order: nat, p: Particle, j: array2<real>, ng: int, nx: int, ny: int, on: bool,
                ghost done: seq<Particle>, ghost was: (int, int) -> real)
    requires q.Valid() && Inside(q, [p], nx, ny) && D.Guarded(order, ng, j, nx, ny) && Has(q, wq, order, on, done, ng, was, j)
    modifies j
    ensures Has(q, wq, order, on, done + [p], ng, was, j)
  {
    if !on { return; }
    assert [p][0] == p;
    if p.id >= 0 { D.FitsInside(Amount(wq), order, q.look(p), nx, ny, ng, 0, 0); }
    D.DepositNext(Amount(wq), order, q.look(p), j, ng, 0, 0, Looked(q, done), was);
    assert Looked(q, done + [p]) == Looked(q, done) + [q.look(p)];
  }

  /** The start of the particle range in the tile, and the range of places in it. */
  method SelectRange(arr: seq<Particle>, islice: nat, perm: seq<nat>, offsets: seq<nat>, from: nat, which: WhichSlice, nghost: nat)
      returns (boxOffset: nat, cellStart: nat, cellStop: nat)
    requires RangeOk(arr, from, perm, offsets, islice, which, nghost)
    ensures cellStart <= cellStop && |Chosen(arr, from, perm, offsets, islice, which, nghost)| == cellStop - cellStart
    ensures forall idx :: 0 <= idx < cellStop - cellStart ==> Picks(arr, boxOffset, cellStart, perm, which.Next? && islice == 0, idx,
                                                                    Chosen(arr, from, perm, offsets, islice, which, nghost)[idx])
  {
    var depositGhost := which.Next? && islice == 0;
    boxOffset := from;
    if depositGhost { boxOffset := |arr| - nghost; }
    if which.This? {
      cellStart, cellStop := offsets[islice], offsets[islice + 1];
    } else if islice > 0 {
      cellStart, cellStop := offsets[islice - 1], offsets[islice];
    } else {
      cellStart, cellStop := 0, nghost;
    }
  }

  /** Place idx of the range is particle p: through the bins, or directly for ghosts. */
  ghost predicate Picks(arr: seq<Particle>, boxOffset: nat, cellStart: nat, perm: seq<nat>, depositGhost: bool, idx: nat, p: Particle) {
    && (depositGhost || cellStart + idx < |perm|)
    && var ip := if depositGhost then cellStart + idx else perm[cellStart + idx];
    && boxOffset + ip < |arr| && arr[boxOffset + ip] == p
  }

  /** The particle loop over the places of a range, in the order `visit`. */
  method DepositRange(q: Currents, order: nat, arr: seq<Particle>, f: Slab, ng: int, nx: int, ny: int, perm: seq<nat>, doXY: bool, doZ: bool,
                      boxOffset: nat, cellStart: nat, numParticles: nat, depositGhost: bool, visit: seq<nat>, ghost chosen: seq<Particle>, ghost was: Before)
    requires q.Valid() && Ready(f, order, ng, nx, ny) && Inside(q, chosen, nx, ny) && Order(visit, numParticles) && |chosen| == numParticles
    requires forall i :: 0 <= i < |visit| ==> visit[i] < numParticles
    requires forall idx :: 0 <= idx < numParticles ==> Picks(arr, boxOffset, cellStart, perm, depositGhost, idx, chosen[idx])
    requires HasAll(q, order, doXY, doZ, [], ng, was, f)
    modifies f.jx, f.jy, f.jz
    ensures HasAll(q, order, doXY, doZ, Visit(chosen, visit), ng, was, f)
  {
    ghost var visited := Visit(chosen, visit);
    assert visited[..0] == [];
    for i := 0 to numParticles
      invariant HasAll(q, order, doXY, doZ, visited[..i], ng, was, f)
    {
      var idx := visit[i];
      assert Picks(arr, boxOffset, cellStart, perm, depositGhost, idx, chosen[idx]);
      var ip := if depositGhost then cellStart + idx else perm[cellStart + idx];
      var p := arr[boxOffset + ip];
      InsideOne(q, chosen, idx, p, nx, ny);
      assert visited[..i + 1] == visited[..i] + [p];
      DepositCurrent(q, order, p, f, ng, nx, ny, doXY, doZ, visited[..i], was);
    }
    assert visited[..numParticles] == visited;
  }

  lemma NothingAdded(q: Currents, order: nat, a: seq<Particle>, ng: int, was: Before, f: Slab)
    requires HasAll(q, order, false, false, [], ng, was, f)
    ensures HasAll(q, order, false, false, a, ng, was, f)
  {
  }

  /** The deposition of one slice, the particles visited in any order: the chosen particles, and only the valid ones, add
      their shares of jx and jy (if these are deposited), and of jz when this slice is meant. */
  method DoDeposition(q: Currents, order: nat, arr: seq<Particle>, f: Slab, ng: int, nx: int, ny: int, islice: nat, perm: seq<nat>, offsets: seq<nat>,
                      from: nat, doXY: bool, which: WhichSlice, nghost: nat, visit: seq<nat>, ghost was: Before)
    requires q.Valid() && RangeOk(arr, from, perm, offsets, islice, which, nghost) && Ready(f, order, ng, nx, ny)
    requires Inside(q, Chosen(arr, from, perm, offsets, islice, which, nghost), nx, ny)
    requires Order(visit, |Chosen(arr, from, perm, offsets, islice, which, nghost)|)
    requires HasAll(q, order, doXY, which.This?, [], ng, was, f)
    modifies f.jx, f.jy, f.jz
    ensures HasAll(q, order, doXY, which.This?, Chosen(arr, from, perm, offsets, islice, which, nghost), ng, was, f)
    ensures Gained(f.jx, was.jx, q.wqx, q.look, order, doXY, Chosen(arr, from, perm, offsets, islice, which, nghost), ng)
    ensures Gained(f.jy, was.jy, q.wqy, q.look, order, doXY, Chosen(arr, from, perm, offsets, islice, which, nghost), ng)
    ensures Gained(f.jz, was.jz, q.wqz, q.look, order, which.This?, Chosen(arr, from, perm, offsets, islice, which, nghost), ng)
  {
    var depositGhost := which.Next? && islice == 0;
    ghost var chosen := Chosen(arr, from, perm, offsets, islice, which, nghost);
    if depositGhost && !doXY {
      NothingAdded(q, order, chosen, ng, was, f);
      AllGained(q, order, doXY, which.This?, chosen, ng, was, f);
      return;
    }
    var boxOffset, cellStart, cellStop := SelectRange(arr, islice, perm, offsets, from, which, nghost);
    InRange(visit, cellStop - cellStart);
    DepositRange(q, order, arr, f, ng, nx, ny, perm, doXY, which.This?, boxOffset, cellStart, cellStop - cellStart, depositGhost, visit, chosen, was);
    AnyOrderAll(q, order, doXY, which.This?, chosen, visit, ng, was, f);
    AllGained(q, order, doXY, which.This?, chosen, ng, was, f);
  }

  /** The share of current of the valid particles of a in entry [x, y]: amount times the weights of the transverse position. */
  function Share(a: seq<Particle>, look: Particle -> D.Plasma, wq: D.Plasma -> real, order: nat, ng: int, x: int, y: int): real {
    if a == [] then 0.0 else
      var p := look(a[|a| - 1]);
      Share(a[..|a| - 1], look, wq, order, ng, x, y)
      + if p.id >= 0 then S.At(order, p.x - 0.5, x - ng) * S.At(order, p.y - 0.5, y - ng) * wq(p) else 0.0
  }

  /** Array j holds what it held before and, if it is deposited to, the shares of the valid particles of a. */
  ghost predicate Gained(j: array2<real>, was: (int, int) -> real, wq: D.Plasma -> real, look: Particle -> D.Plasma, order: nat, on: bool,
                         a: seq<Particle>, ng: int)
    reads j
  {
    forall x, y :: 0 <= x < j.Length0 && 0 <= y < j.Length1 ==>
      j[x, y] == was(x, y) + if on then Share(a, look, wq, order, ng, x, y) else 0.0
  }

  lemma {:induction false} ShareIs(q: Currents, wq: D.Plasma -> real, order: nat, a: seq<Particle>, ng: int, x: int, y: int)
    ensures D.SumIn(Amount(wq), order, Looked(q, a), ng, 0, 0, x, y) == Share(a, q.look, wq, order, ng, x, y)
  {
    if a != [] {
      ShareIs(q, wq, order, a[..|a| - 1], ng, x, y);
      assert Looked(q, a)[..|a| - 1] == Looked(q, a[..|a| - 1]);
    }
  }

  lemma OneGained(q: Currents, wq: D.Plasma -> real, order: nat, on: bool, a: seq<Particle>, ng: int, was: (int, int) -> real, j: array2<real>)
    requires Has(q, wq, order, on, a, ng, was, j)
    ensures Gained(j, was, wq, q.look, order, on, a, ng)
  {
    forall x, y {:trigger j[x, y]} | 0 <= x < j.Length0 && 0 <= y < j.Length1
      ensures j[x, y] == was(x, y) + if on then Share(a, q.look, wq, order, ng, x, y) else 0.0
    {
      ShareIs(q, wq, order, a, ng, x, y);
    }
  }

  lemma AllGained(q: Currents, order: nat, doXY: bool, doZ: bool, a: seq<Particle>, ng: int, was: Before, f: Slab)
    requires HasAll(q, order, doXY, doZ, a, ng, was, f)
    ensures Gained(f.jx, was.jx, q.wqx, q.look, order, doXY, a, ng)
    ensures Gained(f.jy, was.jy, q.wqy, q.look, order, doXY, a, ng)
    ensures Gained(f.jz, was.jz, q.wqz, q.look, order, doZ, a, ng)
  {
    OneGained(q, q.wqx, order, doXY, a, ng, was.jx, f.jx);
    OneGained(q, q.wqy, order, doXY, a, ng, was.jy, f.jy);
    OneGained(q, q.wqz, order, doZ, a, ng, was.jz, f.jz);
  }

  lemma InsideOne(q: Currents, a: seq<Particle>, i: nat, p: Particle, nx: int, ny: int)
    requires i < |a| && a[i] == p && Inside(q, a, nx, ny)
    ensures Inside(q, [p], nx, ny)
  {
  }

  lemma AnyOrderAll(q: Currents, order: nat, doXY: bool, doZ: bool, a: seq<Particle>, visit: seq<nat>, ng: int, was: Before, f: Slab)
    requires Order(visit, |a|) && (forall i :: 0 <= i < |visit| ==> visit[i] < |a|) && HasAll(q, order, doXY, doZ, Visit(a, visit), ng, was, f)
    ensures HasAll(q, order, doXY, doZ, a, ng, was, f)
  {
    AnyOrder(q, q.wqx, order, doXY, a, visit, ng, was.jx, f.jx);
    AnyOrder(q, q.wqy, order, doXY, a, visit, ng, was.jy, f.jy);
    AnyOrder(q, q.wqz, order, doZ, a, visit, ng, was.jz, f.jz);
  }

  /** Depositing the same particles in another order. */
  lemma {:induction false} HoldsPermuted(h: D.Physics, order: nat, a: seq<D.Plasma>, b: seq<D.Plasma>, ng: int, was: (int, int) -> real, j: array2<real>)
    requires multiset(a) == multiset(b) && D.Holds(h, order, a, ng, 0, 0, was, j)
    ensures D.Holds(h, order, b, ng, 0, 0, was, j)
  {
    forall x: int, y: int ensures D.SumIn(h, order, a, ng, 0, 0, x, y) == D.SumIn(h, order, b, ng, 0, 0, x, y) {
      D.SumPermuted(h, order, a, b, x - ng + 0, y - ng + 0);
    }
  }

  lemma {:induction false} AnyOrder(q: Currents, wq: D.Plasma -> real, order: nat, on: bool, a: seq<Particle>, visit: seq<nat>, ng: int, was: (int, int) -> real, j: array2<real>)
    requires Order(visit, |a|) && (forall i :: 0 <= i < |visit| ==> visit[i] < |a|) && Has(q, wq, order, on, Visit(a, visit), ng, was, j)
    ensures Has(q, wq, order, on, a, ng, was, j)
  {
    if on {
      LookedVisit(q, a, visit);
      VisitAll(Looked(q, a), visit);
      HoldsPermuted(Amount(wq), order, Looked(q, Visit(a, visit)), Looked(q, a), ng, was, j);
    }
  }

  lemma LookedVisit(q: Currents, a: seq<Particle>, visit: seq<nat>)
    requires forall i :: 0 <= i < |visit| ==> visit[i] < |a|
    ensures Looked(q, Visit(a, visit)) == Visit(Looked(q, a), visit)
  {
  }

  // ---------------------------------------------------------------- against the pipeline model

  lemma {:induction false} LookSame(q: Currents, a: seq<Particle>, b: seq<Particle>)
    requires multiset(a) == multiset(b)
    ensures multiset(Looked(q, a)) == multiset(Looked(q, b))
  {
    if a == [] {
      assert |multiset(b)| == 0;
    } else {
      assert a[0] in multiset(b);
      var i :| 0 <= i < |b| && b[i] == a[0];
      RemoveOne(a, b, i);
      LookSame(q, a[1..], b[..i] + b[i + 1..]);
      assert Looked(q, a) == [q.look(a[0])] + Looked(q, a[1..]);
      assert Looked(q, b) == Looked(q, b[..i]) + [q.look(b[i])] + Looked(q, b[i + 1..]);
      assert Looked(q, b[..i] + b[i + 1..]) == Looked(q, b[..i]) + Looked(q, b[i + 1..]);
    }
  }

  lemma InvalidPart(q: Currents, wq: D.Plasma -> real, order: nat, p: Particle, x: int, y: int)
    requires q.Valid() && p.id < 0
    ensures D.Part(Amount(wq), order, q.look(p), x, y) == 0.0
  {
    assert q.look(p).id == p.id;
  }

  lemma FirstLooked(q: Currents, wq: D.Plasma -> real, order: nat, p: Particle, a: seq<Particle>, x: int, y: int)
    ensures D.Sum(Amount(wq), order, Looked(q, [p] + a), x, y) == D.Sum(Amount(wq), order, Looked(q, a), x, y) + D.Part(Amount(wq), order, q.look(p), x, y)
  {
    var s := Looked(q, [p] + a);
    assert s[1..] == Looked(q, a);
    D.SumFirst(Amount(wq), order, s, x, y);
  }

  lemma {:induction false} OnlyValids(q: Currents, wq: D.Plasma -> real, order: nat, a: seq<Particle>, x: int, y: int)
    requires q.Valid()
    ensures D.Sum(Amount(wq), order, Looked(q, a), x, y) == D.Sum(Amount(wq), order, Looked(q, Valids(a)), x, y)
  {
    if a == [] {
      assert Valids(a) == a;
    } else {
      OnlyValids(q, wq, order, a[1..], x, y);
      assert a == [a[0]] + a[1..];
      FirstLooked(q, wq, order, a[0], a[1..], x, y);
      if a[0].id >= 0 {
        FirstLooked(q, wq, order, a[0], Valids(a[1..]), x, y);
      } else {
        InvalidPart(q, wq, order, a[0], x, y);
        assert Valids(a) == Valids(a[1..]);
      }
    }
  }

  /** Particle lists with the same valid particles deposit the same currents. */
  lemma SameValidsSameCurrent(q: Currents, wq: D.Plasma -> real, order: nat, a: seq<Particle>, b: seq<Particle>, x: int, y: int)
    requires q.Valid() && multiset(Valids(a)) == multiset(Valids(b))
    ensures D.Sum(Amount(wq), order, Looked(q, a), x, y) == D.Sum(Amount(wq), order, Looked(q, b), x, y)
  {
    OnlyValids(q, wq, order, a, x, y);
    OnlyValids(q, wq, order, b, x, y);
    LookSame(q, Valids(a), Valids(b));
    D.SumPermuted(Amount(wq), order, Looked(q, Valids(a)), Looked(q, Valids(b)), x, y);
  }

  lemma ValidsSame(a: seq<Particle>, b: seq<Particle>)
    requires multiset(a) == multiset(b)
    ensures multiset(Valids(a)) == multiset(Valids(b))
  {
    forall p ensures multiset(Valids(a))[p] == multiset(Valids(b))[p] {
      if p.id >= 0 {
        CountValids(a, p);
        CountValids(b, p);
      }
    }
  }

  lemma BinIsInBin(arr: seq<Particle>, bin: seq<int>, from: nat, to: nat, perm: seq<nat>, offsets: seq<nat>, lo: nat, k: nat)
    requires |bin| <= |arr| && from <= to <= |bin| && forall i :: 0 <= i < |bin| && !(from <= i < to) ==> bin[i] == -1
    requires Order(perm, to - from) && BinAt(perm, offsets, LocalBins(bin, from, to, lo), k)
    ensures BinOk(arr, from, perm, offsets, k) && multiset(Bin(arr, from, perm, offsets, k)) == multiset(InBin(arr[..|bin|], bin, lo + k))
  {
    var local, own := LocalBins(bin, from, to, lo), arr[..|bin|];
    InRange(perm, to - from);
    BinPlaces(perm, offsets, own[from..to], local, k);
    PlacesAre(own, from, to, perm, offsets, k, Bin(arr, from, perm, offsets, k));
    BinsOfWindow(own, bin, from, to, lo, k);
  }

  /** The places of the box's particles, and -1 as the slice of all others. */
  ghost predicate Window(rk: Rank, from: nat, to: nat) {
    Split(rk) && from <= to <= rk.nreal && forall i :: 0 <= i < rk.nreal && !(from <= i < to) ==> rk.bin[i] == -1
  }

  lemma BinIsHere(rk: Rank, from: nat, to: nat, perm: seq<nat>, offsets: seq<nat>, lo: nat, k: nat)
    requires Window(rk, from, to) && Order(perm, to - from) && BinAt(perm, offsets, LocalBins(rk.bin, from, to, lo), k)
    ensures BinOk(rk.arr, from, perm, offsets, k) && multiset(Valids(Bin(rk.arr, from, perm, offsets, k))) == Here(rk, lo + k)
  {
    BinIsInBin(rk.arr, rk.bin, from, to, perm, offsets, lo, k);
    ValidsSame(Bin(rk.arr, from, perm, offsets, k), InBin(rk.arr[..rk.nreal], rk.bin, lo + k));
  }

  /** What deposits on this slice is what the pipeline model hands to the field solver as the particles of the slice. */
  lemma ThisIsHere(rk: Rank, from: nat, to: nat, perm: seq<nat>, offsets: seq<nat>, lo: nat, islice: nat, nghost: nat)
    requires Window(rk, from, to) && Order(perm, to - from) && BinAt(perm, offsets, LocalBins(rk.bin, from, to, lo), islice)
    ensures RangeOk(rk.arr, from, perm, offsets, islice, This, nghost)
    ensures multiset(Valids(Chosen(rk.arr, from, perm, offsets, islice, This, nghost))) == Here(rk, lo + islice)
  {
    BinIsHere(rk, from, to, perm, offsets, lo, islice);
  }

  lemma BinBefore(rk: Rank, from: nat, perm: seq<nat>, offsets: seq<nat>, lo: nat, k: nat)
    requires Split(rk) && BinOk(rk.arr, from, perm, offsets, k)
    ensures RangeOk(rk.arr, from, perm, offsets, k + 1, Next, |rk.arr| - rk.nreal)
    ensures Chosen(rk.arr, from, perm, offsets, k + 1, Next, |rk.arr| - rk.nreal) == Bin(rk.arr, from, perm, offsets, k)
    ensures Beyond(rk, lo + (k + 1), lo) == Here(rk, lo + k)
  {
    assert lo + (k + 1) - 1 == lo + k;
  }

  /** What deposits on the next slice is what it hands to the field solver as the particles of the slice behind: the bin
      behind this one ... */
  lemma NextIsBeyond(rk: Rank, from: nat, to: nat, perm: seq<nat>, offsets: seq<nat>, lo: nat, k: nat)
    requires Window(rk, from, to) && Order(perm, to - from) && BinAt(perm, offsets, LocalBins(rk.bin, from, to, lo), k)
    ensures RangeOk(rk.arr, from, perm, offsets, k + 1, Next, |rk.arr| - rk.nreal)
    ensures multiset(Valids(Chosen(rk.arr, from, perm, offsets, k + 1, Next, |rk.arr| - rk.nreal))) == Beyond(rk, lo + (k + 1), lo)
  {
    BinIsHere(rk, from, to, perm, offsets, lo, k);
    BinBefore(rk, from, perm, offsets, lo, k);
  }

  /** ... or the ghosts behind the tail slice of the box. */
  lemma GhostsAreBeyond(rk: Rank, from: nat, perm: seq<nat>, offsets: seq<nat>, lo: nat)
    requires Split(rk)
    ensures RangeOk(rk.arr, from, perm, offsets, 0, Next, |rk.arr| - rk.nreal)
    ensures multiset(Valids(Chosen(rk.arr, from, perm, offsets, 0, Next, |rk.arr| - rk.nreal))) == Beyond(rk, lo, lo)
  {
    var nghost := |rk.arr| - rk.nreal;
    assert Chosen(rk.arr, from, perm, offsets, 0, Next, nghost) == rk.arr[rk.nreal..];
  }

  /** Across boxes: the ghosts deposit on the next slice, in any run of the pipeline, exactly what the particles of that
      slice deposit on this slice once the box below solves it in the same step. */
  lemma {:induction false} GhostsDepositTheNextSlice(e: Env, st: State, r: int, q: Currents, wq: D.Plasma -> real, order: nat, below: seq<Particle>, x: int, y: int)
    requires RingEnv(e) && Reachable(e, st) && Shape(e, st) && 0 <= r < e.ranks && st.ranks[r].ph == SolveTail
    requires Cur(e, r, st.ranks[r]).box > 0 && q.Valid()
    requires var b := Cur(e, r, st.ranks[r]); multiset(Valids(below)) == multiset(Particles(e, BeamAt(e, b.step), Hi(e, b.box - 1)))
    ensures var rk, b := st.ranks[r], Cur(e, r, st.ranks[r]);
            && rk.nreal <= |rk.arr|
            && var ghosts := CheckGhosts(e.g, Lo(e, b.box), rk.arr[rk.nreal..]);
            D.Sum(Amount(wq), order, Looked(q, ghosts), x, y) == D.Sum(Amount(wq), order, Looked(q, below), x, y)
  {
    GhostsAreTheNextSlice(e, st, r);
    var rk, b := st.ranks[r], Cur(e, r, st.ranks[r]);
    SameValidsSameCurrent(q, wq, order, CheckGhosts(e.g, Lo(e, b.box), rk.arr[rk.nreal..]), below, x, y);
  }
}
