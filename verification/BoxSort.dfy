/** The box sorter: a counting sort with one extra bin for particles that left the domain. Its kernels run over the
    particles in any order, so every kernel takes the order as a parameter. */
module BoxSort {
  import opened Beam
  import opened Orders

  // ---------------------------------------------------------------- the sorted array

  /** The bin of a particle: its box, or the escape bin behind the boxes. */
  function Bin(g: Geometry, p: Particle): nat
    requires g.edges != []
  {
    if BoxOf(g, p) < 0 then g.Boxes() else BoxOf(g, p)
  }

  /** The particles of bin b among the first n, in order of arrival. */
  function Select(g: Geometry, m: seq<Particle>, n: nat, b: int): (r: seq<Particle>)
    requires g.edges != [] && n <= |m|
  {
    if n == 0 then []
    else if Bin(g, m[n - 1]) == b then Select(g, m, n - 1, b) + [m[n - 1]]
    else Select(g, m, n - 1, b)
  }

  lemma {:induction false} SelectBin(g: Geometry, m: seq<Particle>, n: nat, b: int, i: nat)
    requires g.edges != [] && n <= |m| && i < |Select(g, m, n, b)|
    ensures Bin(g, Select(g, m, n, b)[i]) == b
  {
    if i < |Select(g, m, n - 1, b)| { SelectBin(g, m, n - 1, b, i); }
  }

  /** The bins below b, one after the other. */
  function Below(g: Geometry, m: seq<Particle>, b: nat): (r: seq<Particle>)
    requires g.edges != []
  {
    if b == 0 then [] else Below(g, m, b - 1) + Select(g, m, |m|, b - 1)
  }

  lemma {:induction false} SelectMore(g: Geometry, m: seq<Particle>, k: nat, n: nat, b: int, i: nat)
    requires g.edges != [] && k <= n <= |m| && i < |Select(g, m, k, b)|
    ensures i < |Select(g, m, n, b)| && Select(g, m, n, b)[i] == Select(g, m, k, b)[i]
    decreases n
  {
    if k < n { SelectMore(g, m, k, n - 1, b, i); }
  }

  lemma {:induction false} BelowMore(g: Geometry, m: seq<Particle>, b: nat, c: nat)
    requires g.edges != [] && b <= c
    ensures |Below(g, m, b)| <= |Below(g, m, c)|
    decreases c
  {
    if b < c { BelowMore(g, m, b, c - 1); }
  }

  lemma {:induction false} BelowSame(g: Geometry, m: seq<Particle>, b: nat, c: nat, i: nat)
    requires g.edges != [] && b <= c && i < |Below(g, m, b)|
    ensures i < |Below(g, m, c)| && Below(g, m, c)[i] == Below(g, m, b)[i]
    decreases c
  {
    if b < c { BelowSame(g, m, b, c - 1, i); }
  }

  /** Where particle k goes: behind the lower bins and the earlier arrivals of its own bin. */
  function Slot(g: Geometry, m: seq<Particle>, k: nat): nat
    requires g.edges != [] && k < |m|
  {
    |Below(g, m, Bin(g, m[k]))| + |Select(g, m, k, Bin(g, m[k]))|
  }

  function Result(g: Geometry, m: seq<Particle>): seq<Particle>
    requires g.edges != []
  {
    Below(g, m, g.Boxes() + 1)
  }

  lemma ArrivalValue(g: Geometry, m: seq<Particle>, k: nat, b: int)
    requires g.edges != [] && k < |m| && b == Bin(g, m[k])
    ensures |Select(g, m, k, b)| < |Select(g, m, |m|, b)| && Select(g, m, |m|, b)[|Select(g, m, k, b)|] == m[k]
  {
    SelectMore(g, m, k + 1, |m|, b, |Select(g, m, k, b)|);
  }

  lemma BelowNext(g: Geometry, m: seq<Particle>, b: nat, i: nat)
    requires g.edges != [] && i < |Select(g, m, |m|, b)|
    ensures |Below(g, m, b)| + i < |Below(g, m, b + 1)| && Below(g, m, b + 1)[|Below(g, m, b)| + i] == Select(g, m, |m|, b)[i]
  {
  }

  lemma BelowValue(g: Geometry, m: seq<Particle>, b: nat, i: nat, c: nat)
    requires g.edges != [] && b < c && i < |Select(g, m, |m|, b)|
    ensures |Below(g, m, b)| + i < |Below(g, m, c)| && Below(g, m, c)[|Below(g, m, b)| + i] == Select(g, m, |m|, b)[i]
  {
    BelowNext(g, m, b, i);
    BelowSame(g, m, b + 1, c, |Below(g, m, b)| + i);
  }

  lemma BinRange(g: Geometry, p: Particle)
    requires g.Valid()
    ensures 0 <= Bin(g, p) <= g.Boxes()
  {
  }

  lemma SlotValue(g: Geometry, m: seq<Particle>, k: nat)
    requires g.edges != [] && k < |m| && Bin(g, m[k]) <= g.Boxes()
    ensures Slot(g, m, k) < |Result(g, m)| && Result(g, m)[Slot(g, m, k)] == m[k]
  {
    ArrivalValue(g, m, k, Bin(g, m[k]));
    BelowValue(g, m, Bin(g, m[k]), |Select(g, m, k, Bin(g, m[k]))|, g.Boxes() + 1);
  }

  lemma {:induction false} Arrival(g: Geometry, m: seq<Particle>, n: nat, b: int, i: nat) returns (k: nat)
    requires g.edges != [] && n <= |m| && i < |Select(g, m, n, b)|
    ensures k < n && Bin(g, m[k]) == b && |Select(g, m, k, b)| == i
    decreases n
  {
    if i < |Select(g, m, n - 1, b)| { k := Arrival(g, m, n - 1, b, i); } else { k := n - 1; }
  }

  lemma {:induction false} FindBin(g: Geometry, m: seq<Particle>, p: nat, c: nat) returns (b: nat)
    requires g.edges != [] && p < |Below(g, m, c)|
    ensures b < c && |Below(g, m, b)| <= p < |Below(g, m, b)| + |Select(g, m, |m|, b)|
    decreases c
  {
    if p < |Below(g, m, c - 1)| { b := FindBin(g, m, p, c - 1); } else { b := c - 1; }
  }

  /** Every slot of the result is the slot of some particle. */
  lemma SlotTaken(g: Geometry, m: seq<Particle>, p: nat) returns (k: nat)
    requires g.edges != [] && p < |Result(g, m)|
    ensures k < |m| && Slot(g, m, k) == p
  {
    var b := FindBin(g, m, p, g.Boxes() + 1);
    k := Arrival(g, m, |m|, b, p - |Below(g, m, b)|);
  }

  // ---------------------------------------------------------------- the result is box sorted

  lemma {:induction false} CountSelect(g: Geometry, m: seq<Particle>, n: nat, b: int, x: Particle)
    requires g.edges != [] && n <= |m|
    ensures Times(Select(g, m, n, b), x) == if Bin(g, x) == b then Times(m[..n], x) else 0
  {
    if n > 0 {
      CountSelect(g, m, n - 1, b, x);
      assert m[..n] == m[..n - 1] + [m[n - 1]];
      TimesSnoc(m[..n - 1], m[n - 1], x);
      if Bin(g, m[n - 1]) == b { TimesSnoc(Select(g, m, n - 1, b), m[n - 1], x); }
    }
  }

  lemma CountBin(g: Geometry, m: seq<Particle>, b: int, x: Particle)
    requires g.edges != []
    ensures Times(Select(g, m, |m|, b), x) == if Bin(g, x) == b then Times(m, x) else 0
  {
    CountSelect(g, m, |m|, b, x);
    assert m[..|m|] == m;
  }

  lemma TimesBelow(g: Geometry, m: seq<Particle>, b: nat, x: Particle)
    requires g.edges != []
    ensures Times(Below(g, m, b + 1), x) == Times(Below(g, m, b), x) + Times(Select(g, m, |m|, b), x)
  {
    TimesConcat(Below(g, m, b), Select(g, m, |m|, b), x);
    assert Below(g, m, b + 1) == Below(g, m, b) + Select(g, m, |m|, b);
  }

  lemma TimesNext(g: Geometry, m: seq<Particle>, b: nat, x: Particle)
    requires g.edges != []
    ensures Times(Below(g, m, b + 1), x) == Times(Below(g, m, b), x) + if Bin(g, x) == b then Times(m, x) else 0
  {
    TimesBelow(g, m, b, x);
    CountBin(g, m, b, x);
  }

  /** Bin `bin` adds n to the count, every other bin nothing. */
  ghost predicate AddsAt(count: nat -> nat, bin: nat, n: nat, i: nat) { count(i + 1) == count(i) + if i == bin then n else 0 }

  lemma {:induction false} OneBinAdds(count: nat -> nat, bin: nat, n: nat, b: nat)
    requires count(0) == 0 && forall i: nat :: i < b ==> AddsAt(count, bin, n, i)
    ensures count(b) == if bin < b then n else 0
  {
    if b > 0 {
      OneBinAdds(count, bin, n, b - 1);
      assert AddsAt(count, bin, n, b - 1);
    }
  }

  /** How often x is in the bins below a bin. */
  ghost function TimesIn(g: Geometry, m: seq<Particle>, x: Particle): nat -> nat
    requires g.edges != []
  {
    (b: nat) requires g.edges != [] => Times(Below(g, m, b), x)
  }

  lemma BinAdds(g: Geometry, m: seq<Particle>, x: Particle, b: nat)
    requires g.edges != [] && Bin(g, x) >= 0
    ensures AddsAt(TimesIn(g, m, x), Bin(g, x), Times(m, x), b)
  {
    TimesNext(g, m, b, x);
  }

  lemma SameLength(s: seq<Particle>, t: seq<Particle>)
    requires multiset(s) == multiset(t)
    ensures |s| == |t|
  {
    assert |multiset(s)| == |s| && |multiset(t)| == |t|;
  }

  lemma {:induction false} CountResult(g: Geometry, m: seq<Particle>, x: Particle)
    requires g.Valid()
    ensures Times(Result(g, m), x) == Times(m, x)
  {
    BinRange(g, x);
    forall b: nat | b < g.Boxes() + 1 ensures AddsAt(TimesIn(g, m, x), Bin(g, x), Times(m, x), b) { BinAdds(g, m, x, b); }
    OneBinAdds(TimesIn(g, m, x), Bin(g, x), Times(m, x), g.Boxes() + 1);
  }

  /** Sorting is a permutation. */
  lemma ResultPermutes(g: Geometry, m: seq<Particle>)
    requires g.Valid()
    ensures multiset(Result(g, m)) == multiset(m) && |Result(g, m)| == |m|
  {
    var r := Result(g, m);
    forall x ensures multiset(r)[x] == multiset(m)[x] {
      CountResult(g, m, x);
      TimesIs(r, x);
      TimesIs(m, x);
    }
    SameLength(Result(g, m), m);
  }

  function Offsets(g: Geometry, m: seq<Particle>): (off: seq<nat>)
    requires g.Valid()
    ensures |off| == g.Boxes() + 1 && forall b :: 0 <= b <= g.Boxes() ==> off[b] == |Below(g, m, b)|
  {
    seq(g.Boxes() + 1, b requires 0 <= b <= g.Boxes() => |Below(g, m, b)|)
  }

  lemma ResultBin(g: Geometry, m: seq<Particle>, i: nat)
    requires g.Valid() && i < |Result(g, m)|
    ensures var b := Bin(g, Result(g, m)[i]);
            0 <= b <= g.Boxes() && |Below(g, m, b)| <= i < |Below(g, m, b + 1)|
  {
    var b := BelowBin(g, m, i, g.Boxes() + 1);
  }

  lemma BelowBin(g: Geometry, m: seq<Particle>, i: nat, n: nat) returns (b: nat)
    requires g.edges != [] && i < |Below(g, m, n)|
    ensures b < n && Bin(g, Below(g, m, n)[i]) == b && |Below(g, m, b)| <= i < |Below(g, m, b + 1)|
  {
    b := FindBin(g, m, i, n);
    BelowValue(g, m, b, i - |Below(g, m, b)|, n);
    SelectBin(g, m, |m|, b, i - |Below(g, m, b)|);
  }

  lemma ResultGrouped(g: Geometry, m: seq<Particle>)
    requires g.Valid()
    ensures Grouped(g, Result(g, m), Offsets(g, m))
  {
    var s, off := Result(g, m), Offsets(g, m);
    BelowMore(g, m, g.Boxes(), g.Boxes() + 1);
    forall b, c | 0 <= b <= c < |off| ensures off[b] <= off[c] {
      BelowMore(g, m, b, c);
    }
    forall i | 0 <= i < |s|
      ensures var b := BoxOf(g, s[i]); if i < off[g.Boxes()] then b >= 0 && off[b] <= i < off[b + 1] else b == -1
    {
      ResultBin(g, m, i);
      if BoxOf(g, s[i]) >= 0 {
        SliceInDomain(g, s[i]);
        BelowMore(g, m, BoxOf(g, s[i]) + 1, g.Boxes());
      }
    }
  }

  /** Whatever the orders, the array is box sorted: a permutation of the marked particles, box b from off[b] on and
      the escaped particles last. */
  lemma ResultSorted(g: Geometry, a: seq<Particle>, order: seq<nat>)
    requires g.Valid() && Order(order, |a|) && forall j :: 0 <= j < |order| ==> order[j] < |a|
    ensures BoxSorted(g, a, Result(g, Visit(MarkAll(g, a), order)), Offsets(g, Visit(MarkAll(g, a), order)))
  {
    var m := Visit(MarkAll(g, a), order);
    ResultGrouped(g, m);
    ResultPermutes(g, m);
    VisitAll(MarkAll(g, a), order);
  }

  /** Every array can be box sorted. */
  lemma SortingExists(g: Geometry, a: seq<Particle>) returns (s: seq<Particle>, off: seq<nat>)
    requires g.Valid()
    ensures BoxSorted(g, a, s, off)
  {
    var m := Visit(MarkAll(g, a), Identity(|a|));
    s, off := Result(g, m), Offsets(g, m);
    ResultSorted(g, a, Identity(|a|));
  }

  // ---------------------------------------------------------------- the program

  lemma EscapedInvalid(g: Geometry, a: seq<Particle>, s: seq<Particle>, off: seq<nat>)
    requires g.Valid() && BoxSorted(g, a, s, off)
    ensures forall i :: off[g.Boxes()] <= i < |s| ==> s[i].id <= 0
  {
    forall i | off[g.Boxes()] <= i < |s| ensures s[i].id <= 0 { var j := EscapedEntry(g, a, s, off, i); }
  }

  /** A resizable array of beam particles. */
  class BeamTile {
    var particles: seq<Particle>
    constructor (a: seq<Particle>)
      ensures particles == a
    { particles := a; }
  }

  /** The bin counts after the first j arrivals. */
  ghost predicate CountsOk(g: Geometry, m: seq<Particle>, j: nat, counts: seq<nat>)
    requires g.Valid() && j <= |m|
  {
    |counts| == g.Boxes() + 1 && forall b :: 0 <= b < |counts| ==> counts[b] == |Select(g, m, j, b)|
  }

  /** The first j particles of the order have been visited: their places within their bins are known and the escaped
      ones among them are invalid. */
  ghost predicate PlacesOk(g: Geometry, a: seq<Particle>, order: seq<nat>, m: seq<Particle>, j: nat, now: seq<Particle>, dst: seq<nat>)
    requires g.Valid() && |order| == |m| == |a| && forall k :: 0 <= k < |order| ==> order[k] < |a|
  {
    && j <= |a| && |now| == |dst| == |a|
    && (forall k :: 0 <= k < j ==> now[order[k]] == m[k] && dst[order[k]] == |Select(g, m, k, Bin(g, m[k]))|)
    && (forall k :: j <= k < |a| ==> now[order[k]] == a[order[k]])
  }

  /** Sum of the first b counts. */
  function SumOf(counts: seq<nat>, b: nat): nat
    requires b <= |counts|
  {
    if b == 0 then 0 else SumOf(counts, b - 1) + counts[b - 1]
  }

  lemma {:induction false} SumIsBelow(g: Geometry, m: seq<Particle>, counts: seq<nat>, b: nat)
    requires g.Valid() && CountsOk(g, m, |m|, counts) && b <= |counts|
    ensures SumOf(counts, b) == |Below(g, m, b)|
  {
    if b > 0 {
      SumIsBelow(g, m, counts, b - 1);
    }
  }

  lemma MarkBin(g: Geometry, p: Particle)
    requires g.edges != []
    ensures Bin(g, Mark(g, p)) == Bin(g, p)
  {
  }

  lemma CountsNext(g: Geometry, m: seq<Particle>, j: nat, counts: seq<nat>)
    requires g.Valid() && j < |m| && CountsOk(g, m, j, counts)
    ensures 0 <= Bin(g, m[j]) < |counts|
    ensures CountsOk(g, m, j + 1, counts[Bin(g, m[j]) := counts[Bin(g, m[j])] + 1])
  {
    BinRange(g, m[j]);
  }

  lemma PlacesNext(g: Geometry, a: seq<Particle>, order: seq<nat>, m: seq<Particle>, j: nat, now: seq<Particle>, dst: seq<nat>)
    requires g.Valid() && Order(order, |a|) && |m| == |a| && (forall k :: 0 <= k < |order| ==> order[k] < |a|)
    requires j < |a| && PlacesOk(g, a, order, m, j, now, dst)
    ensures PlacesOk(g, a, order, m, j + 1, now[order[j] := m[j]], dst[order[j] := |Select(g, m, j, Bin(g, m[j]))|])
  {
    Distinct(order, |a|, j);
  }

  predicate Shifted(g: Geometry, p: Particle, offsets: seq<nat>, place: nat, dst: nat)
    requires g.edges != []
  {
    0 <= Bin(g, p) < |offsets| && dst == place + offsets[Bin(g, p)]
  }

  lemma ScanIsOffsets(g: Geometry, m: seq<Particle>, counts: seq<nat>, offsets: seq<nat>)
    requires g.Valid() && CountsOk(g, m, |m|, counts)
    requires |offsets| == |counts| && forall b :: 0 <= b < |counts| ==> offsets[b] == SumOf(counts, b)
    ensures offsets == Offsets(g, m)
  {
    forall b | 0 <= b < |counts| ensures offsets[b] == |Below(g, m, b)| { SumIsBelow(g, m, counts, b); }
  }

  lemma CountsFromOffsets(g: Geometry, m: seq<Particle>, counts: seq<nat>)
    requires g.Valid() && CountsOk(g, m, |m|, counts)
    ensures forall b :: 0 <= b < g.Boxes() ==> counts[b] == Offsets(g, m)[b + 1] - Offsets(g, m)[b]
    ensures counts[g.Boxes()] == |Result(g, m)| - Offsets(g, m)[g.Boxes()]
  {
    assert m[..|m|] == m;
  }

  /** The destinations are the slots of the sorted array: each slot once, and the right one. */
  lemma {:induction false} SlotsOk(g: Geometry, a: seq<Particle>, order: seq<nat>, m: seq<Particle>, now: seq<Particle>, places: seq<nat>,
                offsets: seq<nat>, dst: seq<nat>)
    requires g.Valid() && Order(order, |a|) && (forall k :: 0 <= k < |order| ==> order[k] < |a|) && |m| == |a|
    requires PlacesOk(g, a, order, m, |a|, now, places) && offsets == Offsets(g, m) && |dst| == |a|
    requires forall i :: 0 <= i < |dst| ==> Shifted(g, now[i], offsets, places[i], dst[i])
    ensures |Result(g, m)| == |a|
    ensures forall i :: 0 <= i < |dst| ==> dst[i] < |dst| && Result(g, m)[dst[i]] == now[i]
    ensures forall p :: 0 <= p < |dst| ==> p in dst
  {
    ResultPermutes(g, m);
    forall i | 0 <= i < |dst| ensures dst[i] < |dst| && Result(g, m)[dst[i]] == now[i] {
      var k := Covers(order, |a|, i);
      SlotOk(g, order, m, now, places, dst, k);
    }
    forall p | 0 <= p < |dst| ensures p in dst {
      var k := SlotTaken(g, m, p);
      SlotOk(g, order, m, now, places, dst, k);
    }
  }

  lemma SlotOk(g: Geometry, order: seq<nat>, m: seq<Particle>, now: seq<Particle>, places: seq<nat>, dst: seq<nat>, k: nat)
    requires g.Valid() && k < |order| && |order| == |m| == |now| == |dst| == |places| && order[k] < |m|
    requires now[order[k]] == m[k] && places[order[k]] == |Select(g, m, k, Bin(g, m[k]))|
    requires Shifted(g, now[order[k]], Offsets(g, m), places[order[k]], dst[order[k]])
    ensures dst[order[k]] == Slot(g, m, k) && Slot(g, m, k) < |Result(g, m)| && Result(g, m)[Slot(g, m, k)] == now[order[k]]
  {
    BinRange(g, m[k]);
    SlotValue(g, m, k);
  }

  /** The first j arrivals have been counted and placed. */
  ghost predicate KernelAt(g: Geometry, a: seq<Particle>, order: seq<nat>, j: nat, now: seq<Particle>, dst: seq<nat>, counts: seq<nat>)
    requires g.Valid() && |order| == |a| && j <= |a| && forall k :: 0 <= k < |order| ==> order[k] < |a|
  {
    var m := Visit(MarkAll(g, a), order);
    CountsOk(g, m, j, counts) && PlacesOk(g, a, order, m, j, now, dst)
  }

  function Zeros(n: nat): (z: seq<nat>)
    ensures |z| == n && forall i :: 0 <= i < n ==> z[i] == 0
  {
    seq(n, _ => 0)
  }

  lemma KernelStart(g: Geometry, a: seq<Particle>, order: seq<nat>, dst: seq<nat>, counts: seq<nat>)
    requires g.Valid() && |order| == |a| == |dst| && forall k :: 0 <= k < |order| ==> order[k] < |a|
    requires |counts| == g.Boxes() + 1 && forall b :: 0 <= b < |counts| ==> counts[b] == 0
    ensures KernelAt(g, a, order, 0, a, dst, counts)
  {
  }

  lemma KernelNext(g: Geometry, a: seq<Particle>, order: seq<nat>, j: nat, now: seq<Particle>, dst: seq<nat>, counts: seq<nat>)
    requires g.Valid() && Order(order, |a|) && j < |a| && (forall k :: 0 <= k < |order| ==> order[k] < |a|)
    requires KernelAt(g, a, order, j, now, dst, counts)
    ensures |now| == |dst| == |a| && Bin(g, now[order[j]]) < |counts|
    ensures var i, box := order[j], Bin(g, now[order[j]]);
            KernelAt(g, a, order, j + 1, now[i := Mark(g, now[i])], dst[i := counts[box]], counts[box := counts[box] + 1])
  {
    var m := Visit(MarkAll(g, a), order);
    MarkBin(g, a[order[j]]);
    CountsNext(g, m, j, counts);
    PlacesNext(g, a, order, m, j, now, dst);
  }

  class BoxSorter {
    /** Number of particles of every bin, the escape bin last, and index of the first one. */
    var counts: seq<nat>
    var offsets: seq<nat>

    constructor ()
      ensures counts == [] && offsets == []
    { counts, offsets := [], []; }

    /** The first kernel on one particle: take a place in the bin, invalidate an escaped particle. */
    method CountOne(beam: BeamTile, g: Geometry, i: nat, dst: seq<nat>) returns (r: seq<nat>)
      requires g.edges != [] && i < |beam.particles| == |dst| && Bin(g, beam.particles[i]) < |counts|
      modifies `counts, beam
      ensures beam.particles == old(beam.particles)[i := Mark(g, old(beam.particles)[i])]
      ensures var box := Bin(g, old(beam.particles)[i]); r == dst[i := old(counts)[box]] && counts == old(counts)[box := old(counts)[box] + 1]
    {
      var p := beam.particles[i];
      var box := BoxOf(g, p);
      if box < 0 {
        box := g.Boxes();
        beam.particles := beam.particles[i := p.(id := -Abs(p.id))];
      }
      r := dst[i := counts[box]];
      counts := counts[box := counts[box] + 1];
    }

    /** First kernel. */
    method CountKernel(beam: BeamTile, g: Geometry, order: seq<nat>) returns (dst: seq<nat>)
      requires g.Valid() && Order(order, |beam.particles|) && forall k :: 0 <= k < |order| ==> order[k] < |beam.particles|
      modifies `counts, beam
      ensures |beam.particles| == |order|
      ensures KernelAt(g, old(beam.particles), order, |order|, beam.particles, dst, counts)
    {
      ghost var a := beam.particles;
      counts, dst := Zeros(g.Boxes() + 1), Zeros(|beam.particles|);
      KernelStart(g, a, order, dst, counts);
      for j := 0 to |order|
        invariant |beam.particles| == |order| == |a| && KernelAt(g, a, order, j, beam.particles, dst, counts)
      {
        dst := CountNext(beam, g, order, j, dst, a);
      }
    }

    method CountNext(beam: BeamTile, g: Geometry, order: seq<nat>, j: nat, dst: seq<nat>, ghost a: seq<Particle>) returns (r: seq<nat>)
      requires g.Valid() && Order(order, |a|) && j < |a| && forall k :: 0 <= k < |order| ==> order[k] < |a|
      requires KernelAt(g, a, order, j, beam.particles, dst, counts)
      modifies `counts, beam
      ensures |beam.particles| == |a| && KernelAt(g, a, order, j + 1, beam.particles, r, counts)
    {
      KernelNext(g, a, order, j, beam.particles, dst, counts);
      r := CountOne(beam, g, order[j], dst);
    }

    /** exclusive_scan of the counts. */
    method Scan()
      modifies `offsets
      ensures |offsets| == |counts| && forall b :: 0 <= b < |counts| ==> offsets[b] == SumOf(counts, b)
    {
      var off, sum, b := [], 0, 0;
      while b < |counts|
        invariant b <= |counts| && |off| == b && sum == SumOf(counts, b)
        invariant forall c :: 0 <= c < b ==> off[c] == SumOf(counts, c)
      {
        off, sum, b := off + [sum], sum + counts[b], b + 1;
      }
      offsets := off;
    }

    /** Second kernel: from places within bins to places in the array. */
    method ShiftKernel(beam: BeamTile, g: Geometry, order: seq<nat>, places: seq<nat>) returns (dst: seq<nat>)
      requires g.Valid() && |places| == |beam.particles| && |offsets| == g.Boxes() + 1
      requires Order(order, |beam.particles|) && forall k :: 0 <= k < |order| ==> order[k] < |beam.particles|
      ensures |dst| == |places|
      ensures forall i :: 0 <= i < |dst| ==> Shifted(g, beam.particles[i], offsets, places[i], dst[i])
    {
      dst := places;
      var j := 0;
      while j < |order|
        invariant j <= |order| && |dst| == |places|
        invariant forall k :: 0 <= k < j ==> Shifted(g, beam.particles[order[k]], offsets, places[order[k]], dst[order[k]])
        invariant forall k :: j <= k < |order| ==> dst[order[k]] == places[order[k]]
      {
        Distinct(order, |order|, j);
        var i := order[j];
        BinRange(g, beam.particles[i]);
        var box := BoxOf(g, beam.particles[i]);
        if box < 0 { box := g.Boxes(); }
        dst := dst[i := dst[i] + offsets[box]];
        j := j + 1;
      }
      forall i | 0 <= i < |dst| ensures Shifted(g, beam.particles[i], offsets, places[i], dst[i]) {
        var k := Covers(order, |order|, i);
      }
    }

    /** scatterParticles into a new array, then swap. */
    method ScatterKernel(beam: BeamTile, dst: seq<nat>, order: seq<nat>, ghost result: seq<Particle>)
      requires |dst| == |beam.particles| == |result|
      requires Order(order, |dst|) && forall k :: 0 <= k < |order| ==> order[k] < |dst|
      requires forall i :: 0 <= i < |dst| ==> dst[i] < |dst| && result[dst[i]] == beam.particles[i]
      requires forall p :: 0 <= p < |result| ==> p in dst
      modifies beam
      ensures beam.particles == result
    {
      var tmp, j := beam.particles, 0;
      while j < |order|
        invariant j <= |order| && |tmp| == |dst|
        invariant forall k :: 0 <= k < j ==> tmp[dst[order[k]]] == result[dst[order[k]]]
      {
        tmp := tmp[dst[order[j]] := beam.particles[order[j]]];
        j := j + 1;
      }
      forall p | 0 <= p < |result| ensures tmp[p] == result[p] {
        assert p in dst;
        var i :| 0 <= i < |dst| && dst[i] == p;
        var k := Covers(order, |order|, i);
      }
      beam.particles := tmp;
    }

    /** sortParticlesByBox: whatever order each kernel runs in, the particles end up box sorted, `counts` holds the number
        of particles of each bin and `offsets` where it starts. */
    method SortParticlesByBox(beam: BeamTile, g: Geometry, order1: seq<nat>, order2: seq<nat>, order3: seq<nat>)
      requires g.Valid()
      requires Order(order1, |beam.particles|) && Order(order2, |beam.particles|) && Order(order3, |beam.particles|)
      modifies this, beam
      ensures BoxSorted(g, old(beam.particles), beam.particles, offsets)
      ensures |counts| == g.Boxes() + 1
      ensures forall b :: 0 <= b < g.Boxes() ==> counts[b] == offsets[b + 1] - offsets[b]
      ensures counts[g.Boxes()] == |beam.particles| - offsets[g.Boxes()]
      ensures forall i :: offsets[g.Boxes()] <= i < |beam.particles| ==> beam.particles[i].id <= 0
    {
      ghost var a := beam.particles;
      InRange(order1, |a|);
      InRange(order2, |a|);
      InRange(order3, |a|);
      ghost var m := Visit(MarkAll(g, a), order1);
      var places := CountKernel(beam, g, order1);
      Scan();
      ScanIsOffsets(g, m, counts, offsets);
      var dst := ShiftKernel(beam, g, order2, places);
      SlotsOk(g, a, order1, m, beam.particles, places, offsets, dst);
      ScatterKernel(beam, dst, order3, Result(g, m));
      ResultSorted(g, a, order1);
      CountsFromOffsets(g, m, counts);
      EscapedInvalid(g, a, beam.particles, offsets);
    }

    /** The lowest box with particles; the last of n when none has any. */
    method LeftmostBoxWithParticles(n: nat) returns (boxid: nat)
      requires 0 < n < |counts|
      ensures boxid < n && forall b :: 0 <= b < boxid ==> counts[b] == 0
      ensures boxid < n - 1 ==> counts[boxid] > 0
    {
      boxid := 0;
      while counts[boxid] == 0 && boxid < n - 1
        invariant boxid < n && forall b :: 0 <= b < boxid ==> counts[b] == 0
      {
        boxid := boxid + 1;
      }
    }
  }
}
