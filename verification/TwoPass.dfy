/** The two passes of the particle injection over the cells of a box, each in any order of the cells. */
module TwoPass {
  import opened Arith
  import opened Injection

  datatype Vec = Vec(x: real, y: real, z: real)

  datatype Grid = Grid(box: TileBox, ppc: Spacing, plo: Vec, dx: Vec)
  {
    ghost predicate Valid() { box.Valid() && ppc.Valid() && dx.x > 0.0 && dx.y > 0.0 && dx.z > 0.0 }
  }

  datatype Particle = Particle(id: int, pos: Vec)

  function Axis(lo: real, i: int, r: real, d: real): real { lo + (i as real + r) * d }

  /** Place n of cell c. */
  function Place(g: Grid, c: Cell, n: int): Vec
    requires g.ppc.Valid()
  {
    Vec(Axis(g.plo.x, c.i, Even(Ix(g.ppc, n), g.ppc.nx), g.dx.x),
        Axis(g.plo.y, c.j, Even(Iy(g.ppc, n), g.ppc.ny), g.dx.y),
        Axis(g.plo.z, c.k, Even(Iz(g.ppc, n), g.ppc.nz), g.dx.z))
  }

  lemma Cancel(a: real, b: real, d: real)
    requires d > 0.0 && a * d == b * d
    ensures a == b
  {
    if a < b { MulLt(a, b, d); } else if b < a { MulLt(b, a, d); }
  }

  lemma SameAxis(lo: real, i: int, r: real, j: int, s: real, d: real)
    requires d > 0.0 && 0.0 < r < 1.0 && 0.0 < s < 1.0 && Axis(lo, i, r, d) == Axis(lo, j, s, d)
    ensures i == j && r == s
  {
    Cancel(i as real + r, j as real + s, d);
  }

  /** No two places of the box coincide. */
  lemma OnePlaceEach(g: Grid, c: Cell, m: int, d: Cell, n: int)
    requires g.Valid() && 0 <= m < g.ppc.Num() && 0 <= n < g.ppc.Num() && Place(g, c, m) == Place(g, d, n)
    ensures c == d && m == n
  {
    PlacesDiffer(g.ppc, m, m);
    PlacesDiffer(g.ppc, m, n);
    SameAxis(g.plo.x, c.i, Even(Ix(g.ppc, m), g.ppc.nx), d.i, Even(Ix(g.ppc, n), g.ppc.nx), g.dx.x);
    SameAxis(g.plo.y, c.j, Even(Iy(g.ppc, m), g.ppc.ny), d.j, Even(Iy(g.ppc, n), g.ppc.ny), g.dx.y);
    SameAxis(g.plo.z, c.k, Even(Iz(g.ppc, m), g.ppc.nz), d.k, Even(Iz(g.ppc, n), g.ppc.nz), g.dx.z);
  }

  /** v is inside cell c, in the middle of place n of the cell's lattice. */
  ghost predicate InCellAt(g: Grid, c: Cell, n: int, v: Vec)
    requires g.Valid()
  {
    PlacedAt(g.ppc, (v.x - g.plo.x) / g.dx.x - c.i as real, (v.y - g.plo.y) / g.dx.y - c.j as real, (v.z - g.plo.z) / g.dx.z - c.k as real, n)
  }

  /** Place n of cell c is the one position inside that cell whose lattice place is n. */
  lemma PlaceInCell(g: Grid, c: Cell, n: int, v: Vec)
    requires g.Valid() && 0 <= n < g.ppc.Num()
    ensures v == Place(g, c, n) <==> InCellAt(g, c, n, v)
  {
    EvenPlaced(g.ppc, n);
    AxisIff(g.plo.x, c.i, Even(Ix(g.ppc, n), g.ppc.nx), g.dx.x, v.x);
    AxisIff(g.plo.y, c.j, Even(Iy(g.ppc, n), g.ppc.ny), g.dx.y, v.y);
    AxisIff(g.plo.z, c.k, Even(Iz(g.ppc, n), g.ppc.nz), g.dx.z, v.z);
    if InCellAt(g, c, n, v) {
      PlacedEven(g.ppc, (v.x - g.plo.x) / g.dx.x - c.i as real, (v.y - g.plo.y) / g.dx.y - c.j as real, (v.z - g.plo.z) / g.dx.z - c.k as real, n);
    }
  }

  lemma AxisIff(lo: real, i: int, r: real, d: real, x: real)
    requires d > 0.0
    ensures x == Axis(lo, i, r, d) <==> (x - lo) / d - i as real == r
  {
    var q := (x - lo) / d;
    assert q * d == x - lo;
    if x == Axis(lo, i, r, d) { Cancel(q, i as real + r, d); }
  }

  // ---------------------------------------------------------------- which places are taken

  /** The kept places among the first n of cell c. */
  function CellPlaces(g: Grid, keep: Vec -> bool, c: Cell, n: nat): seq<Vec>
    requires g.ppc.Valid()
  {
    if n == 0 then []
    else if keep(Place(g, c, n - 1)) then CellPlaces(g, keep, c, n - 1) + [Place(g, c, n - 1)]
    else CellPlaces(g, keep, c, n - 1)
  }

  function PerCell(g: Grid): nat requires g.ppc.Valid() { if g.ppc.Num() > 0 then g.ppc.Num() else 0 }

  function Kept(g: Grid, keep: Vec -> bool, id: nat): seq<Vec> requires g.Valid() {
    CellPlaces(g, keep, CellOf(g.box, id), PerCell(g))
  }

  /** The kept places of the cells with ids below n. */
  function Places(g: Grid, keep: Vec -> bool, n: nat): seq<Vec>
    requires g.Valid()
  {
    if n == 0 then [] else Places(g, keep, n - 1) + Kept(g, keep, n - 1)
  }

  lemma {:induction false} InCell(g: Grid, keep: Vec -> bool, c: Cell, n: nat, v: Vec)
    requires g.ppc.Valid()
    ensures v in CellPlaces(g, keep, c, n) <==> keep(v) && exists m :: 0 <= m < n && v == Place(g, c, m)
  {
    if n > 0 { InCell(g, keep, c, n - 1, v); }
  }

  ghost predicate TakenBelow(g: Grid, keep: Vec -> bool, n: nat, v: Vec) requires g.Valid() {
    keep(v) && exists id: nat, m :: id < n && 0 <= m < PerCell(g) && v == Place(g, CellOf(g.box, id), m)
  }

  lemma {:induction false} InPlaces(g: Grid, keep: Vec -> bool, n: nat, v: Vec)
    requires g.Valid()
    ensures v in Places(g, keep, n) <==> TakenBelow(g, keep, n, v)
  {
    if n > 0 {
      InPlaces(g, keep, n - 1, v);
      InCell(g, keep, CellOf(g.box, n - 1), PerCell(g), v);
    }
  }

  ghost predicate NoRepeat<T>(s: seq<T>) { forall i, j :: 0 <= i < j < |s| ==> s[i] != s[j] }

  lemma NoRepeatJoin<T>(s: seq<T>, t: seq<T>)
    requires NoRepeat(s) && NoRepeat(t) && forall x :: x in s ==> x !in t
    ensures NoRepeat(s + t)
  {
    forall i, j | 0 <= i < j < |s + t| ensures (s + t)[i] != (s + t)[j] {
      if i < |s| <= j { assert s[i] in s && t[j - |s|] in t; }
    }
  }

  lemma {:induction false} CellNoRepeat(g: Grid, keep: Vec -> bool, c: Cell, n: nat)
    requires g.Valid() && n <= PerCell(g)
    ensures NoRepeat(CellPlaces(g, keep, c, n))
  {
    if n > 0 {
      CellNoRepeat(g, keep, c, n - 1);
      var v := Place(g, c, n - 1);
      InCell(g, keep, c, n - 1, v);
      forall m | 0 <= m < n - 1 ensures v != Place(g, c, m) {
        if v == Place(g, c, m) { OnePlaceEach(g, c, m, c, n - 1); }
      }
    }
  }

  lemma {:induction false} PlacesNoRepeat(g: Grid, keep: Vec -> bool, n: nat)
    requires g.Valid() && n <= g.box.NumPts()
    ensures NoRepeat(Places(g, keep, n))
  {
    if n > 0 {
      PlacesNoRepeat(g, keep, n - 1);
      CellNoRepeat(g, keep, CellOf(g.box, n - 1), PerCell(g));
      var before, here := Places(g, keep, n - 1), Kept(g, keep, n - 1);
      forall v | v in before ensures v !in here { NotInBoth(g, keep, n, v); }
      NoRepeatJoin(Places(g, keep, n - 1), Kept(g, keep, n - 1));
    }
  }

  lemma NotInBoth(g: Grid, keep: Vec -> bool, n: nat, v: Vec)
    requires g.Valid() && 0 < n <= g.box.NumPts() && v in Places(g, keep, n - 1)
    ensures v !in Kept(g, keep, n - 1)
  {
    InPlaces(g, keep, n - 1, v);
    var id: nat, m :| id < n - 1 && 0 <= m < PerCell(g) && v == Place(g, CellOf(g.box, id), m);
    InCell(g, keep, CellOf(g.box, n - 1), PerCell(g), v);
    var c := CellOf(g.box, n - 1);
    forall k | 0 <= k < PerCell(g) ensures v != Place(g, c, k) { Apart(g, id, m, n - 1, k); }
  }

  lemma Apart(g: Grid, a: nat, m: int, b: nat, k: int)
    requires g.Valid() && a < b < g.box.NumPts() && 0 <= m < PerCell(g) && 0 <= k < PerCell(g)
    ensures Place(g, CellOf(g.box, a), m) != Place(g, CellOf(g.box, b), k)
  {
    CellOfBijective(g.box, a);
    CellOfBijective(g.box, b);
    if Place(g, CellOf(g.box, a), m) == Place(g, CellOf(g.box, b), k) {
      OnePlaceEach(g, CellOf(g.box, a), m, CellOf(g.box, b), k);
    }
  }

  /** A kept place of a cell of the box. */
  ghost predicate Taken(g: Grid, keep: Vec -> bool, v: Vec) requires g.Valid() {
    keep(v) && exists c, m :: g.box.Contains(c) && 0 <= m < g.ppc.Num() && v == Place(g, c, m)
  }

  /** Every kept place of the box is listed exactly once. */
  lemma PlacesExact(g: Grid, keep: Vec -> bool)
    requires g.Valid()
    ensures NoRepeat(Places(g, keep, g.box.NumPts()))
    ensures forall v :: v in Places(g, keep, g.box.NumPts()) <==> Taken(g, keep, v)
  {
    var n := g.box.NumPts();
    PlacesNoRepeat(g, keep, n);
    forall v ensures v in Places(g, keep, n) <==> Taken(g, keep, v) {
      InPlaces(g, keep, n, v);
      if TakenBelow(g, keep, n, v) {
        var id: nat, m :| id < n && 0 <= m < PerCell(g) && v == Place(g, CellOf(g.box, id), m);
        CellOfBijective(g.box, id);
      }
      if Taken(g, keep, v) {
        var c, m :| g.box.Contains(c) && 0 <= m < g.ppc.Num() && v == Place(g, c, m);
        CellIdBijective(g.box, c);
        assert v == Place(g, CellOf(g.box, CellId(g.box, c)), m);
      }
    }
  }

  // ---------------------------------------------------------------- the passes

  /** A parallel loop over the cells of a box, in some order. */
  ghost predicate Sweep(box: TileBox, order: seq<Cell>) {
    && (forall a :: 0 <= a < |order| ==> box.Contains(order[a]))
    && (forall c :: box.Contains(c) ==> c in order)
    && NoRepeat(order)
  }

  lemma SweepStep(box: TileBox, order: seq<Cell>, a: nat, id: nat)
    requires box.Valid() && Sweep(box, order) && a < |order| && id < box.NumPts()
    ensures CellOf(box, id) in order[..a + 1] <==> CellOf(box, id) in order[..a] || id == CellId(box, order[a])
    ensures id == CellId(box, order[a]) ==> CellOf(box, id) !in order[..a]
  {
    CellIdBijective(box, order[a]);
    CellOfBijective(box, id);
    assert order[..a + 1] == order[..a] + [order[a]];
  }

  method PlaceOf(g: Grid, c: Cell, n: int) returns (v: Vec)
    requires g.Valid() && 0 <= n < g.ppc.Num()
    ensures v == Place(g, c, n)
  {
    var r := new real[3];
    GetPositionUnitCell(r, g.ppc, n);
    PlacedEven(g.ppc, r[0], r[1], r[2], n);
    var x := g.plo.x + (c.i as real + r[0]) * g.dx.x;
    var y := g.plo.y + (c.j as real + r[1]) * g.dx.y;
    var z := g.plo.z + (c.k as real + r[2]) * g.dx.z;
    v := Vec(x, y, z);
  }

  /** First pass, one cell. */
  method CountCell(g: Grid, keep: Vec -> bool, c: Cell, pcount: array<nat>)
    requires g.Valid() && g.box.Contains(c) && pcount.Length == g.box.NumPts()
    modifies pcount
    ensures forall id :: 0 <= id < pcount.Length ==>
              pcount[id] == old(pcount[id]) + if id == CellId(g.box, c) then |CellPlaces(g, keep, c, PerCell(g))| else 0
  {
    CellIdBijective(g.box, c);
    var cellid := CellId(g.box, c);
    for n := 0 to PerCell(g)
      invariant forall id :: 0 <= id < pcount.Length ==>
        pcount[id] == old(pcount[id]) + if id == cellid then |CellPlaces(g, keep, c, n)| else 0
    {
      var v := PlaceOf(g, c, n);
      if keep(v) { pcount[cellid] := pcount[cellid] + 1; }
    }
  }

  ghost predicate Counted(g: Grid, keep: Vec -> bool, counts: seq<nat>) requires g.Valid() {
    |counts| == g.box.NumPts() && forall id: nat :: id < |counts| ==> counts[id] == |Kept(g, keep, id)|
  }

  /** First pass. */
  method Count(g: Grid, keep: Vec -> bool, order: seq<Cell>) returns (pcount: array<nat>)
    requires g.Valid() && Sweep(g.box, order)
    ensures fresh(pcount) && Counted(g, keep, pcount[..])
  {
    pcount := new nat[g.box.NumPts()](_ => 0);
    for a := 0 to |order|
      invariant forall id :: 0 <= id < pcount.Length ==>
        pcount[id] == if CellOf(g.box, id) in order[..a] then |Kept(g, keep, id)| else 0
    {
      forall id | 0 <= id < pcount.Length
        ensures CellOf(g.box, id) in order[..a + 1] <==> CellOf(g.box, id) in order[..a] || id == CellId(g.box, order[a])
        ensures id == CellId(g.box, order[a]) ==> CellOf(g.box, id) !in order[..a] && CellOf(g.box, id) == order[a]
      {
        SweepStep(g.box, order, a, id);
        CellIdBijective(g.box, order[a]);
      }
      CountCell(g, keep, order[a], pcount);
    }
    forall id | 0 <= id < pcount.Length ensures pcount[id] == |Kept(g, keep, id)| {
      CellOfBijective(g.box, id);
      assert CellOf(g.box, id) in order[..|order|];
    }
  }

  function SumTo(counts: seq<nat>, n: nat): nat
    requires n <= |counts|
  {
    if n == 0 then 0 else SumTo(counts, n - 1) + counts[n - 1]
  }

  method ExclusiveSum(counts: array<nat>, offsets: array<nat>) returns (total: nat)
    requires counts != offsets && counts.Length == offsets.Length
    modifies offsets
    ensures total == SumTo(counts[..], counts.Length)
    ensures forall n :: 0 <= n < offsets.Length ==> offsets[n] == SumTo(counts[..], n)
  {
    total := 0;
    for n := 0 to counts.Length
      invariant total == SumTo(counts[..], n)
      invariant forall k :: 0 <= k < n ==> offsets[k] == SumTo(counts[..], k)
    {
      offsets[n] := total;
      total := total + counts[n];
    }
  }

  lemma {:induction false} SumIsPlaces(g: Grid, keep: Vec -> bool, counts: seq<nat>, n: nat)
    requires g.Valid() && Counted(g, keep, counts) && n <= |counts|
    ensures SumTo(counts, n) == |Places(g, keep, n)|
  {
    if n > 0 { SumIsPlaces(g, keep, counts, n - 1); }
  }

  // ---------------------------------------------------------------- slots

  lemma {:induction false} CellPrefix(g: Grid, keep: Vec -> bool, c: Cell, n: nat, m: nat)
    requires g.Valid() && n <= m
    ensures CellPlaces(g, keep, c, n) <= CellPlaces(g, keep, c, m)
  {
    if n < m { CellPrefix(g, keep, c, n, m - 1); }
  }

  lemma {:induction false} PlacesPrefix(g: Grid, keep: Vec -> bool, n: nat, m: nat)
    requires g.Valid() && n <= m
    ensures Places(g, keep, n) <= Places(g, keep, m)
  {
    if n < m { PlacesPrefix(g, keep, n, m - 1); }
  }

  /** The id of the cell that slot s belongs to. */
  ghost function Home(g: Grid, keep: Vec -> bool, n: nat, s: nat): nat
    requires g.Valid()
  {
    if n == 0 then 0 else if s >= |Places(g, keep, n - 1)| then n - 1 else Home(g, keep, n - 1, s)
  }

  lemma {:induction false} HomeIs(g: Grid, keep: Vec -> bool, n: nat, s: nat, id: nat)
    requires g.Valid() && s < |Places(g, keep, n)| && id < n
    ensures Home(g, keep, n, s) < n
    ensures Home(g, keep, n, s) == id <==> |Places(g, keep, id)| <= s < |Places(g, keep, id)| + |Kept(g, keep, id)|
    ensures Home(g, keep, n, s) == id ==> Kept(g, keep, id)[s - |Places(g, keep, id)|] == Places(g, keep, n)[s]
  {
    PlacesPrefix(g, keep, id + 1, n);
    if s >= |Places(g, keep, n - 1)| {
      if id < n - 1 { PlacesPrefix(g, keep, id + 1, n - 1); }
    } else if id < n - 1 {
      HomeIs(g, keep, n - 1, s, id);
    } else {
      HomeIs(g, keep, n - 1, s, 0);
    }
  }

  function Numbered(pid: int, s: int, v: Vec): Particle { Particle(pid + s, v) }

  /** The given places have been entered from slot `first` on, and no other slot has changed. */
  ghost predicate Entered(was: seq<Particle>, now: seq<Particle>, pid: int, first: nat, places: seq<Vec>) {
    |now| == |was| && forall s :: 0 <= s < |now| ==> now[s] == Entry(was, pid, first, places, s)
  }

  ghost function Entry(was: seq<Particle>, pid: int, first: nat, places: seq<Vec>, s: nat): Particle
    requires s < |was|
  {
    if first <= s < first + |places| then Numbered(pid, s, places[s - first]) else was[s]
  }

  /** Second pass, one cell: fills the slots from `first` on. */
  method FillCell(g: Grid, keep: Vec -> bool, c: Cell, pid: int, first: nat, pstruct: array<Particle>)
    requires g.Valid() && first + |CellPlaces(g, keep, c, PerCell(g))| <= pstruct.Length
    modifies pstruct
    ensures Entered(old(pstruct[..]), pstruct[..], pid, first, CellPlaces(g, keep, c, PerCell(g)))
  {
    var pidx := first;
    for n := 0 to PerCell(g)
      invariant pidx == first + |CellPlaces(g, keep, c, n)|
      invariant Entered(old(pstruct[..]), pstruct[..], pid, first, CellPlaces(g, keep, c, n))
    {
      CellPrefix(g, keep, c, n + 1, PerCell(g));
      var v := PlaceOf(g, c, n);
      if keep(v) {
        ghost var before := pstruct[..];
        pstruct[pidx] := Particle(pid + pidx, v);
        EnterOne(old(pstruct[..]), before, pid, first, CellPlaces(g, keep, c, n), v);
        assert pstruct[..] == before[pidx := Numbered(pid, pidx, v)];
        pidx := pidx + 1;
      }
    }
  }

  lemma EnterOne(was: seq<Particle>, now: seq<Particle>, pid: int, first: nat, places: seq<Vec>, v: Vec)
    requires Entered(was, now, pid, first, places) && first + |places| < |was|
    ensures var s := first + |places|; Entered(was, now[s := Numbered(pid, s, v)], pid, first, places + [v])
  {
    var k := first + |places|;
    var next := now[k := Numbered(pid, k, v)];
    forall s | 0 <= s < |next| ensures next[s] == Entry(was, pid, first, places + [v], s) {
      if s != k { assert now[s] == Entry(was, pid, first, places, s); }
    }
  }

  /** Slot s belongs to one of the first a cells of the order. */
  ghost predicate Done(g: Grid, keep: Vec -> bool, order: seq<Cell>, a: nat, s: nat)
    requires g.Valid() && a <= |order|
  {
    s < |Places(g, keep, g.box.NumPts())| && CellOf(g.box, Home(g, keep, g.box.NumPts(), s)) in order[..a]
  }

  ghost function SlotAfter(g: Grid, keep: Vec -> bool, order: seq<Cell>, a: nat, pid: int, was: seq<Particle>, s: nat): Particle
    requires g.Valid() && a <= |order| && s < |was|
  {
    if Done(g, keep, order, a, s) then Numbered(pid, s, Places(g, keep, g.box.NumPts())[s]) else was[s]
  }

  ghost predicate FilledSoFar(g: Grid, keep: Vec -> bool, order: seq<Cell>, a: nat, pid: int, was: seq<Particle>, now: seq<Particle>)
    requires g.Valid() && a <= |order|
  {
    |now| == |was| && forall s :: 0 <= s < |now| ==> now[s] == SlotAfter(g, keep, order, a, pid, was, s)
  }

  /** Slot s is done after the next cell iff it was done before or is one of that cell's slots. */
  lemma SlotStep(g: Grid, keep: Vec -> bool, order: seq<Cell>, a: nat, pid: int, was: seq<Particle>, now: seq<Particle>, id: nat, s: nat)
    requires g.Valid() && Sweep(g.box, order) && a < |order|
    requires id == CellId(g.box, order[a]) && s < |was| == |now| && now[s] == SlotAfter(g, keep, order, a, pid, was, s)
    ensures Entry(now, pid, |Places(g, keep, id)|, Kept(g, keep, id), s) == SlotAfter(g, keep, order, a + 1, pid, was, s)
  {
    var n := g.box.NumPts();
    CellIdBijective(g.box, order[a]);
    PlacesPrefix(g, keep, id + 1, n);
    if s < |Places(g, keep, n)| {
      HomeIs(g, keep, n, s, id);
      SweepStep(g.box, order, a, Home(g, keep, n, s));
    }
  }

  lemma FilledStep(g: Grid, keep: Vec -> bool, order: seq<Cell>, a: nat, pid: int, was: seq<Particle>, now: seq<Particle>, next: seq<Particle>, id: nat)
    requires g.Valid() && Sweep(g.box, order) && a < |order| && id == CellId(g.box, order[a])
    requires FilledSoFar(g, keep, order, a, pid, was, now)
    requires Entered(now, next, pid, |Places(g, keep, id)|, Kept(g, keep, id))
    ensures FilledSoFar(g, keep, order, a + 1, pid, was, next)
  {
    forall s | 0 <= s < |next| ensures next[s] == SlotAfter(g, keep, order, a + 1, pid, was, s) {
      SlotStep(g, keep, order, a, pid, was, now, id, s);
      assert next[s] == Entry(now, pid, |Places(g, keep, id)|, Kept(g, keep, id), s);
    }
  }

  lemma AllFilled(g: Grid, keep: Vec -> bool, order: seq<Cell>, pid: int, was: seq<Particle>, now: seq<Particle>)
    requires g.Valid() && Sweep(g.box, order) && |Places(g, keep, g.box.NumPts())| <= |was|
    requires FilledSoFar(g, keep, order, |order|, pid, was, now)
    ensures Entered(was, now, pid, 0, Places(g, keep, g.box.NumPts()))
  {
    var n := g.box.NumPts();
    forall s | 0 <= s < |now| ensures now[s] == Entry(was, pid, 0, Places(g, keep, n), s) {
      assert now[s] == SlotAfter(g, keep, order, |order|, pid, was, s);
      if s < |Places(g, keep, n)| {
        HomeIs(g, keep, n, s, 0);
        CellOfBijective(g.box, Home(g, keep, n, s));
        assert order[..|order|] == order;
      }
    }
  }

  /** Second pass. */
  method Fill(g: Grid, keep: Vec -> bool, order: seq<Cell>, pid: int, offsets: array<nat>, pstruct: array<Particle>)
    requires g.Valid() && Sweep(g.box, order) && offsets.Length == g.box.NumPts()
    requires forall id: nat :: id < offsets.Length ==> offsets[id] == |Places(g, keep, id)|
    requires |Places(g, keep, offsets.Length)| <= pstruct.Length
    modifies pstruct
    ensures Entered(old(pstruct[..]), pstruct[..], pid, 0, Places(g, keep, offsets.Length))
  {
    ghost var was := pstruct[..];
    for a := 0 to |order|
      invariant FilledSoFar(g, keep, order, a, pid, was, pstruct[..])
    {
      CellIdBijective(g.box, order[a]);
      var cellid := CellId(g.box, order[a]);
      var pidx := offsets[cellid] - offsets[0];
      ghost var now := pstruct[..];
      PlacesPrefix(g, keep, cellid + 1, offsets.Length);
      FillCell(g, keep, order[a], pid, pidx, pstruct);
      FilledStep(g, keep, order, a, pid, was, now, pstruct[..], cellid);
    }
    AllFilled(g, keep, order, pid, was, pstruct[..]);
  }

  // ---------------------------------------------------------------- the container

  /** What InitParticles makes of the particles of a tile: the new ones take the slots from 0 on. */
  ghost predicate Injected(g: Grid, keep: Vec -> bool, pid: int, was: seq<Particle>, now: seq<Particle>) requires g.Valid() {
    var all := Places(g, keep, g.box.NumPts());
    && |now| == |was| + |all|
    && (forall s :: 0 <= s < |all| ==> now[s] == Numbered(pid, s, all[s]))
    && (forall s :: |all| <= s < |was| ==> now[s] == was[s])
  }

  class ParticleTile {
    var pstruct: array<Particle>
    var nextId: int
    var initNumPar: int

    constructor ()
      ensures fresh(pstruct) && pstruct.Length == 0
    {
      pstruct := new Particle[0];
      nextId, initNumPar := 1, 0;
    }

    method Resize(n: nat)
      requires pstruct.Length <= n
      modifies this`pstruct
      ensures fresh(pstruct) && pstruct.Length == n && pstruct[..old(pstruct.Length)] == old(pstruct[..])
    {
      var a := new Particle[n];
      forall s | 0 <= s < pstruct.Length { a[s] := pstruct[s]; }
      pstruct := a;
    }

    /** Count, sum, resize, number, fill. */
    method InitParticles(g: Grid, keep: Vec -> bool, order1: seq<Cell>, order2: seq<Cell>)
      requires g.Valid() && Sweep(g.box, order1) && Sweep(g.box, order2)
      modifies this
      ensures Injected(g, keep, old(nextId), old(pstruct[..]), pstruct[..])
      ensures initNumPar == pstruct.Length && nextId == old(nextId) + pstruct.Length - old(pstruct.Length)
    {
      var counts := Count(g, keep, order1);
      var offsets := new nat[counts.Length];
      var numToAdd := ExclusiveSum(counts, offsets);
      forall id: nat | id <= counts.Length ensures SumTo(counts[..], id) == |Places(g, keep, id)| {
        SumIsPlaces(g, keep, counts[..], id);
      }
      Resize(pstruct.Length + numToAdd);
      initNumPar := pstruct.Length;
      if numToAdd == 0 { return; }
      var pid := nextId;
      nextId := pid + numToAdd;
      Fill(g, keep, order2, pid, offsets, pstruct);
    }
  }

  /** The numbering has no repeats, and below it lie all ids given before. */
  lemma AddsIff(g: Grid, keep: Vec -> bool, pid: int, was: seq<Particle>, now: seq<Particle>)
    requires g.Valid() && Injected(g, keep, pid, was, now) && forall p :: p in was ==> p.id < pid
    ensures was <= now <==> was == [] || Places(g, keep, g.box.NumPts()) == []
  {
    if was != [] && Places(g, keep, g.box.NumPts()) != [] {
      assert was[0] in was && now[0].id == pid;
    }
  }

  /** One cell with one place. */
  function OneCell(): Grid { Grid(TileBox(Cell(0, 0, 0), Cell(0, 0, 0)), Spacing(1, 1, 1), Vec(0.0, 0.0, 0.0), Vec(1.0, 1.0, 1.0)) }

  function KeepAll(): Vec -> bool { (v: Vec) => true }

  lemma OnePlace()
    ensures OneCell().Valid() && OneCell().box.NumPts() == 1 && |Places(OneCell(), KeepAll(), 1)| == 1
  {
    OneEach(OneCell(), KeepAll(), CellOf(OneCell().box, 0));
  }

  lemma OneEach(g: Grid, keep: Vec -> bool, c: Cell)
    requires g.Valid() && PerCell(g) == 1 && keep(Place(g, c, 0)) && c == CellOf(g.box, 0)
    ensures |Places(g, keep, 1)| == 1
  {
    assert CellPlaces(g, keep, c, 0) == [] && CellPlaces(g, keep, c, 1) == [] + [Place(g, c, 0)];
    assert Places(g, keep, 0) == [] && Kept(g, keep, 0) == CellPlaces(g, keep, c, 1);
  }

  /** A tile with one particle: injecting another one overwrites it. */
  lemma OverwritesFirst(p: Particle, now: seq<Particle>)
    requires p.id == 1 && OneCell().Valid() && Injected(OneCell(), KeepAll(), 2, [p], now)
    ensures |now| == 2 && now[0].id == 2 && !([p] <= now)
  {
    OnePlace();
    AddsIff(OneCell(), KeepAll(), 2, [p], now);
  }

  /** v is strictly inside cell c of the grid. */
  ghost predicate StrictlyIn(g: Grid, c: Cell, v: Vec) {
    && g.plo.x + c.i as real * g.dx.x < v.x < g.plo.x + (c.i + 1) as real * g.dx.x
    && g.plo.y + c.j as real * g.dx.y < v.y < g.plo.y + (c.j + 1) as real * g.dx.y
    && g.plo.z + c.k as real * g.dx.z < v.z < g.plo.z + (c.k + 1) as real * g.dx.z
  }

  lemma AxisInside(lo: real, i: int, d: real, x: real)
    requires d > 0.0 && 0.0 < (x - lo) / d - i as real < 1.0
    ensures lo + i as real * d < x < lo + (i + 1) as real * d
  {
    var q := (x - lo) / d;
    assert q * d == x - lo;
    Between(lo, x, d, q, i as real, (i + 1) as real);
  }

  lemma Between(lo: real, x: real, d: real, q: real, a: real, b: real)
    requires d > 0.0 && q * d == x - lo && a < q < b
    ensures lo + a * d < x < lo + b * d
  {
    MulLt(a, q, d);
    MulLt(q, b, d);
  }

  /** v is between the faces of cell c, in cells. */
  ghost predicate BetweenFaces(g: Grid, c: Cell, v: Vec)
    requires g.Valid()
  {
    && 0.0 < (v.x - g.plo.x) / g.dx.x - c.i as real < 1.0
    && 0.0 < (v.y - g.plo.y) / g.dx.y - c.j as real < 1.0
    && 0.0 < (v.z - g.plo.z) / g.dx.z - c.k as real < 1.0
  }

  lemma InCellBetween(g: Grid, c: Cell, n: int, v: Vec)
    requires g.Valid() && InCellAt(g, c, n, v)
    ensures BetweenFaces(g, c, v)
  {
  }

  lemma BetweenInside(g: Grid, c: Cell, v: Vec)
    requires g.Valid() && BetweenFaces(g, c, v)
    ensures StrictlyIn(g, c, v)
  {
    AxisInside(g.plo.x, c.i, g.dx.x, v.x);
    AxisInside(g.plo.y, c.j, g.dx.y, v.y);
    AxisInside(g.plo.z, c.k, g.dx.z, v.z);
  }

  lemma InCellInside(g: Grid, c: Cell, n: int, v: Vec)
    requires g.Valid() && InCellAt(g, c, n, v)
    ensures StrictlyIn(g, c, v)
  {
    InCellBetween(g, c, n, v);
    BetweenInside(g, c, v);
  }

  /** Where an injected particle is: strictly inside a cell of the box, at a place of the cell's lattice that is kept. */
  lemma InjectedInside(g: Grid, keep: Vec -> bool, pid: int, was: seq<Particle>, now: seq<Particle>, s: nat) returns (c: Cell, n: int)
    requires g.Valid() && Injected(g, keep, pid, was, now) && s < |now| - |was|
    ensures now[s].id == pid + s && keep(now[s].pos)
    ensures g.box.Contains(c) && 0 <= n < g.ppc.Num() && InCellAt(g, c, n, now[s].pos) && StrictlyIn(g, c, now[s].pos)
  {
    PlacesExact(g, keep);
    var v := now[s].pos;
    assert v in Places(g, keep, g.box.NumPts());
    assert Taken(g, keep, v);
    c, n :| g.box.Contains(c) && 0 <= n < g.ppc.Num() && v == Place(g, c, n);
    PlaceInCell(g, c, n, v);
    InCellInside(g, c, n, v);
  }

  /** Every place of every cell of the box that is kept has an injected particle. */
  lemma InjectedEverywhere(g: Grid, keep: Vec -> bool, pid: int, was: seq<Particle>, now: seq<Particle>, c: Cell, n: int, v: Vec) returns (s: nat)
    requires g.Valid() && Injected(g, keep, pid, was, now) && g.box.Contains(c) && 0 <= n < g.ppc.Num() && InCellAt(g, c, n, v) && keep(v)
    ensures s < |now| - |was| && now[s].pos == v
  {
    PlaceInCell(g, c, n, v);
    PlacesExact(g, keep);
    assert Taken(g, keep, v);
    s :| 0 <= s < |Places(g, keep, g.box.NumPts())| && Places(g, keep, g.box.NumPts())[s] == v;
  }

  /** v is at a place of the box that is kept. */
  ghost predicate AtKeptPlace(g: Grid, keep: Vec -> bool, v: Vec)
    requires g.Valid()
  {
    keep(v) && exists c, n :: g.box.Contains(c) && 0 <= n < g.ppc.Num() && InCellAt(g, c, n, v) && StrictlyIn(g, c, v)
  }

  /** Injection into an empty tile: every kept place of the box holds exactly one particle, nothing else does, and the
      particles are numbered consecutively. */
  lemma InjectedIntoEmpty(g: Grid, keep: Vec -> bool, pid: int, now: seq<Particle>)
    requires g.Valid() && Injected(g, keep, pid, [], now)
    ensures forall s :: 0 <= s < |now| ==> now[s].id == pid + s && AtKeptPlace(g, keep, now[s].pos)
    ensures forall v :: AtKeptPlace(g, keep, v) ==> exists s :: 0 <= s < |now| && now[s].pos == v
    ensures forall s, t :: 0 <= s < t < |now| ==> now[s].pos != now[t].pos
  {
    forall s | 0 <= s < |now| ensures now[s].id == pid + s && AtKeptPlace(g, keep, now[s].pos) {
      var c, n := InjectedInside(g, keep, pid, [], now, s);
    }
    forall v | AtKeptPlace(g, keep, v) ensures exists s :: 0 <= s < |now| && now[s].pos == v {
      var c, n :| g.box.Contains(c) && 0 <= n < g.ppc.Num() && InCellAt(g, c, n, v) && StrictlyIn(g, c, v);
      var s := InjectedEverywhere(g, keep, pid, [], now, c, n, v);
    }
    PlacesExact(g, keep);
    assert forall s :: 0 <= s < |now| ==> now[s].pos == Places(g, keep, g.box.NumPts())[s];
  }
}
