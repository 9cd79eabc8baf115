/** What the beam array of a rank and the payloads on the wire hold, in terms of the serial trajectories. */
module RingData {
  import opened Beam
  import opened Serial
  import opened Schedule
  import opened Ring

  /** p is on this rank at block b before the full message of box b.box has been received: it is in the box or
      below, and slipped there from a box that was sent before. In step 0 nothing is received. */
  ghost predicate Left(w: World, b: Block, p: Particle)
    requires RingWorld(w)
  {
    && w.OnBeam(b.step, p) && BoxOf(w.e.g, p) <= b.box
    && (b.step > 0 ==> BoxOf(w.e.g, w.beam(b.step - 1)[p.tag]) > b.box)
  }

  /** The same once the message has been received. */
  ghost predicate Arrived(w: World, b: Block, p: Particle)
    requires RingWorld(w)
  {
    && w.OnBeam(b.step, p) && BoxOf(w.e.g, p) <= b.box
    && (b.step > 0 ==> BoxOf(w.e.g, w.beam(b.step - 1)[p.tag]) >= b.box)
  }

  /** p is a particle of box b.box in step b.step after its push: what the full message of the block carries. */
  ghost predicate InFull(w: World, b: Block, p: Particle)
    requires RingWorld(w)
  {
    && p.id >= 0 && 0 <= p.tag < |w.e.init| && p == w.beam(b.step + 1)[p.tag]
    && Live(w.e.g, w.beam(b.step)[p.tag]) && BoxOf(w.e.g, w.beam(b.step)[p.tag]) == b.box
  }

  /** p is a particle of the head slice of box b.box after its push: what the ghost message carries. */
  ghost predicate InGhost(w: World, b: Block, p: Particle)
    requires RingWorld(w) && 0 <= b.box < w.e.ranks
  {
    && p.id >= 0 && 0 <= p.tag < |w.e.init| && p == w.beam(b.step + 1)[p.tag]
    && Live(w.e.g, w.beam(b.step)[p.tag]) && w.e.g.slice(w.beam(b.step)[p.tag].z) == Hi(w.e, b.box)
  }

  ghost predicate RingWorld(w: World) {
    w.Valid() && RingEnv(w.e)
  }

  function One(c: bool): nat { if c then 1 else 0 }

  /** The live particles of a are exactly those left (arrived), each once. */
  ghost predicate HoldsLeft(w: World, b: Block, a: seq<Particle>)
    requires RingWorld(w)
  {
    forall p :: Live(w.e.g, p) ==> multiset(a)[p] == One(Left(w, b, p))
  }

  ghost predicate HoldsArrived(w: World, b: Block, a: seq<Particle>)
    requires RingWorld(w)
  {
    forall p :: Live(w.e.g, p) ==> multiset(a)[p] == One(Arrived(w, b, p))
  }

  /** The valid particles of a payload are exactly those of the box (of its head slice), each once. */
  ghost predicate FullPayloadOk(w: World, b: Block, a: seq<Particle>)
    requires RingWorld(w)
  {
    forall p: Particle :: p.id >= 0 ==> multiset(a)[p] == One(InFull(w, b, p))
  }

  ghost predicate GhostPayloadOk(w: World, b: Block, a: seq<Particle>)
    requires RingWorld(w) && 0 <= b.box < w.e.ranks
  {
    forall p: Particle :: p.id >= 0 ==> multiset(a)[p] == One(InGhost(w, b, p))
  }

  /** Where a live particle was one step earlier: alive, and not in a lower slice or box. */
  lemma Before(w: World, s: nat, p: Particle)
    requires w.Valid() && s > 0 && w.OnBeam(s, p)
    ensures var q := w.beam(s - 1)[p.tag];
            && Live(w.e.g, q) && BoxOf(w.e.g, p) <= BoxOf(w.e.g, q) && w.e.g.slice(p.z) <= w.e.g.slice(q.z)
  {
    w.TrajStep(p.tag, s - 1);
  }

  /** Receiving a full message: what was left plus what the same box held one step earlier. */
  lemma ReceiveFull(w: World, b: Block, a: seq<Particle>, x: seq<Particle>)
    requires RingWorld(w) && 0 <= b.box < w.e.ranks && b.step > 0
    requires HoldsLeft(w, b, a) && FullPayloadOk(w, Block(b.step - 1, b.box), x)
    ensures HoldsArrived(w, b, a + x)
  {
    forall p | Live(w.e.g, p) ensures multiset(a + x)[p] == One(Arrived(w, b, p)) {
      assert multiset(a + x)[p] == multiset(a)[p] + multiset(x)[p];
      ReceiveOne(w, b, p);
    }
  }

  lemma {:induction false} ReceiveOne(w: World, b: Block, p: Particle)
    requires RingWorld(w) && 0 <= b.box < w.e.ranks && b.step > 0 && Live(w.e.g, p)
    ensures One(Arrived(w, b, p)) == One(Left(w, b, p)) + One(InFull(w, Block(b.step - 1, b.box), p))
  {
    if w.OnBeam(b.step, p) {
      Before(w, b.step, p);
    } else {
      assert !InFull(w, Block(b.step - 1, b.box), p);
    }
  }

  lemma ReceiveNothing(w: World, b: Block, a: seq<Particle>)
    requires RingWorld(w) && 0 <= b.box < w.e.ranks && HoldsLeft(w, b, a)
    requires b.step == 0 || FullPayloadOk(w, Block(b.step - 1, b.box), [])
    ensures HoldsArrived(w, b, a)
  {
    if b.step > 0 {
      ReceiveFull(w, b, a, []);
      assert a + [] == a;
    }
  }

  lemma SortArrived(w: World, b: Block, a: seq<Particle>, s: seq<Particle>, off: seq<nat>)
    requires RingWorld(w) && HoldsArrived(w, b, a) && BoxSorted(w.e.g, a, s, off)
    ensures HoldsArrived(w, b, s)
  {
    forall p | Live(w.e.g, p) ensures multiset(s)[p] == One(Arrived(w, b, p)) {
      SortKeepsLive(w.e.g, a, s, off, p);
    }
  }

  /** In an array of arrived particles every live entry is on the beam; one in box b.box is any particle of it. */
  lemma ArrivedEntry(w: World, b: Block, a: seq<Particle>, i: int)
    requires RingWorld(w) && HoldsArrived(w, b, a) && 0 <= i < |a| && Live(w.e.g, a[i])
    ensures Arrived(w, b, a[i])
  {
    assert multiset(a)[a[i]] > 0;
  }

  lemma BoxHasArrived(w: World, b: Block, p: Particle)
    requires RingWorld(w) && w.OnBeam(b.step, p) && BoxOf(w.e.g, p) == b.box
    ensures Arrived(w, b, p)
  {
    if b.step > 0 { Before(w, b.step, p); }
  }

  // ---------------------------------------------------------------- the array while the box is solved

  /** The real particles of the current block: `orig` as sorted, `bin` as binned. */
  ghost predicate Sorted(w: World, b: Block, rk: Rank)
    requires RingWorld(w) && 0 <= b.box < w.e.ranks
  {
    && Split(rk) && |rk.orig| == rk.nreal
    && Grouped(w.e.g, rk.orig, rk.off) && HoldsArrived(w, b, rk.orig)
    && rk.bin == Bins(w.e.g, rk.orig, rk.off[b.box], rk.off[b.box + 1])
  }

  /** orig with every particle binned to slice `cur` or above pushed once. */
  ghost predicate PushedFrom(w: World, s: nat, rk: Rank, cur: int)
    requires w.Valid() && Split(rk)
  {
    && |rk.orig| == rk.nreal
    && forall i :: 0 <= i < rk.nreal ==>
         rk.arr[i] == if cur <= rk.bin[i] < w.e.K() && rk.bin[i] >= 0 then PushOne(w.e, w.fields(s, rk.bin[i]), rk.orig[i]) else rk.orig[i]
  }

  lemma SliceRange(w: World, b: int)
    requires RingWorld(w) && 0 <= b < w.e.ranks
    ensures 0 <= Lo(w.e, b) && Lo(w.e, b) + 2 <= Hi(w.e, b) < w.e.K()
  {
    EdgeOrder(w.e.g, 0, b);
    assert Apart(w.e.g.edges, b, b + 1);
    EdgeOrder(w.e.g, b + 1, w.e.g.Boxes());
  }

  /** A binned entry of the current box, in terms of the trajectories. */
  lemma {:induction false} BinnedEntry(w: World, b: Block, rk: Rank, i: int)
    requires RingWorld(w) && 0 <= b.box < w.e.ranks && Sorted(w, b, rk) && 0 <= i < rk.nreal
    ensures rk.off[b.box] <= i < rk.off[b.box + 1] ==>
              Lo(w.e, b.box) <= rk.bin[i] <= Hi(w.e, b.box) && rk.bin[i] == w.e.g.slice(rk.orig[i].z)
    ensures rk.off[b.box] <= i < rk.off[b.box + 1] && rk.orig[i].id >= 0 ==>
              rk.orig[i] in w.On(b.step, rk.bin[i]) && BoxOf(w.e.g, rk.orig[i]) == b.box
    ensures !(rk.off[b.box] <= i < rk.off[b.box + 1]) ==> rk.bin[i] == -1
  {
    if rk.off[b.box] <= i < rk.off[b.box + 1] {
      GroupedRange(w.e.g, rk.orig, rk.off, b.box, i);
      if rk.orig[i].id >= 0 { ArrivedEntry(w, b, rk.orig, i); }
    }
  }

  /** Where a particle of the current box sits: only inside the range of the box, and exactly once. */
  lemma FindInBox(w: World, b: Block, rk: Rank, p: Particle)
    requires RingWorld(w) && 0 <= b.box < w.e.ranks && Sorted(w, b, rk)
    requires w.OnBeam(b.step, p) && BoxOf(w.e.g, p) == b.box
    ensures multiset(rk.orig)[p] == 1
    ensures forall i :: 0 <= i < rk.nreal && rk.orig[i] == p ==> rk.off[b.box] <= i < rk.off[b.box + 1] && rk.bin[i] == w.e.g.slice(p.z)
  {
    BoxHasArrived(w, b, p);
  }

  /** A slice of the box sees exactly its particles of the serial step, each once. */
  lemma SeesSlice(w: World, b: Block, rk: Rank, cur: int, k: int)
    requires RingWorld(w) && 0 <= b.box < w.e.ranks && Sorted(w, b, rk) && PushedFrom(w, b.step, rk, cur)
    requires Lo(w.e, b.box) <= k <= Hi(w.e, b.box) && k < cur
    ensures Ring.Here(rk, k) == multiset(w.On(b.step, k))
  {
    var a := rk.arr[..rk.nreal];
    var sel := InBin(a, rk.bin, k);
    forall p ensures multiset(Valids(sel))[p] == multiset(w.On(b.step, k))[p] {
      if p.id < 0 {
        assert p !in Valids(sel);
      } else {
        CountValids(sel, p);
        CountSlice(w, b, rk, cur, k, p);
      }
    }
  }

  lemma {:induction false} CountSlice(w: World, b: Block, rk: Rank, cur: int, k: int, p: Particle)
    requires RingWorld(w) && 0 <= b.box < w.e.ranks && Sorted(w, b, rk) && PushedFrom(w, b.step, rk, cur)
    requires Lo(w.e, b.box) <= k <= Hi(w.e, b.box) && k < cur && p.id >= 0
    ensures multiset(InBin(rk.arr[..rk.nreal], rk.bin, k))[p] == One(p in w.On(b.step, k))
  {
    var a := rk.arr[..rk.nreal];
    var sel := InBin(a, rk.bin, k);
    SliceRange(w, b.box);
    forall i | 0 <= i < |a| && rk.bin[i] == k ensures a[i] == rk.orig[i] { }
    if p in w.On(b.step, k) {
      BoxOfSlice(w.e.g, p, b.box);
      FindInBox(w, b, rk, p);
      forall i | 0 <= i < |a| ensures a[i] == p && rk.bin[i] == k <==> rk.orig[i] == p { }
      CountMasked(a, rk.bin, k, p, rk.orig, p);
    } else if p in sel {
      var i :| 0 <= i < |a| && a[i] == p && rk.bin[i] == k;
      BinnedEntry(w, b, rk, i);
      assert false;
    }
  }

  lemma {:induction false} CountMasked(a: seq<Particle>, bin: seq<int>, k: int, p: Particle, o: seq<Particle>, x: Particle)
    requires |a| == |bin| == |o| && forall i :: 0 <= i < |a| ==> (a[i] == p && bin[i] == k <==> o[i] == x)
    ensures multiset(InBin(a, bin, k))[p] == multiset(o)[x]
  {
    if a != [] {
      assert o == [o[0]] + o[1..];
      CountMasked(a[1..], bin[1..], k, p, o[1..], x);
    }
  }

  /** Solving slice k next: the state becomes that of the serial step, and the slice's particles are pushed. */
  ghost predicate Solved(w: World, b: Block, rk: Rank, k: int, r: Rank)
    requires RingWorld(w) && 0 <= b.box < w.e.ranks && Split(rk)
  {
    && SolvedArray(w, b, rk, k, r) && r.w == w.fields(b.step, k)
    && r.seen == Then(rk.seen, SerialSees(w, b.step, k))
  }

  ghost predicate SolvedArray(w: World, b: Block, rk: Rank, k: int, r: Rank)
    requires RingWorld(w) && 0 <= b.box < w.e.ranks && Split(rk)
  {
    && Sorted(w, b, r) && PushedFrom(w, b.step, r, k)
    && r.arr[r.nreal..] == rk.arr[rk.nreal..] && |r.arr| == |rk.arr|
    && r == rk.(arr := r.arr, w := r.w, seen := r.seen)
  }

  /** The ghosts are what the tail slice of the box needs. */
  ghost predicate GhostsOk(w: World, b: Block, rk: Rank)
    requires RingWorld(w) && 0 <= b.box < w.e.ranks && Split(rk)
  {
    multiset(Valids(rk.arr[rk.nreal..])) == multiset(w.On(b.step, Lo(w.e, b.box) - 1))
  }

  lemma SolveSliceOk(w: World, b: Block, rk: Rank, k: int)
    requires RingWorld(w) && 0 <= b.box < w.e.ranks && Sorted(w, b, rk) && PushedFrom(w, b.step, rk, k + 1)
    requires Lo(w.e, b.box) <= k <= Hi(w.e, b.box) < w.e.K() && rk.w == w.fields(b.step, k + 1)
    requires k == Lo(w.e, b.box) ==> GhostsOk(w, b, rk)
    ensures Solved(w, b, rk, k, SolveSlice(w.e, b.step, rk, k, Lo(w.e, b.box)))
  {
    SliceRange(w, b.box);
    SeesBoth(w, b, rk, k);
    SolvedState(w, b.step, rk, k, Lo(w.e, b.box));
    PushedOneMore(w, b, rk, k);
  }

  lemma SeesBoth(w: World, b: Block, rk: Rank, k: int)
    requires RingWorld(w) && 0 <= b.box < w.e.ranks && Sorted(w, b, rk) && PushedFrom(w, b.step, rk, k + 1)
    requires Lo(w.e, b.box) <= k <= Hi(w.e, b.box)
    requires k == Lo(w.e, b.box) ==> GhostsOk(w, b, rk)
    ensures Ring.Here(rk, k) == multiset(w.On(b.step, k))
    ensures Beyond(rk, k, Lo(w.e, b.box)) == multiset(w.On(b.step, k - 1))
  {
    SeesSlice(w, b, rk, k + 1, k);
    if k > Lo(w.e, b.box) { SeesSlice(w, b, rk, k + 1, k - 1); }
  }

  lemma SolvedState(w: World, s: nat, rk: Rank, k: int, lo: int)
    requires w.Valid() && Split(rk) && 0 <= k < w.e.K() && rk.w == w.fields(s, k + 1)
    requires Ring.Here(rk, k) == multiset(w.On(s, k)) && Beyond(rk, k, lo) == multiset(w.On(s, k - 1))
    ensures SolveSlice(w.e, s, rk, k, lo).w == w.fields(s, k)
    ensures SolveSlice(w.e, s, rk, k, lo).seen == Then(rk.seen, SerialSees(w, s, k))
  {
    assert w.IsSlice(s, k);
  }

  lemma {:induction false} PushedOneMore(w: World, b: Block, rk: Rank, k: int)
    requires RingWorld(w) && 0 <= b.box < w.e.ranks && Sorted(w, b, rk) && PushedFrom(w, b.step, rk, k + 1)
    requires 0 <= k < w.e.K()
    requires SolveSlice(w.e, b.step, rk, k, Lo(w.e, b.box)).w == w.fields(b.step, k)
    ensures SolvedArray(w, b, rk, k, SolveSlice(w.e, b.step, rk, k, Lo(w.e, b.box)))
  {
    var r := SolveSlice(w.e, b.step, rk, k, Lo(w.e, b.box));
    PushedBin(w, b.step, rk, k, r);
    UntouchedGhosts(w.e, r.w, rk.arr, rk.bin, k);
  }

  lemma {:induction false} PushedBin(w: World, s: nat, rk: Rank, k: int, r: Rank)
    requires w.Valid() && Split(rk) && Split(r) && PushedFrom(w, s, rk, k + 1) && 0 <= k < w.e.K()
    requires r == rk.(arr := PushBin(w.e, w.fields(s, k), rk.arr, rk.bin, k), w := r.w, seen := r.seen)
    ensures PushedFrom(w, s, r, k)
  {
  }

  lemma UntouchedGhosts(e: Env, w: Fields, a: seq<Particle>, bin: seq<int>, k: int)
    requires |bin| <= |a|
    ensures PushBin(e, w, a, bin, k)[|bin|..] == a[|bin|..]
  {
  }

  /** The log after the slices k, k-1, ..., last of step s, in this order, have been solved as in the serial loop nest. */
  ghost function SeesDown(w: World, s: nat, k: int, last: int, done: Log): Log
    decreases k - last
  {
    if k < last then done else Then(SeesDown(w, s, k, last + 1, done), SerialSees(w, s, last))
  }

  /** What the serial loop nest sees when it solves slice k of step s. */
  ghost function SerialSees(w: World, s: nat, k: int): Seen {
    Seen(s, k, multiset(w.On(s, k)), multiset(w.On(s, k - 1)))
  }

  // ---------------------------------------------------------------- start of a block

  lemma {:induction false} HeadWorkOk(w: World, b: Block, rk: Rank, c: Sorting)
    requires RingWorld(w) && 0 <= b.box < w.e.ranks && GoodSorting(w.e, rk, c) && HoldsArrived(w, b, rk.arr)
    requires rk.w == w.fields(b.step, Hi(w.e, b.box) + 1)
    ensures var r := HeadWork(w.e, b, rk, c);
            && Sorted(w, b, r) && PushedFrom(w, b.step, r, Hi(w.e, b.box)) && r.w == w.fields(b.step, Hi(w.e, b.box))
            && r.arr[r.nreal..] == LocalGhosts(r.orig, r.off, b.box)
            && r.seen == Then(rk.seen, SerialSees(w, b.step, Hi(w.e, b.box)))
            && r.t == rk.t && r.time == rk.time && r.k == Hi(w.e, b.box) - 1
  {
    SliceRange(w, b.box);
    SortArrived(w, b, rk.arr, c.arr, c.off);
    var g := LocalGhosts(c.arr, c.off, b.box);
    var rk1 := rk.(arr := c.arr + g, nreal := |c.arr|, off := c.off,
                   orig := c.arr, bin := Bins(w.e.g, c.arr, c.off[b.box], c.off[b.box + 1]), k := Hi(w.e, b.box) - 1);
    Unpushed(w, b, rk1);
    assert rk1.arr[rk1.nreal..] == g;
    SolveSliceOk(w, b, rk1, Hi(w.e, b.box));
  }

  lemma Unpushed(w: World, b: Block, rk: Rank)
    requires RingWorld(w) && 0 <= b.box < w.e.ranks && Sorted(w, b, rk)
    requires forall i :: 0 <= i < rk.nreal ==> rk.arr[i] == rk.orig[i]
    ensures PushedFrom(w, b.step, rk, Hi(w.e, b.box) + 1)
  {
    forall i | 0 <= i < rk.nreal ensures rk.bin[i] <= Hi(w.e, b.box) {
      BinnedEntry(w, b, rk, i);
      SliceRange(w, b.box);
    }
  }

  // ---------------------------------------------------------------- payloads

  /** A valid entry already pushed in this block is its particle one step later. */
  lemma PushedEntry(w: World, b: Block, rk: Rank, cur: int, i: int)
    requires RingWorld(w) && 0 <= b.box < w.e.ranks && Sorted(w, b, rk) && PushedFrom(w, b.step, rk, cur)
    requires 0 <= i < rk.nreal && rk.bin[i] >= cur && rk.off[b.box] <= i < rk.off[b.box + 1] && rk.arr[i].id >= 0
    ensures var p := rk.arr[i];
            && 0 <= p.tag < |w.e.init| && p == w.beam(b.step + 1)[p.tag] && rk.orig[i] == w.beam(b.step)[p.tag]
            && w.OnBeam(b.step, rk.orig[i]) && BoxOf(w.e.g, rk.orig[i]) == b.box && w.e.g.slice(rk.orig[i].z) == rk.bin[i]
  {
    BinnedEntry(w, b, rk, i);
    SliceRange(w, b.box);
    var o := rk.orig[i];
    assert o.id >= 0;
    w.OnSlice(b.step, rk.bin[i], o);
    w.TrajStep(o.tag, b.step);
  }

  /** A particle of the box, pushed: the one entry it came from. */
  lemma {:induction false} PushedFind(w: World, b: Block, rk: Rank, cur: int, x: Particle)
    requires RingWorld(w) && 0 <= b.box < w.e.ranks && Sorted(w, b, rk) && PushedFrom(w, b.step, rk, cur)
    requires w.OnBeam(b.step, x) && BoxOf(w.e.g, x) == b.box && cur <= w.e.g.slice(x.z)
    ensures multiset(rk.orig)[x] == 1
    ensures forall i :: 0 <= i < rk.nreal && rk.orig[i] == x ==>
              rk.off[b.box] <= i < rk.off[b.box + 1] && rk.bin[i] == w.e.g.slice(x.z) && rk.arr[i] == w.beam(b.step + 1)[x.tag]
  {
    FindInBox(w, b, rk, x);
    w.TrajStep(x.tag, b.step);
  }

  lemma GhostPayloadHolds(w: World, b: Block, rk: Rank, cur: int)
    requires RingWorld(w) && 0 <= b.box < w.e.ranks && Sorted(w, b, rk) && PushedFrom(w, b.step, rk, cur)
    requires cur <= Hi(w.e, b.box)
    ensures GhostPayloadOk(w, b, GhostPayload(w.e, b, rk))
  {
    forall p: Particle | p.id >= 0 ensures multiset(GhostPayload(w.e, b, rk))[p] == One(InGhost(w, b, p)) {
      CountGhost(w, b, rk, cur, p);
    }
  }

  lemma {:induction false} CountGhost(w: World, b: Block, rk: Rank, cur: int, p: Particle)
    requires RingWorld(w) && 0 <= b.box < w.e.ranks && Sorted(w, b, rk) && PushedFrom(w, b.step, rk, cur)
    requires cur <= Hi(w.e, b.box) && p.id >= 0
    ensures multiset(GhostPayload(w.e, b, rk))[p] == One(InGhost(w, b, p))
  {
    var k, a := Hi(w.e, b.box), rk.arr[..rk.nreal];
    if InGhost(w, b, p) {
      var x := w.beam(b.step)[p.tag];
      forall i | 0 <= i < |a| ensures a[i] == p && rk.bin[i] == k <==> rk.orig[i] == x {
        GhostEntry(w, b, rk, cur, p, i);
      }
      CountMasked(a, rk.bin, k, p, rk.orig, x);
      HeadInBox(w, b, x);
      FindInBox(w, b, rk, x);
    } else if p in GhostPayload(w.e, b, rk) {
      var i :| 0 <= i < |a| && a[i] == p && rk.bin[i] == k;
      HeadEntry(w, b, rk, cur, i);
      assert false;
    }
  }

  lemma HeadInBox(w: World, b: Block, x: Particle)
    requires RingWorld(w) && 0 <= b.box < w.e.ranks && Live(w.e.g, x) && w.e.g.slice(x.z) == Hi(w.e, b.box)
    ensures BoxOf(w.e.g, x) == b.box
  {
    SliceRange(w, b.box);
    SliceInDomain(w.e.g, x);
    BoxOfSlice(w.e.g, x, b.box);
  }

  lemma HeadEntry(w: World, b: Block, rk: Rank, cur: int, i: int)
    requires RingWorld(w) && 0 <= b.box < w.e.ranks && Sorted(w, b, rk) && PushedFrom(w, b.step, rk, cur)
    requires cur <= Hi(w.e, b.box) && 0 <= i < rk.nreal && rk.bin[i] == Hi(w.e, b.box) && rk.arr[i].id >= 0
    ensures InGhost(w, b, rk.arr[i]) && rk.orig[i] == w.beam(b.step)[rk.arr[i].tag]
  {
    SliceRange(w, b.box);
    BinnedEntry(w, b, rk, i);
    PushedEntry(w, b, rk, cur, i);
  }

  lemma GhostEntry(w: World, b: Block, rk: Rank, cur: int, p: Particle, i: int)
    requires RingWorld(w) && 0 <= b.box < w.e.ranks && Sorted(w, b, rk) && PushedFrom(w, b.step, rk, cur)
    requires cur <= Hi(w.e, b.box) && 0 <= i < rk.nreal && InGhost(w, b, p)
    ensures rk.arr[i] == p && rk.bin[i] == Hi(w.e, b.box) <==> rk.orig[i] == w.beam(b.step)[p.tag]
  {
    var x := w.beam(b.step)[p.tag];
    if rk.arr[i] == p && rk.bin[i] == Hi(w.e, b.box) {
      HeadEntry(w, b, rk, cur, i);
    } else if rk.orig[i] == x {
      HeadInBox(w, b, x);
      PushedFind(w, b, rk, cur, x);
    }
  }

  lemma CountRange(a: seq<Particle>, from: int, to: int, x: Particle)
    requires 0 <= from <= to <= |a| && forall i :: 0 <= i < |a| && a[i] == x ==> from <= i < to
    ensures multiset(a[from..to])[x] == multiset(a)[x]
  {
    assert a == a[..from] + a[from..to] + a[to..];
    assert x !in a[..from] && x !in a[to..];
  }

  lemma FullPayloadHolds(w: World, b: Block, rk: Rank)
    requires RingWorld(w) && 0 <= b.box < w.e.ranks && Sorted(w, b, rk) && PushedFrom(w, b.step, rk, Lo(w.e, b.box))
    ensures OffsetsOk(rk, b.box) && FullPayloadOk(w, b, FullPayload(b, rk))
  {
    assert rk.off[b.box + 1] <= rk.off[w.e.ranks];
    forall p: Particle | p.id >= 0 ensures multiset(FullPayload(b, rk))[p] == One(InFull(w, b, p)) {
      CountFull(w, b, rk, p);
    }
  }

  lemma {:induction false} CountFull(w: World, b: Block, rk: Rank, p: Particle)
    requires RingWorld(w) && 0 <= b.box < w.e.ranks && Sorted(w, b, rk) && PushedFrom(w, b.step, rk, Lo(w.e, b.box))
    requires p.id >= 0 && OffsetsOk(rk, b.box) && rk.off[b.box + 1] <= rk.nreal
    ensures multiset(FullPayload(b, rk))[p] == One(InFull(w, b, p))
  {
    if InFull(w, b, p) {
      CountFullOne(w, b, rk, p);
    } else {
      forall i | rk.off[b.box] <= i < rk.off[b.box + 1] ensures rk.arr[i] != p {
        if rk.arr[i] == p { BoxEntry(w, b, rk, i); }
      }
      NotInWindow(rk.arr, rk.off[b.box], rk.off[b.box + 1], p);
    }
  }

  lemma NotInWindow(a: seq<Particle>, from: int, to: int, p: Particle)
    requires 0 <= from <= to <= |a| && forall i :: from <= i < to ==> a[i] != p
    ensures multiset(a[from..to])[p] == 0
  {
    assert p !in a[from..to];
  }

  lemma CountFullOne(w: World, b: Block, rk: Rank, p: Particle)
    requires RingWorld(w) && 0 <= b.box < w.e.ranks && Sorted(w, b, rk) && PushedFrom(w, b.step, rk, Lo(w.e, b.box))
    requires InFull(w, b, p) && OffsetsOk(rk, b.box) && rk.off[b.box + 1] <= rk.nreal
    ensures multiset(FullPayload(b, rk))[p] == 1
  {
    var x := w.beam(b.step)[p.tag];
    FullPointwise(w, b, rk, p, x);
    BoxCount(w, b, rk, x);
  }

  lemma FullPointwise(w: World, b: Block, rk: Rank, p: Particle, x: Particle)
    requires RingWorld(w) && 0 <= b.box < w.e.ranks && Sorted(w, b, rk) && PushedFrom(w, b.step, rk, Lo(w.e, b.box))
    requires InFull(w, b, p) && OffsetsOk(rk, b.box) && rk.off[b.box + 1] <= rk.nreal && x == w.beam(b.step)[p.tag]
    ensures multiset(FullPayload(b, rk))[p] == multiset(rk.orig[rk.off[b.box]..rk.off[b.box + 1]])[x]
  {
    forall i | rk.off[b.box] <= i < rk.off[b.box + 1] ensures rk.arr[i] == p <==> rk.orig[i] == x {
      FullEntry(w, b, rk, p, i);
    }
    CountWindow(rk.arr, p, rk.orig, x, rk.off[b.box], rk.off[b.box + 1]);
  }

  lemma CountWindow(a: seq<Particle>, p: Particle, o: seq<Particle>, x: Particle, from: int, to: int)
    requires 0 <= from <= to <= |a| && to <= |o|
    requires forall i :: from <= i < to ==> (a[i] == p <==> o[i] == x)
    ensures multiset(a[from..to])[p] == multiset(o[from..to])[x]
  {
    CountPointwise(a[from..to], p, o[from..to], x);
  }

  lemma BoxCount(w: World, b: Block, rk: Rank, x: Particle)
    requires RingWorld(w) && 0 <= b.box < w.e.ranks && Sorted(w, b, rk)
    requires rk.off[b.box] <= rk.off[b.box + 1] <= rk.nreal
    requires w.OnBeam(b.step, x) && BoxOf(w.e.g, x) == b.box
    ensures multiset(rk.orig[rk.off[b.box]..rk.off[b.box + 1]])[x] == 1
  {
    FindInBox(w, b, rk, x);
    CountRange(rk.orig, rk.off[b.box], rk.off[b.box + 1], x);
  }

  lemma BoxEntry(w: World, b: Block, rk: Rank, i: int)
    requires RingWorld(w) && 0 <= b.box < w.e.ranks && Sorted(w, b, rk) && PushedFrom(w, b.step, rk, Lo(w.e, b.box))
    requires rk.off[b.box] <= i < rk.off[b.box + 1] && i < rk.nreal && rk.arr[i].id >= 0
    ensures InFull(w, b, rk.arr[i]) && rk.orig[i] == w.beam(b.step)[rk.arr[i].tag]
  {
    BinnedEntry(w, b, rk, i);
    PushedEntry(w, b, rk, Lo(w.e, b.box), i);
  }

  lemma FullEntry(w: World, b: Block, rk: Rank, p: Particle, i: int)
    requires RingWorld(w) && 0 <= b.box < w.e.ranks && Sorted(w, b, rk) && PushedFrom(w, b.step, rk, Lo(w.e, b.box))
    requires rk.off[b.box] <= i < rk.off[b.box + 1] && i < rk.nreal && InFull(w, b, p)
    ensures rk.arr[i] == p <==> rk.orig[i] == w.beam(b.step)[p.tag]
  {
    var x := w.beam(b.step)[p.tag];
    if rk.arr[i] == p {
      BoxEntry(w, b, rk, i);
    } else if rk.orig[i] == x {
      SliceInDomain(w.e.g, x);
      PushedFind(w, b, rk, Lo(w.e, b.box), x);
    }
  }
}
