/** The end of a block: which ghosts the tail slice consumes, and what stays in the array afterwards. */
module RingTail {
  import opened Beam
  import opened Serial
  import opened Schedule
  import opened Ring
  import opened RingData

  // ---------------------------------------------------------------- ghosts

  /** Ghosts of block b: the local ones, then those received from the rank upstream, if any. */
  ghost predicate GhostTail(w: World, b: Block, rk: Rank, recv: seq<Particle>)
    requires RingWorld(w) && 0 <= b.box < w.e.ranks && Sorted(w, b, rk)
  {
    && rk.arr[rk.nreal..] == LocalGhosts(rk.orig, rk.off, b.box) + recv
    && (if TakesGhost(w.e, b) then GhostPayloadOk(w, Block(b.step - 1, b.box - 1), recv) else recv == [])
  }

  /** Of every two ghosts of a kind the check keeps both or none. */
  lemma {:induction false} CountChecked(g: Geometry, ilo: int, a: seq<Particle>, p: Particle)
    requires p.id >= 0
    ensures multiset(CheckGhosts(g, ilo, a))[p] == if g.face(ilo - 1) <= p.z <= g.face(ilo) then multiset(a)[p] else 0
  {
    var s := CheckGhosts(g, ilo, a);
    if g.face(ilo - 1) <= p.z <= g.face(ilo) {
      CountPointwise(s, p, a, p);
    } else {
      forall i | 0 <= i < |s| ensures s[i] != p { }
    }
  }

  /** Local ghosts: the particles of the box below that are already here. */
  lemma {:induction false} CountLocal(w: World, b: Block, rk: Rank, p: Particle)
    requires RingWorld(w) && 0 < b.box < w.e.ranks && Sorted(w, b, rk) && p.id >= 0
    ensures multiset(LocalGhosts(rk.orig, rk.off, b.box))[p] == One(BoxOf(w.e.g, p) == b.box - 1 && Arrived(w, b, p))
  {
    var from, to := rk.off[b.box - 1], rk.off[b.box];
    var a := rk.orig;
    assert to <= rk.off[w.e.ranks];
    if BoxOf(w.e.g, p) == b.box - 1 {
      CountRange(a, from, to, p);
    } else {
      forall i | from <= i < to ensures BoxOf(w.e.g, a[i]) == b.box - 1 {
        GroupedRange(w.e.g, a, rk.off, b.box - 1, i);
      }
    }
  }

  /** The particles of the head slice of the box below are the arrived ones and the received ones, and no others. */
  lemma GhostSlice(w: World, b: Block, p: Particle)
    requires RingWorld(w) && 0 < b.box < w.e.ranks && p.id >= 0
    requires w.e.g.face(Lo(w.e, b.box) - 1) <= p.z <= w.e.g.face(Lo(w.e, b.box))
    ensures One(p in w.On(b.step, Lo(w.e, b.box) - 1)) ==
            One(BoxOf(w.e.g, p) == b.box - 1 && Arrived(w, b, p))
            + (if b.step > 0 then One(InGhost(w, Block(b.step - 1, b.box - 1), p)) else 0)
  {
    w.OnSlice(b.step, Lo(w.e, b.box) - 1, p);
    if w.OnBeam(b.step, p) && w.e.g.slice(p.z) == Lo(w.e, b.box) - 1 {
      GhostSliceHas(w, b, p);
    } else {
      GhostSliceHasNot(w, b, p);
    }
  }

  lemma {:induction false} GhostSliceHas(w: World, b: Block, p: Particle)
    requires RingWorld(w) && 0 < b.box < w.e.ranks && w.OnBeam(b.step, p) && w.e.g.slice(p.z) == Lo(w.e, b.box) - 1
    ensures BoxOf(w.e.g, p) == b.box - 1
    ensures b.step > 0 ==> (Arrived(w, b, p) <==> !InGhost(w, Block(b.step - 1, b.box - 1), p))
    ensures b.step == 0 ==> Arrived(w, b, p)
  {
    HeadInBox(w, Block(b.step, b.box - 1), p);
    if b.step > 0 {
      Before(w, b.step, p);
      GhostSliceCame(w, b, p, w.beam(b.step - 1)[p.tag]);
    }
  }

  /** Where a particle of the ghost slice was in the step before: in the head slice of the box below, or already here. */
  lemma {:induction false} GhostSliceCame(w: World, b: Block, p: Particle, q: Particle)
    requires RingWorld(w) && 0 < b.box < w.e.ranks && b.step > 0 && w.OnBeam(b.step, p) && BoxOf(w.e.g, p) == b.box - 1
    requires w.e.g.slice(p.z) == Lo(w.e, b.box) - 1 && 0 <= p.tag < |w.beam(b.step - 1)| && q == w.beam(b.step - 1)[p.tag]
    requires Live(w.e.g, q) && w.e.g.slice(q.z) >= w.e.g.slice(p.z)
    ensures Arrived(w, b, p) <==> !InGhost(w, Block(b.step - 1, b.box - 1), p)
  {
    SliceInDomain(w.e.g, q);
    if BoxOf(w.e.g, q) == b.box - 1 {
      assert w.e.g.slice(q.z) == Hi(w.e, b.box - 1);
    } else {
      BoxBySlice(w.e.g, p, q);
      EdgeOrder(w.e.g, b.box, BoxOf(w.e.g, q));
    }
  }

  lemma {:induction false} GhostSliceHasNot(w: World, b: Block, p: Particle)
    requires RingWorld(w) && 0 < b.box < w.e.ranks && p.id >= 0
    requires w.e.g.face(Lo(w.e, b.box) - 1) <= p.z <= w.e.g.face(Lo(w.e, b.box))
    requires !(w.OnBeam(b.step, p) && w.e.g.slice(p.z) == Lo(w.e, b.box) - 1)
    ensures !(BoxOf(w.e.g, p) == b.box - 1 && Arrived(w, b, p))
    ensures b.step > 0 ==> !InGhost(w, Block(b.step - 1, b.box - 1), p)
  {
    assert w.e.g.slice(p.z) >= Lo(w.e, b.box) - 1;
    if BoxOf(w.e.g, p) == b.box - 1 && Arrived(w, b, p) {
      SliceInDomain(w.e.g, p);
      assert false;
    }
    if b.step > 0 && InGhost(w, Block(b.step - 1, b.box - 1), p) {
      w.TrajStep(p.tag, b.step - 1);
      var q := w.beam(b.step - 1)[p.tag];
      SliceInDomain(w.e.g, q);
      SliceMonotone(w.e.g, p.z, q.z);
      SliceRange(w, b.box);
      assert false;
    }
  }

  /** Ghost correctness: the ghosts that survive the check are exactly the valid particles of the slice below,
      those that the box below will later bin into its head slice. */
  lemma {:induction false} GhostsCorrect(w: World, b: Block, rk: Rank, recv: seq<Particle>)
    requires RingWorld(w) && 0 < b.box < w.e.ranks && Sorted(w, b, rk) && GhostTail(w, b, rk, recv)
    ensures multiset(Valids(CheckGhosts(w.e.g, Lo(w.e, b.box), rk.arr[rk.nreal..]))) == multiset(w.On(b.step, Lo(w.e, b.box) - 1))
  {
    var lo, a := Lo(w.e, b.box), rk.arr[rk.nreal..];
    var c := CheckGhosts(w.e.g, lo, a);
    forall p ensures multiset(Valids(c))[p] == multiset(w.On(b.step, lo - 1))[p] {
      if p.id < 0 {
        assert p !in Valids(c);
      } else {
        CountValids(c, p);
        CountChecked(w.e.g, lo, a, p);
        CountSurvivors(w, b, rk, recv, p);
      }
    }
  }

  lemma {:induction false} CountSurvivors(w: World, b: Block, rk: Rank, recv: seq<Particle>, p: Particle)
    requires RingWorld(w) && 0 < b.box < w.e.ranks && Sorted(w, b, rk) && GhostTail(w, b, rk, recv) && p.id >= 0
    ensures (if w.e.g.face(Lo(w.e, b.box) - 1) <= p.z <= w.e.g.face(Lo(w.e, b.box)) then multiset(rk.arr[rk.nreal..])[p] else 0)
            == multiset(w.On(b.step, Lo(w.e, b.box) - 1))[p]
  {
    var lo := Lo(w.e, b.box);
    if w.e.g.face(lo - 1) <= p.z <= w.e.g.face(lo) {
      CountLocal(w, b, rk, p);
      GhostSlice(w, b, p);
      var l := LocalGhosts(rk.orig, rk.off, b.box);
      assert multiset(l + recv)[p] == multiset(l)[p] + multiset(recv)[p];
    } else {
      w.OnSlice(b.step, lo - 1, p);
      assert w.e.g.face(lo) <= p.z <==> lo <= w.e.g.slice(p.z);
    }
  }

  // ---------------------------------------------------------------- tail slice

  lemma {:induction false} TailWorkOk(w: World, b: Block, rk: Rank, recv: seq<Particle>)
    requires RingWorld(w) && 0 <= b.box < w.e.ranks && Sorted(w, b, rk) && GhostTail(w, b, rk, recv)
    requires PushedFrom(w, b.step, rk, Lo(w.e, b.box) + 1) && rk.w == w.fields(b.step, Lo(w.e, b.box) + 1)
    ensures var r := TailWork(w.e, b, rk);
            && Sorted(w, b, r) && PushedFrom(w, b.step, r, Lo(w.e, b.box)) && r.w == w.fields(b.step, Lo(w.e, b.box))
            && |r.arr| == r.nreal && r.seen == Then(rk.seen, SerialSees(w, b.step, Lo(w.e, b.box)))
            && r == rk.(arr := r.arr, w := r.w, seen := r.seen)
  {
    var lo := Lo(w.e, b.box);
    SliceRange(w, b.box);
    var rk1 := if b.box == 0 then rk else rk.(arr := rk.arr[..rk.nreal] + CheckGhosts(w.e.g, lo, rk.arr[rk.nreal..]));
    assert GhostsOk(w, b, rk1) by {
      if b.box == 0 {
        assert rk.arr[rk.nreal..] == [];
        NothingBelow(w, b.step);
      } else {
        assert rk1.arr[rk1.nreal..] == CheckGhosts(w.e.g, lo, rk.arr[rk.nreal..]);
        GhostsCorrect(w, b, rk, recv);
      }
    }
    SolveSliceOk(w, b, rk1, lo);
    var rk2 := SolveSlice(w.e, b.step, rk1, lo, lo);
    DropGhosts(w, b, rk2, lo);
  }

  lemma NothingBelow(w: World, s: nat)
    requires RingWorld(w)
    ensures w.On(s, Lo(w.e, 0) - 1) == {}
  {
    forall p ensures p !in w.On(s, -1) {
      if p in w.On(s, -1) { SliceInDomain(w.e.g, p); assert false; }
    }
  }

  lemma DropGhosts(w: World, b: Block, rk: Rank, cur: int)
    requires RingWorld(w) && 0 <= b.box < w.e.ranks && Sorted(w, b, rk) && PushedFrom(w, b.step, rk, cur)
    ensures Sorted(w, b, rk.(arr := rk.arr[..rk.nreal])) && PushedFrom(w, b.step, rk.(arr := rk.arr[..rk.nreal]), cur)
  {
  }

  // ---------------------------------------------------------------- end of the block

  /** The array once the full message has been sent: cut at the box, or uncut when the box was empty. */
  lemma LeftAfter(w: World, b: Block, rk: Rank, a: seq<Particle>)
    requires RingWorld(w) && 0 <= b.box < w.e.ranks && Sorted(w, b, rk) && PushedFrom(w, b.step, rk, Lo(w.e, b.box))
    requires |rk.arr| == rk.nreal
    requires a == rk.arr[..rk.off[b.box]] || (a == rk.arr && rk.off[b.box] == rk.off[b.box + 1])
    ensures HoldsLeft(w, NextBlock(w.e.ranks, b), a)
  {
    var c := NextBlock(w.e.ranks, b);
    forall p | Live(w.e.g, p) ensures multiset(a)[p] == One(Left(w, c, p)) {
      CountLeft(w, b, rk, a, p);
    }
  }

  /** Entries in front of the box are untouched, those behind it are dead. */
  lemma KeptEntry(w: World, b: Block, rk: Rank, i: int)
    requires RingWorld(w) && 0 <= b.box < w.e.ranks && Sorted(w, b, rk) && PushedFrom(w, b.step, rk, Lo(w.e, b.box))
    requires 0 <= i < rk.nreal && !(rk.off[b.box] <= i < rk.off[b.box + 1])
    ensures rk.arr[i] == rk.orig[i]
    ensures Live(w.e.g, rk.orig[i]) ==> Arrived(w, b, rk.orig[i]) && i < rk.off[b.box] && BoxOf(w.e.g, rk.orig[i]) < b.box
  {
    BinnedEntry(w, b, rk, i);
    SliceRange(w, b.box);
    if Live(w.e.g, rk.orig[i]) {
      ArrivedEntry(w, b, rk.orig, i);
    }
  }

  lemma CountLeft(w: World, b: Block, rk: Rank, a: seq<Particle>, p: Particle)
    requires RingWorld(w) && 0 <= b.box < w.e.ranks && Sorted(w, b, rk) && PushedFrom(w, b.step, rk, Lo(w.e, b.box))
    requires |rk.arr| == rk.nreal && Live(w.e.g, p)
    requires a == rk.arr[..rk.off[b.box]] || (a == rk.arr && rk.off[b.box] == rk.off[b.box + 1])
    ensures multiset(a)[p] == One(Left(w, NextBlock(w.e.ranks, b), p))
  {
    LeftNext(w, b, p);
    if Arrived(w, b, p) && BoxOf(w.e.g, p) < b.box {
      CountKept(w, b, rk, a, p);
      assert multiset(rk.orig)[p] == 1;
    } else {
      NotKept(w, b, rk, a, p);
    }
  }

  lemma {:induction false} LeftNext(w: World, b: Block, p: Particle)
    requires RingWorld(w) && 0 <= b.box < w.e.ranks && Live(w.e.g, p)
    ensures Left(w, NextBlock(w.e.ranks, b), p) <==> Arrived(w, b, p) && BoxOf(w.e.g, p) < b.box
  {
    var c := NextBlock(w.e.ranks, b);
    if b.box == 0 && Left(w, c, p) {
      Before(w, c.step, p);
      SliceInDomain(w.e.g, w.beam(c.step - 1)[p.tag]);
      assert false;
    }
  }

  lemma NotKept(w: World, b: Block, rk: Rank, a: seq<Particle>, p: Particle)
    requires RingWorld(w) && 0 <= b.box < w.e.ranks && Sorted(w, b, rk) && PushedFrom(w, b.step, rk, Lo(w.e, b.box))
    requires |rk.arr| == rk.nreal && Live(w.e.g, p) && !(Arrived(w, b, p) && BoxOf(w.e.g, p) < b.box)
    requires a == rk.arr[..rk.off[b.box]] || (a == rk.arr && rk.off[b.box] == rk.off[b.box + 1])
    ensures p !in a
  {
    forall i | 0 <= i < |a| ensures a[i] != p {
      KeptEntry(w, b, rk, i);
    }
  }

  lemma {:induction false} CountKept(w: World, b: Block, rk: Rank, a: seq<Particle>, p: Particle)
    requires RingWorld(w) && 0 <= b.box < w.e.ranks && Sorted(w, b, rk) && PushedFrom(w, b.step, rk, Lo(w.e, b.box))
    requires |rk.arr| == rk.nreal && Live(w.e.g, p) && BoxOf(w.e.g, p) < b.box
    requires a == rk.arr[..rk.off[b.box]] || (a == rk.arr && rk.off[b.box] == rk.off[b.box + 1])
    ensures multiset(a)[p] == multiset(rk.orig)[p]
  {
    var to := |a|;
    forall i | 0 <= i < to ensures a[i] == rk.orig[i] {
      KeptEntry(w, b, rk, i);
    }
    assert a == rk.orig[0..to];
    forall i | 0 <= i < rk.nreal && rk.orig[i] == p ensures i < to { }
    CountRange(rk.orig, 0, to, p);
  }
}
