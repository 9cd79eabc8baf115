/** Skipping the messages of empty boxes. Sender and receiver decide on their own whether the full message of a box is
    skipped, each from a running minimum of the lowest box with particles. The model follows the two minima and the
    particles along the ring; it has no ghost messages and no blocking: what a rank holds after a block is a function
    of the rank and the diagonal of the block. */
module SkipComms {
  import opened Schedule

  type P(!new)

  /** The state of plasma and fields. */
  type W(!new)

  const INT_MAX := 2147483647

  /** `box` is the box of a particle (-1 outside the domain); `reset` is the plasma at the start of a step, `solve` what a
      box makes of it with the particles on the rank, and `move` what becomes of the particles of a box when they are
      pushed in these fields. `skip` is the option m_skip_empty_comms. */
  datatype Env = Env(n: int, skip: bool, init: seq<P>, box: P -> int, reset: nat -> W, solve: (nat, int, W, seq<P>) -> W,
                     move: (nat, int, W, seq<P>) -> seq<P>)
  {
    ghost predicate Valid() {
      && 1 <= n <= INT_MAX
      && (forall p :: box(p) < n)
      && (forall s: nat, it: int, w: W {:trigger move(s, it, w, [])} :: move(s, it, w, []) == [])
      && (forall s: nat, it: int, w: W, a: seq<P>, i {:trigger move(s, it, w, a)[i]} :: 0 <= i < |move(s, it, w, a)| ==> box(move(s, it, w, a)[i]) <= it)
    }
  }

  /** A rank after a block: what it holds as sorted in that block, m_leftmost_box_rcv and m_leftmost_box_snd, and plasma
      and fields. */
  datatype Held = Held(hold: seq<P>, rcv: int, snd: int, w: W)

  function Min(x: int, y: int): int { if x <= y then x else y }

  /** The particles in boxes below b, in array order; particles outside the domain are dropped. */
  ghost function Under(e: Env, a: seq<P>, b: int): (r: seq<P>)
    ensures forall i :: 0 <= i < |r| ==> 0 <= e.box(r[i]) < b && r[i] in a
  {
    if a == [] then [] else if 0 <= e.box(a[0]) < b then [a[0]] + Under(e, a[1..], b) else Under(e, a[1..], b)
  }

  ghost function InBox(e: Env, a: seq<P>, b: int): (r: seq<P>)
    ensures forall i :: 0 <= i < |r| ==> e.box(r[i]) == b && r[i] in a
    ensures r == [] ==> forall i :: 0 <= i < |a| ==> e.box(a[i]) != b
  {
    if a == [] then [] else if e.box(a[0]) == b then [a[0]] + InBox(e, a[1..], b) else InBox(e, a[1..], b)
  }

  /** What stays on a rank after box b: the array is cut, unless the box was empty. */
  ghost function Left(e: Env, a: seq<P>, b: int): seq<P> { if InBox(e, a, b) == [] then a else Under(e, a, b) }

  /** The lowest box with particles, n-1 when there is none. */
  ghost function Leftmost(e: Env, a: seq<P>): (l: int)
    requires e.n >= 1
    ensures l <= e.n - 1
    ensures forall i :: 0 <= i < |a| && e.box(a[i]) >= 0 ==> l <= e.box(a[i])
    ensures l == e.n - 1 || exists i :: 0 <= i < |a| && e.box(a[i]) == l && l >= 0
  {
    if a == [] then e.n - 1
    else
      var l := Leftmost(e, a[1..]);
      assert l == e.n - 1 || exists i :: 0 <= i < |a| && e.box(a[i]) == l && l >= 0 by {
        if l != e.n - 1 {
          var i :| 0 <= i < |a[1..]| && e.box(a[1..][i]) == l && l >= 0;
          assert e.box(a[i + 1]) == l;
        }
      }
      if e.box(a[0]) >= 0 then Min(e.box(a[0]), l) else l
  }

  /** Does Wait skip the full message of block b, given the minimum so far? */
  predicate SkipsReceive(e: Env, b: Block, rcv: int) {
    e.skip && b.box < rcv && b.box < e.n - 1
  }

  predicate SkipsSend(e: Env, b: Block, snd: int) {
    e.skip && b.box < snd && b.box < e.n - 1
  }

  ghost function Start(e: Env, r: int): Held { Held(if r == e.n - 1 then e.init else [], INT_MAX, INT_MAX, e.reset(0)) }

  /** What is left on rank r for the block on diagonal t. */
  ghost function Remains(e: Env, r: int, t: int, hold: seq<P>): seq<P>
    requires 0 <= r < e.n && t >= e.n - 1 - r
  {
    if t == e.n - 1 - r then hold else Left(e, hold, BlockOf(e.n, r, t - 1).box)
  }

  /** What arrives for block b: what the push has made of the box one step earlier, unless the message is skipped. */
  ghost function Arrives(e: Env, b: Block, rcv: int, up: Held): seq<P> {
    if b.step > 0 && !SkipsReceive(e, b, rcv) then e.move(b.step - 1, b.box, up.w, InBox(e, up.hold, b.box)) else []
  }

  /** The block on diagonal t of rank r: `was` after the rank's block before, `up` after the upstream rank's block on
      diagonal t-1, which is the same box one step earlier. */
  ghost function Work(e: Env, r: int, t: int, was: Held, up: Held): Held
    requires e.Valid() && 0 <= r < e.n && t >= e.n - 1 - r
  {
    var b := BlockOf(e.n, r, t);
    var takes := b.step > 0 && !SkipsReceive(e, b, was.rcv);
    var hold := Remains(e, r, t, was.hold) + Arrives(e, b, was.rcv, up);
    var rcv := if takes then Min(up.snd, was.rcv) else was.rcv;
    Held(hold, rcv, Min(Min(Leftmost(e, hold), was.snd), rcv),
         e.solve(b.step, b.box, if b.box == e.n - 1 then e.reset(b.step) else was.w, hold))
  }

  ghost function After(e: Env, r: int, t: int): Held
    requires e.Valid() && 0 <= r < e.n
    decreases t
  {
    if t < e.n - 1 - r then Start(e, r) else Work(e, r, t, After(e, r, t - 1), After(e, Up(e.n, r), t - 1))
  }

  /** A whole run: `at(r, t)` is rank r after its block on diagonal t. */
  datatype Run = Run(e: Env, at: (int, int) -> Held)
  {
    ghost predicate Is(r: int, t: int)
      requires e.Valid() && 0 <= r < e.n
    {
      at(r, t) == if t < e.n - 1 - r then Start(e, r) else Work(e, r, t, at(r, t - 1), at(Up(e.n, r), t - 1))
    }

    ghost predicate Valid() {
      e.Valid() && forall r: int, t: int {:trigger Is(r, t)} :: 0 <= r < e.n ==> Is(r, t)
    }

    function Box(r: int, t: int): Block
      requires 0 <= r < e.n && t >= e.n - 1 - r
    {
      BlockOf(e.n, r, t)
    }

    /** Is there a full message to take for the block, and is it not skipped? */
    predicate Takes(r: int, t: int)
      requires 0 <= r < e.n && t >= e.n - 1 - r
    {
      Box(r, t).step > 0 && !SkipsReceive(e, Box(r, t), at(r, t - 1).rcv)
    }

    // -------------------------------------------------------------- the minima

    lemma Minima(r: int, t: int)
      requires Valid() && 0 <= r < e.n && t >= e.n - 1 - r
      ensures at(r, t).snd <= at(r, t).rcv && at(r, t).snd <= at(r, t - 1).snd
      ensures at(r, t).snd <= Leftmost(e, at(r, t).hold)
      ensures at(r, t).rcv == if Takes(r, t) then Min(at(Up(e.n, r), t - 1).snd, at(r, t - 1).rcv) else at(r, t - 1).rcv
    {
      assert Is(r, t);
    }

    lemma Unstarted(r: int, t: int)
      requires Valid() && 0 <= r < e.n && t < e.n - 1 - r
      ensures at(r, t) == Start(e, r)
    {
      assert Is(r, t);
    }

    lemma Kept(r: int, t: int)
      requires Valid() && 0 <= r < e.n && t > e.n - 1 - r && !Takes(r, t)
      ensures at(r, t).hold == Left(e, at(r, t - 1).hold, BlockOf(e.n, r, t - 1).box)
    {
      assert Is(r, t);
    }

    lemma KeptLeftmost(r: int, t: int)
      requires Valid() && 0 <= r < e.n && t > e.n - 1 - r && !Takes(r, t)
      ensures Leftmost(e, at(r, t - 1).hold) <= Leftmost(e, at(r, t).hold)
    {
      Kept(r, t);
      LeftLeftmost(e, at(r, t - 1).hold, BlockOf(e.n, r, t - 1).box);
    }

    lemma SndIs(r: int, t: int)
      requires Valid() && 0 <= r < e.n && t >= e.n - 1 - r
      ensures at(r, t).snd == Min(Min(Leftmost(e, at(r, t).hold), at(r, t - 1).snd), at(r, t).rcv)
    {
      assert Is(r, t);
    }

    /** A block that receives nothing keeps the sender's minimum: what it holds was already there. */
    lemma NoDrop(r: int, t: int)
      requires Valid() && 0 <= r < e.n && t > e.n - 1 - r && !Takes(r, t)
      ensures at(r, t).snd == at(r, t - 1).snd
    {
      KeptLeftmost(r, t);
      SndIs(r, t);
      Minima(r, t - 1);
      Minima(r, t);
    }

    /** Where the sender's minimum drops, the block is the head box or one that the old minimum already let through. */
    lemma Drops(r: int, t: int)
      requires Valid() && e.skip && 0 <= r < e.n && t > e.n - 1 - r && at(r, t).snd < at(r, t - 1).snd
      ensures Box(r, t).box == e.n - 1 || at(r, t - 1).snd <= Box(r, t).box
    {
      Minima(r, t - 1);
      if !Takes(r, t) { NoDrop(r, t); }
    }

    /** The minimum before and after the block decide alike. */
    lemma DecidesAlike(r: int, t: int)
      requires Valid() && e.skip && 0 <= r < e.n && t >= e.n - 1 - r
      ensures SkipsSend(e, Box(r, t), at(r, t).snd) <==> SkipsSend(e, Box(r, t), at(r, t - 1).snd)
    {
      Minima(r, t);
      if at(r, t).snd < at(r, t - 1).snd && t > e.n - 1 - r { Drops(r, t); }
    }

    // -------------------------------------------------------------- agreement

    /** The receiver's minimum follows the sender's: when rank r is about to take the message of block t it equals
        the minimum that its upstream rank had one block earlier; in step 0 nothing has been received. */
    lemma {:induction false} Follows(r: int, t: int)
      requires Valid() && e.skip && 0 <= r < e.n && t >= e.n - 1 - r
      ensures if Box(r, t).step > 0 then at(r, t - 1).rcv == at(Up(e.n, r), t - 2).snd else at(r, t).rcv == INT_MAX
      decreases t
    {
      if t == e.n - 1 - r {
        FollowsFirst(r);
      } else {
        Follows(r, t - 1);
        if Box(r, t).step == 0 {
          Minima(r, t);
        } else if Box(r, t - 1).step == 0 {
          assert r == e.n - 1 && t == e.n;
          Unstarted(0, t - 2);
        } else {
          FollowsStep(r, t - 1);
        }
      }
    }

    lemma FollowsFirst(r: int)
      requires Valid() && 0 <= r < e.n
      ensures r < e.n - 1 ==> at(r, e.n - 2 - r).rcv == at(Up(e.n, r), e.n - 3 - r).snd
      ensures r == e.n - 1 ==> at(r, 0).rcv == INT_MAX
    {
      Unstarted(r, e.n - 2 - r);
      if r < e.n - 1 { Unstarted(r + 1, e.n - 3 - r); } else { Minima(r, 0); }
    }

    /** One message, taken or skipped, later. */
    lemma FollowsStep(r: int, t: int)
      requires Valid() && e.skip && 0 <= r < e.n && t >= e.n - 1 - r && Box(r, t).step > 0
      requires at(r, t - 1).rcv == at(Up(e.n, r), t - 2).snd
      ensures at(r, t).rcv == at(Up(e.n, r), t - 1).snd
    {
      var u := Up(e.n, r);
      UpstreamBlock(e.n, r, t);
      Minima(r, t);
      Minima(u, t - 1);
      if !Takes(r, t) && at(u, t - 1).snd < at(u, t - 2).snd && t - 1 > e.n - 1 - u { Drops(u, t - 1); }
    }

    /** Empty-box skipping agrees: the sender skips the full message of (s-1, it) exactly when the receiver skips the
        one of (s, it). */
    lemma SkippingAgrees(r: int, t: int)
      requires Valid() && 0 <= r < e.n && t >= e.n - 1 - r && Box(r, t).step > 0
      ensures t - 1 >= e.n - 1 - Up(e.n, r) && Box(Up(e.n, r), t - 1) == Block(Box(r, t).step - 1, Box(r, t).box)
      ensures SkipsSend(e, Box(Up(e.n, r), t - 1), at(Up(e.n, r), t - 1).snd) <==> SkipsReceive(e, Box(r, t), at(r, t - 1).rcv)
    {
      UpstreamBlock(e.n, r, t);
      if e.skip {
        Follows(r, t);
        DecidesAlike(Up(e.n, r), t - 1);
      }
    }

    /** The ghost message of box it > 0 is sent under the guard of box it-1, in which it is packed, on the upstream rank
        and the same diagonal, but received under the guard of box it. The two disagree exactly where `it` is the
        receiver's minimum, and at the head box when no lower box has particles: there the message is received although it
        was not sent. The other disagreement does not occur. */
    lemma GhostGuards(r: int, t: int)
      requires Valid() && e.skip && 0 <= r < e.n && t >= e.n - 1 - r && Box(r, t).step > 0 && Box(r, t).box > 0
      ensures t >= e.n - 1 - Up(e.n, r) && Box(Up(e.n, r), t) == Block(Box(r, t).step - 1, Box(r, t).box - 1)
      ensures var sent, it, l := !SkipsSend(e, Box(Up(e.n, r), t), at(Up(e.n, r), t).snd), Box(r, t).box, at(r, t).rcv;
              && (!sent && !SkipsReceive(e, Box(r, t), l) <==> it == l || (it == e.n - 1 && it <= l))
              && (SkipsReceive(e, Box(r, t), l) ==> !sent)
    {
      UpstreamBlock(e.n, r, t);
      Follows(r, t);
      FollowsStep(r, t);
      DecidesAlike(Up(e.n, r), t);
    }

    /** A box whose message is skipped is empty. */
    lemma SkippedIsEmpty(r: int, t: int)
      requires Valid() && 0 <= r < e.n && t >= e.n - 1 - r && SkipsSend(e, Box(r, t), at(r, t).snd)
      ensures InBox(e, at(r, t).hold, Box(r, t).box) == []
    {
      Minima(r, t);
      EmptyBelow(e, at(r, t).hold, Box(r, t).box);
    }
  }

  lemma UnderLeftmost(e: Env, a: seq<P>, b: int)
    requires e.n >= 1
    ensures Leftmost(e, a) <= Leftmost(e, Under(e, a, b))
  {
    var u := Under(e, a, b);
    if Leftmost(e, u) < e.n - 1 {
      var i :| 0 <= i < |u| && e.box(u[i]) == Leftmost(e, u) && Leftmost(e, u) >= 0;
      assert u[i] in a;
    }
  }

  lemma LeftLeftmost(e: Env, a: seq<P>, b: int)
    requires e.n >= 1
    ensures Leftmost(e, a) <= Leftmost(e, Left(e, a, b))
  {
    UnderLeftmost(e, a, b);
  }

  lemma {:induction false} EmptyBelow(e: Env, a: seq<P>, b: int)
    requires e.n >= 1 && 0 <= b < Leftmost(e, a)
    ensures InBox(e, a, b) == []
  {
    if a != [] { EmptyBelow(e, a[1..], b); }
  }

  ghost function RunOf(e: Env): (x: Run)
    requires e.Valid()
    ensures x.e == e && forall r, t :: 0 <= r < e.n ==> x.at(r, t) == After(e, r, t)
  {
    Run(e, (r: int, t: int) => if 0 <= r < e.n then After(e, r, t) else Start(e, r))
  }

  lemma RunOfValid(e: Env)
    requires e.Valid()
    ensures RunOf(e).Valid()
  {
    var x := RunOf(e);
    forall r: int, t: int | 0 <= r < e.n ensures x.Is(r, t) {
      assert After(e, r, t) == if t < e.n - 1 - r then Start(e, r) else Work(e, r, t, After(e, r, t - 1), After(e, Up(e.n, r), t - 1));
    }
  }

  // ---------------------------------------------------------------- what a rank holds

  lemma {:induction false} CountUnder(e: Env, a: seq<P>, b: int, p: P)
    ensures multiset(Under(e, a, b))[p] == if 0 <= e.box(p) < b then multiset(a)[p] else 0
  {
    if a != [] {
      assert a == [a[0]] + a[1..];
      CountUnder(e, a[1..], b, p);
    }
  }

  lemma {:induction false} CountInBox(e: Env, a: seq<P>, b: int, p: P)
    ensures multiset(InBox(e, a, b))[p] == if e.box(p) == b then multiset(a)[p] else 0
  {
    if a != [] {
      assert a == [a[0]] + a[1..];
      CountInBox(e, a[1..], b, p);
    }
  }

  ghost predicate UpTo(e: Env, a: seq<P>, b: int) { forall i :: 0 <= i < |a| ==> e.box(a[i]) <= b }

  lemma CountLeft(e: Env, a: seq<P>, b: int, p: P)
    requires UpTo(e, a, b) && e.box(p) >= 0
    ensures multiset(Left(e, a, b))[p] == if e.box(p) < b then multiset(a)[p] else 0
  {
    CountUnder(e, a, b, p);
    CountInBox(e, a, b, p);
    if e.box(p) > b { assert p !in a; }
  }

  lemma LeftUpTo(e: Env, a: seq<P>, b: int, c: int)
    requires UpTo(e, a, b) && (c == b - 1 || (b == 0 && c >= -1))
    ensures UpTo(e, Left(e, a, b), c)
  {
  }

  lemma CameUpTo(x: Run, r: int, t: int)
    requires x.Valid() && 0 <= r < x.e.n && t >= x.e.n - 1 - r
    ensures UpTo(x.e, Came(x, r, t), x.Box(r, t).box)
  {
    var b := x.Box(r, t);
    if x.Takes(r, t) {
      var w, a := x.at(Up(x.e.n, r), t - 1).w, InBox(x.e, x.at(Up(x.e.n, r), t - 1).hold, b.box);
      forall i | 0 <= i < |Came(x, r, t)| ensures x.e.box(Came(x, r, t)[i]) <= b.box {
        assert x.e.box(x.e.move(b.step - 1, b.box, w, a)[i]) <= b.box;
      }
    }
  }

  lemma JoinUpTo(e: Env, a: seq<P>, b: seq<P>, c: int)
    requires UpTo(e, a, c) && UpTo(e, b, c)
    ensures UpTo(e, a + b, c)
  {
  }

  /** What a rank still holds when the block begins. */
  ghost function Stays(x: Run, r: int, t: int): seq<P>
    requires x.Valid() && 0 <= r < x.e.n && t >= x.e.n - 1 - r
  {
    Remains(x.e, r, t, x.at(r, t - 1).hold)
  }

  lemma FirstStays(x: Run, r: int)
    requires x.Valid() && 0 <= r < x.e.n
    ensures Stays(x, r, x.e.n - 1 - r) == if r == x.e.n - 1 then x.e.init else []
  {
    x.Unstarted(r, x.e.n - 2 - r);
  }

  /** No particle on a rank is ahead of the box the rank works on. */
  lemma {:induction false} HoldUpTo(x: Run, r: int, t: int)
    requires x.Valid() && 0 <= r < x.e.n && t >= x.e.n - 1 - r
    ensures UpTo(x.e, x.at(r, t).hold, x.Box(r, t).box)
    decreases t
  {
    var b := x.Box(r, t).box;
    assert UpTo(x.e, Stays(x, r, t), b) by {
      if t == x.e.n - 1 - r {
        FirstStays(x, r);
      } else {
        HoldUpTo(x, r, t - 1);
        LeftUpTo(x.e, x.at(r, t - 1).hold, x.Box(r, t - 1).box, b);
      }
    }
    CameUpTo(x, r, t);
    JoinUpTo(x.e, Stays(x, r, t), Came(x, r, t), b);
    HoldIs(x, r, t);
  }

  /** How often p stays on the rank. */
  lemma CountStays(x: Run, r: int, t: int, p: P)
    requires x.Valid() && 0 <= r < x.e.n && t >= x.e.n - 1 - r && x.e.box(p) >= 0
    ensures multiset(Stays(x, r, t))[p] ==
            if t == x.e.n - 1 - r then (if r == x.e.n - 1 then multiset(x.e.init)[p] else 0)
            else if x.e.box(p) < x.Box(r, t - 1).box then multiset(x.at(r, t - 1).hold)[p] else 0
  {
    if t == x.e.n - 1 - r {
      FirstStays(x, r);
    } else {
      HoldUpTo(x, r, t - 1);
      CountLeft(x.e, x.at(r, t - 1).hold, x.Box(r, t - 1).box, p);
    }
  }

  /** What the push makes of the box one step earlier, whether or not its message is skipped. */
  lemma CameIs(x: Run, r: int, t: int)
    requires x.Valid() && 0 <= r < x.e.n && t >= x.e.n - 1 - r
    ensures var b, up := x.Box(r, t), x.at(Up(x.e.n, r), t - 1);
            Came(x, r, t) == if b.step > 0 then x.e.move(b.step - 1, b.box, up.w, InBox(x.e, up.hold, b.box)) else []
  {
    if x.Box(r, t).step > 0 && !x.Takes(r, t) {
      x.SkippingAgrees(r, t);
      x.SkippedIsEmpty(Up(x.e.n, r), t - 1);
    }
  }

  /** Conservation, with or without skipping: the particles p of the domain that a rank holds in a block are those it held in
      lower boxes in the block before (at its first block, those it was given) and those that the push has made of the same
      box one step earlier. */
  lemma HoldLaw(x: Run, r: int, t: int, p: P)
    requires x.Valid() && 0 <= r < x.e.n && t >= x.e.n - 1 - r && x.e.box(p) >= 0
    ensures var b, was, up := x.Box(r, t), x.at(r, t - 1), x.at(Up(x.e.n, r), t - 1);
            multiset(x.at(r, t).hold)[p] ==
            (if t == x.e.n - 1 - r then (if r == x.e.n - 1 then multiset(x.e.init)[p] else 0)
             else if x.e.box(p) < x.Box(r, t - 1).box then multiset(was.hold)[p] else 0)
            + if b.step > 0 then multiset(x.e.move(b.step - 1, b.box, up.w, InBox(x.e, up.hold, b.box)))[p] else 0
  {
    HoldIs(x, r, t);
    CameIs(x, r, t);
    CountStays(x, r, t, p);
    assert x.at(r, t).hold == Stays(x, r, t) + Came(x, r, t);
  }

  // ---------------------------------------------------------------- skipping against not skipping

  /** Two runs of the same simulation, with and without skipping. */
  ghost predicate Twins(x: Run, y: Run) {
    x.Valid() && y.Valid() && x.e.skip && y.e == x.e.(skip := false)
  }

  lemma {:induction false} SameSelections(e: Env, f: Env, a: seq<P>, b: int)
    requires f == e.(skip := false)
    ensures Under(f, a, b) == Under(e, a, b) && InBox(f, a, b) == InBox(e, a, b)
  {
    if a != [] { SameSelections(e, f, a[1..], b); }
  }

  /** What arrives for a block. */
  ghost function Came(x: Run, r: int, t: int): seq<P>
    requires x.Valid() && 0 <= r < x.e.n && t >= x.e.n - 1 - r
  {
    Arrives(x.e, x.Box(r, t), x.at(r, t - 1).rcv, x.at(Up(x.e.n, r), t - 1))
  }

  lemma SameCame(x: Run, y: Run, r: int, t: int)
    requires Twins(x, y) && 0 <= r < x.e.n && t >= x.e.n - 1 - r
    requires y.at(Up(x.e.n, r), t - 1).hold == x.at(Up(x.e.n, r), t - 1).hold && y.at(Up(x.e.n, r), t - 1).w == x.at(Up(x.e.n, r), t - 1).w
    ensures Came(y, r, t) == Came(x, r, t)
  {
    var b := x.Box(r, t);
    SameSelections(x.e, y.e, x.at(Up(x.e.n, r), t - 1).hold, b.box);
    if b.step > 0 && !x.Takes(r, t) {
      x.SkippingAgrees(r, t);
      x.SkippedIsEmpty(Up(x.e.n, r), t - 1);
    }
  }

  lemma HoldIs(x: Run, r: int, t: int)
    requires x.Valid() && 0 <= r < x.e.n && t >= x.e.n - 1 - r
    ensures x.at(r, t).hold == Stays(x, r, t) + Came(x, r, t)
  {
    assert x.Is(r, t);
  }

  lemma FieldsAre(x: Run, r: int, t: int)
    requires x.Valid() && 0 <= r < x.e.n && t >= x.e.n - 1 - r
    ensures x.at(r, t).w == x.e.solve(x.Box(r, t).step, x.Box(r, t).box,
                                      if x.Box(r, t).box == x.e.n - 1 then x.e.reset(x.Box(r, t).step) else x.at(r, t - 1).w, x.at(r, t).hold)
  {
    assert x.Is(r, t);
  }

  /** Skipping changes nothing: with and without it every rank holds the same particles, in the same order, and has the
      same plasma and fields. */
  lemma {:induction false} SkippingChangesNothing(x: Run, y: Run, r: int, t: int)
    requires Twins(x, y) && 0 <= r < x.e.n
    ensures y.at(r, t).hold == x.at(r, t).hold && y.at(r, t).w == x.at(r, t).w
    decreases t
  {
    if t < x.e.n - 1 - r {
      x.Unstarted(r, t);
      y.Unstarted(r, t);
    } else {
      SkippingChangesNothing(x, y, r, t - 1);
      SkippingChangesNothing(x, y, Up(x.e.n, r), t - 1);
      if t > x.e.n - 1 - r { SameSelections(x.e, y.e, x.at(r, t - 1).hold, BlockOf(x.e.n, r, t - 1).box); }
      SameCame(x, y, r, t);
      HoldIs(x, r, t);
      HoldIs(y, r, t);
      FieldsAre(x, r, t);
      FieldsAre(y, r, t);
    }
  }
}
