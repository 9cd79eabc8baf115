/** The fixed schedule of the ring: which block (step, box) a rank works on, and how many messages it has sent
    and taken by then. Rank r runs steps n-1-r, 2n-1-r, ... and, in each, the boxes n-1 down to 0; its blocks
    are numbered by the diagonal t = step + n-1 - box, so it works on exactly one block per diagonal. */
module Schedule {
  import opened Arith

  datatype Block = Block(step: nat, box: int)

  /** The block a rank works on after b. */
  function NextBlock(n: nat, b: Block): Block { if b.box > 0 then Block(b.step, b.box - 1) else Block(b.step + n, n - 1) }

  function BlockOf(n: int, r: int, t: int): (b: Block)
    requires 0 <= r < n && t >= n - 1 - r
    ensures 0 <= b.box < n && b.step + n - 1 - b.box == t && b.step >= n - 1 - r
    decreases t
  {
    if t == n - 1 - r then Block(n - 1 - r, n - 1) else NextBlock(n, BlockOf(n, r, t - 1))
  }

  /** The rank that runs step s: steps are dealt out from the head rank down, round and round. */
  function Owner(n: int, s: nat): (r: int)
    requires n >= 1
    ensures 0 <= r < n && s >= n - 1 - r
  {
    if s < n then n - 1 - s else Owner(n, s - n)
  }

  /** The owner of a step, counted down from the head rank. */
  lemma {:induction false} OwnerIs(n: int, s: nat)
    requires n >= 1
    ensures Owner(n, s) == n - 1 - s % n
    decreases s
  {
    if s >= n {
      OwnerIs(n, s - n);
      DivMod(s - n, n);
      DivUnique(s, n, (s - n) / n + 1, (s - n) % n);
    } else {
      DivUnique(s, n, 0, s);
    }
  }

  lemma {:induction false} StepOfRank(n: int, r: int, t: int)
    requires 0 <= r < n && t >= n - 1 - r
    ensures Owner(n, BlockOf(n, r, t).step) == r
    decreases t
  {
    if t > n - 1 - r { StepOfRank(n, r, t - 1); }
  }

  /** Every block of every step is worked on, by the owner of the step, on its diagonal. */
  lemma {:induction false} OwnerBlock(n: int, s: nat, box: int)
    requires n >= 1 && 0 <= box < n
    ensures BlockOf(n, Owner(n, s), s + n - 1 - box) == Block(s, box)
    decreases s, n - box
  {
    if box < n - 1 {
      OwnerBlock(n, s, box + 1);
    } else if s >= n {
      OwnerBlock(n, s - n, 0);
    }
  }

  /** The rank r receives from, and the rank it sends to. */
  function Up(n: int, r: int): (u: int)
    requires 0 <= r < n
    ensures 0 <= u < n
  {
    if r == n - 1 then 0 else r + 1
  }

  function Down(n: int, r: int): (d: int)
    requires 0 <= r < n
    ensures 0 <= d < n && Up(n, d) == r
  {
    if r == 0 then n - 1 else r - 1
  }

  lemma {:induction false} FirstStep(n: int, t: int)
    requires 0 <= t < n
    ensures BlockOf(n, n - 1, t) == Block(0, n - 1 - t)
  {
    if t > 0 { FirstStep(n, t - 1); }
  }

  /** Box `box` of step s > 0 comes from the same box of step s-1, one diagonal earlier, on the rank upstream. */
  lemma {:induction false} UpstreamBlock(n: int, r: int, t: int)
    requires 0 <= r < n && t >= n - 1 - r && BlockOf(n, r, t).step > 0
    ensures t - 1 >= n - 1 - Up(n, r)
    ensures BlockOf(n, Up(n, r), t - 1) == Block(BlockOf(n, r, t).step - 1, BlockOf(n, r, t).box)
    decreases t
  {
    if r == n - 1 && t <= n {
      FirstUpstream(n, t);
    } else if t > n - 1 - r {
      if BlockOf(n, r, t - 1).step > 0 {
        UpstreamBlock(n, r, t - 1);
        UpstreamNext(n, Up(n, r), r, t, BlockOf(n, r, t - 1));
      }
    }
  }

  lemma FirstUpstream(n: int, t: int)
    requires 0 < n && 0 <= t <= n && BlockOf(n, n - 1, t).step > 0
    ensures t == n && BlockOf(n, n - 1, t) == Block(n, n - 1) && BlockOf(n, 0, n - 1) == Block(n - 1, n - 1)
  {
    if t < n { FirstStep(n, t); } else { FirstStep(n, n - 1); }
  }

  lemma UpstreamNext(n: int, u: int, r: int, t: int, b: Block)
    requires 0 <= u < n && 0 <= r < n && t - 1 >= n - 1 - r && t - 2 >= n - 1 - u && b.step > 0
    requires BlockOf(n, r, t - 1) == b && BlockOf(n, u, t - 2) == Block(b.step - 1, b.box)
    ensures BlockOf(n, u, t - 1) == Block(BlockOf(n, r, t).step - 1, BlockOf(n, r, t).box)
  {
  }

  lemma StepMonotone(n: int, r: int, t: int, u: int)
    requires 0 <= r < n && n - 1 - r <= t <= u
    ensures BlockOf(n, r, t).step <= BlockOf(n, r, u).step
    decreases u
  {
    if t < u { StepMonotone(n, r, t, u - 1); }
  }

  // ---------------------------------------------------------------- messages sent and taken before diagonal t

  /** Full-box messages: one for every block of a step before the last step m. */
  function FullSent(n: int, m: nat, r: int, t: int): (c: nat)
    requires 0 <= r < n
    decreases t
  {
    if t <= n - 1 - r || t <= 0 then 0
    else FullSent(n, m, r, t - 1) + (if BlockOf(n, r, t - 1).step < m then 1 else 0)
  }

  /** Physical times: one for every head box of a step before the last. */
  function TimeSent(n: int, m: nat, r: int, t: int): (c: nat)
    requires 0 <= r < n
    decreases t
  {
    if t <= n - 1 - r || t <= 0 then 0
    else TimeSent(n, m, r, t - 1) + (if BlockOf(n, r, t - 1).step < m && BlockOf(n, r, t - 1).box == n - 1 then 1 else 0)
  }

  /** Ghost messages: every box but the head box sends its head slice. */
  function GhostSent(n: int, m: nat, r: int, t: int): (c: nat)
    requires 0 <= r < n
    decreases t
  {
    if t <= n - 1 - r || t <= 0 then 0
    else GhostSent(n, m, r, t - 1) + (if BlockOf(n, r, t - 1).step < m && BlockOf(n, r, t - 1).box < n - 1 then 1 else 0)
  }

  function FullTaken(n: int, r: int, t: int): (c: nat)
    requires 0 <= r < n
    decreases t
  {
    if t <= n - 1 - r || t <= 0 then 0
    else FullTaken(n, r, t - 1) + (if BlockOf(n, r, t - 1).step > 0 then 1 else 0)
  }

  function TimeTaken(n: int, r: int, t: int): (c: nat)
    requires 0 <= r < n
    decreases t
  {
    if t <= n - 1 - r || t <= 0 then 0
    else TimeTaken(n, r, t - 1) + (if BlockOf(n, r, t - 1).step > 0 && BlockOf(n, r, t - 1).box == n - 1 then 1 else 0)
  }

  function GhostTaken(n: int, r: int, t: int): (c: nat)
    requires 0 <= r < n
    decreases t
  {
    if t <= n - 1 - r || t <= 0 then 0
    else GhostTaken(n, r, t - 1) + (if BlockOf(n, r, t - 1).step > 0 && BlockOf(n, r, t - 1).box > 0 then 1 else 0)
  }

  /** The number of messages a rank has taken before a block is the number its upstream rank has sent before
      the matching block: full messages and times match one diagonal back, ghosts on the same diagonal. */
  lemma {:induction false} Matching(n: int, m: nat, r: int, t: int)
    requires 0 <= r < n && t >= n - 1 - r
    requires t > n - 1 - r ==> BlockOf(n, r, t - 1).step <= m
    ensures FullTaken(n, r, t) == FullSent(n, m, Up(n, r), t - 1)
    ensures TimeTaken(n, r, t) == TimeSent(n, m, Up(n, r), t - 1)
    ensures GhostTaken(n, r, t) == GhostSent(n, m, Up(n, r), t)
    decreases t
  {
    if t == n - 1 - r {
      NothingSent(n, m, r);
    } else {
      Matching(n, m, r, t - 1);
      MatchingStep(n, m, r, t);
    }
  }

  /** One block of the receiver against the matching block of the sender. */
  lemma MatchingStep(n: int, m: nat, r: int, t: int)
    requires 0 <= r < n && t > n - 1 - r && BlockOf(n, r, t - 1).step <= m
    ensures FullTaken(n, r, t) - FullTaken(n, r, t - 1) == FullSent(n, m, Up(n, r), t - 1) - FullSent(n, m, Up(n, r), t - 2)
    ensures TimeTaken(n, r, t) - TimeTaken(n, r, t - 1) == TimeSent(n, m, Up(n, r), t - 1) - TimeSent(n, m, Up(n, r), t - 2)
    ensures GhostTaken(n, r, t) - GhostTaken(n, r, t - 1) == GhostSent(n, m, Up(n, r), t) - GhostSent(n, m, Up(n, r), t - 1)
  {
    if BlockOf(n, r, t - 1).step > 0 {
      UpstreamBlock(n, r, t - 1);
      MatchingBlock(n, m, r, t);
    } else {
      FirstStepTakesNothing(n, m, r, t);
    }
  }

  lemma NothingSent(n: int, m: nat, r: int)
    requires 0 <= r < n
    ensures FullSent(n, m, Up(n, r), n - 2 - r) == 0
    ensures TimeSent(n, m, Up(n, r), n - 2 - r) == 0
    ensures GhostSent(n, m, Up(n, r), n - 1 - r) == 0
  {
    if 0 < n - 1 - r { assert BlockOf(n, r + 1, n - 2 - r) == Block(n - 2 - r, n - 1); }
  }

  lemma MatchingBlock(n: int, m: nat, r: int, t: int)
    requires 0 <= r < n && t > n - 1 - r && 0 < BlockOf(n, r, t - 1).step <= m
    requires t - 2 >= n - 1 - Up(n, r)
    requires BlockOf(n, Up(n, r), t - 2) == Block(BlockOf(n, r, t - 1).step - 1, BlockOf(n, r, t - 1).box)
    ensures FullTaken(n, r, t) - FullTaken(n, r, t - 1) == FullSent(n, m, Up(n, r), t - 1) - FullSent(n, m, Up(n, r), t - 2)
    ensures TimeTaken(n, r, t) - TimeTaken(n, r, t - 1) == TimeSent(n, m, Up(n, r), t - 1) - TimeSent(n, m, Up(n, r), t - 2)
    ensures GhostTaken(n, r, t) - GhostTaken(n, r, t - 1) == GhostSent(n, m, Up(n, r), t) - GhostSent(n, m, Up(n, r), t - 1)
  {
    var b := BlockOf(n, r, t - 1);
    assert BlockOf(n, Up(n, r), t - 1) == if b.box > 0 then Block(b.step - 1, b.box - 1) else Block(b.step - 1 + n, n - 1);
  }

  /** Step 0 takes no message, and the rank upstream of it has not sent any by then. */
  lemma FirstStepTakesNothing(n: int, m: nat, r: int, t: int)
    requires 0 <= r < n && t > n - 1 - r && BlockOf(n, r, t - 1).step == 0
    ensures FullTaken(n, r, t) == FullTaken(n, r, t - 1) && FullSent(n, m, Up(n, r), t - 1) == FullSent(n, m, Up(n, r), t - 2)
    ensures TimeTaken(n, r, t) == TimeTaken(n, r, t - 1) && TimeSent(n, m, Up(n, r), t - 1) == TimeSent(n, m, Up(n, r), t - 2)
    ensures GhostTaken(n, r, t) == GhostTaken(n, r, t - 1) && GhostSent(n, m, Up(n, r), t) == GhostSent(n, m, Up(n, r), t - 1)
  {
    assert r == n - 1 && Up(n, r) == 0 && t <= n;
    if t == n { assert BlockOf(n, 0, n - 1) == Block(n - 1, n - 1); }
  }

  /** The full message (time) a rank takes next, seen from the rank upstream: diagonal, block and index in the log. */
  lemma UpstreamFull(n: int, m: nat, r: int, t: int)
    requires 0 <= r < n && t >= n - 1 - r && (t > n - 1 - r ==> BlockOf(n, r, t - 1).step <= m)
    requires BlockOf(n, r, t).step > 0
    ensures t - 1 >= n - 1 - Up(n, r)
    ensures BlockOf(n, Up(n, r), t - 1) == Block(BlockOf(n, r, t).step - 1, BlockOf(n, r, t).box)
    ensures FullTaken(n, r, t) == FullSent(n, m, Up(n, r), t - 1) && TimeTaken(n, r, t) == TimeSent(n, m, Up(n, r), t - 1)
  {
    UpstreamBlock(n, r, t);
    Matching(n, m, r, t);
  }

  /** The same for the ghost message. */
  lemma UpstreamGhost(n: int, m: nat, r: int, t: int)
    requires 0 <= r < n && t >= n - 1 - r && (t > n - 1 - r ==> BlockOf(n, r, t - 1).step <= m)
    requires BlockOf(n, r, t).step > 0 && BlockOf(n, r, t).box > 0
    ensures t > n - 1 - Up(n, r)
    ensures BlockOf(n, Up(n, r), t) == Block(BlockOf(n, r, t).step - 1, BlockOf(n, r, t).box - 1)
    ensures GhostTaken(n, r, t) == GhostSent(n, m, Up(n, r), t)
  {
    UpstreamBlock(n, r, t);
    Matching(n, m, r, t);
  }

  lemma {:induction false} SentMonotone(n: int, m: nat, r: int, t: int, u: int)
    requires 0 <= r < n && t <= u
    ensures FullSent(n, m, r, t) <= FullSent(n, m, r, u)
    ensures TimeSent(n, m, r, t) <= TimeSent(n, m, r, u)
    ensures GhostSent(n, m, r, t) <= GhostSent(n, m, r, u)
    decreases u - t
  {
    if t < u { SentMonotone(n, m, r, t, u - 1); }
  }

  /** From the last step on a rank sends nothing. */
  lemma {:induction false} SentConstant(n: int, m: nat, r: int, t: int, u: int)
    requires 0 <= r < n && n - 1 - r <= t <= u && BlockOf(n, r, t).step >= m
    ensures FullSent(n, m, r, t) == FullSent(n, m, r, u)
    ensures TimeSent(n, m, r, t) == TimeSent(n, m, r, u)
    ensures GhostSent(n, m, r, t) == GhostSent(n, m, r, u)
    decreases u - t
  {
    if t < u {
      SentConstant(n, m, r, t, u - 1);
      StepMonotone(n, r, t, u - 1);
    }
  }
}
