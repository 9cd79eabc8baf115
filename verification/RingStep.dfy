/** A transition of a rank keeps that rank's invariant. */
module RingStep {
  import opened Beam
  import opened Serial
  import opened Schedule
  import opened Ring
  import opened RingData
  import opened RingTail
  import opened RingInv

  // ---------------------------------------------------------------- what a receive takes

  /** The message a receive takes is the serial one: the time of the step, the particles packed at (step-1, box),
      the ghosts packed at (step-1, box-1). */
  ghost predicate Delivers(w: World, b: Block, rk: Rank, inc: Link)
    requires RingWorld(w) && 0 <= b.box < w.e.ranks
  {
    && (rk.ph == RecvTime && TakesTime(w.e, b) && inc.time.Ready() ==> inc.time.Front() == TimeAt(w.e, b.step))
    && (rk.ph == RecvParts && TakesFull(w.e, b) ==>
          DeliversParts(inc.parts, rk.np, x => FullPayloadOk(w, Block(b.step - 1, b.box), x)))
    && (rk.ph == RecvGhostParts && TakesGhost(w.e, b) ==>
          DeliversParts(inc.ghostParts, rk.np, x => GhostPayloadOk(w, Block(b.step - 1, b.box - 1), x)))
  }

  ghost predicate DeliversParts(parts: Chan<seq<Particle>>, np: nat, ok: seq<Particle> -> bool) {
    && (np == 0 ==> ok([]))
    && (np > 0 && parts.Ready() ==> ok(parts.Front()) && |parts.Front()| == np)
  }

  /** The particles a rank is about to receive on a packed channel, once their number np has arrived. */
  lemma PackedFront(parts: Chan<seq<Particle>>, log: seq<seq<Particle>>, x: nat, i: nat, np: nat, ok: seq<Particle> -> bool)
    requires Packed(parts.sent, log, x) && i < |log| && parts.taken == NonEmpty(log, i) && np == |log[i]| && ok(log[i])
    ensures DeliversParts(parts, np, ok)
  {
    if np == 0 {
      assert log[i] == [];
    } else if parts.Ready() {
      if i < x { assert PackedAt(parts.sent, log, i); } else { NonEmptyMonotone(log, x, i); }
    }
  }

  lemma {:induction false} DeliversTime(w: World, r: int, rk: Rank, lk: Link)
    requires RingWorld(w) && Position(w.e, r, rk) && !Finished(w.e, r, rk) && rk.ph == RecvTime
    requires TimeContent(w, Up(w.e.ranks, r), lk.time.sent) && TakeInv(w.e, r, rk, lk)
    ensures Delivers(w, Cur(w.e, r, rk), rk, lk)
  {
    if TakesTime(w.e, Cur(w.e, r, rk)) && lk.time.Ready() {
      UpstreamFull(w.e.ranks, w.e.maxStep, r, rk.t);
      assert TimeSentAt(w, Up(w.e.ranks, r), lk.time.sent, rk.t - 1);
    }
  }

  lemma {:induction false} NextFull(w: World, r: int, rk: Rank, log: seq<seq<Particle>>)
    requires RingWorld(w) && Position(w.e, r, rk) && !Finished(w.e, r, rk) && TakesFull(w.e, Cur(w.e, r, rk))
    requires FullContent(w, Up(w.e.ranks, r), log) && FullTaken(w.e.ranks, r, rk.t) < |log|
    ensures FullPayloadOk(w, Block(Cur(w.e, r, rk).step - 1, Cur(w.e, r, rk).box), log[FullTaken(w.e.ranks, r, rk.t)])
  {
    UpstreamFull(w.e.ranks, w.e.maxStep, r, rk.t);
    var b := Cur(w.e, r, rk);
    FullEntryOk(w, Up(w.e.ranks, r), log, rk.t - 1, FullTaken(w.e.ranks, r, rk.t), Block(b.step - 1, b.box));
  }

  lemma FullEntryOk(w: World, u: int, log: seq<seq<Particle>>, d: int, i: nat, b: Block)
    requires RingWorld(w) && 0 <= u < w.e.ranks && d >= w.e.ranks - 1 - u && i < |log| && FullAt(w, u, log, d)
    requires b == BlockOf(w.e.ranks, u, d) && SendsFull(w.e, b) && i == FullSent(w.e.ranks, w.e.maxStep, u, d)
    ensures FullPayloadOk(w, b, log[i])
  {
  }

  lemma {:induction false} NextGhost(w: World, r: int, rk: Rank, log: seq<seq<Particle>>)
    requires RingWorld(w) && Position(w.e, r, rk) && !Finished(w.e, r, rk) && TakesGhost(w.e, Cur(w.e, r, rk))
    requires GhostContent(w, Up(w.e.ranks, r), log) && GhostTaken(w.e.ranks, r, rk.t) < |log|
    ensures GhostPayloadOk(w, Block(Cur(w.e, r, rk).step - 1, Cur(w.e, r, rk).box - 1), log[GhostTaken(w.e.ranks, r, rk.t)])
  {
    UpstreamGhost(w.e.ranks, w.e.maxStep, r, rk.t);
    var b := Cur(w.e, r, rk);
    GhostEntryOk(w, Up(w.e.ranks, r), log, rk.t, GhostTaken(w.e.ranks, r, rk.t), Block(b.step - 1, b.box - 1));
  }

  lemma GhostEntryOk(w: World, u: int, log: seq<seq<Particle>>, d: int, i: nat, b: Block)
    requires RingWorld(w) && 0 <= u < w.e.ranks && d >= w.e.ranks - 1 - u && i < |log| && GhostAt(w, u, log, d)
    requires b == BlockOf(w.e.ranks, u, d) && SendsGhost(w.e, b) && i == GhostSent(w.e.ranks, w.e.maxStep, u, d)
    ensures GhostPayloadOk(w, b, log[i])
  {
  }

  lemma {:induction false} DeliversFull(w: World, r: int, rk: Rank, lk: Link, x: nat)
    requires RingWorld(w) && Position(w.e, r, rk) && !Finished(w.e, r, rk) && rk.ph == RecvParts
    requires FullContent(w, Up(w.e.ranks, r), lk.fullLog) && Counts(lk.count.sent, lk.fullLog) && Packed(lk.parts.sent, lk.fullLog, x)
    requires TakeInv(w.e, r, rk, lk)
    ensures Delivers(w, Cur(w.e, r, rk), rk, lk)
  {
    var b := Cur(w.e, r, rk);
    if TakesFull(w.e, b) {
      var i := FullTaken(w.e.ranks, r, rk.t);
      NextFull(w, r, rk, lk.fullLog);
      PackedFront(lk.parts, lk.fullLog, x, i, rk.np, y => FullPayloadOk(w, Block(b.step - 1, b.box), y));
    }
  }

  lemma DeliversGhost(w: World, r: int, rk: Rank, lk: Link, x: nat)
    requires RingWorld(w) && Position(w.e, r, rk) && !Finished(w.e, r, rk) && rk.ph == RecvGhostParts
    requires GhostContent(w, Up(w.e.ranks, r), lk.ghostLog) && Counts(lk.ghostCount.sent, lk.ghostLog)
    requires Packed(lk.ghostParts.sent, lk.ghostLog, x) && TakeInv(w.e, r, rk, lk)
    ensures Delivers(w, Cur(w.e, r, rk), rk, lk)
  {
    var b := Cur(w.e, r, rk);
    if TakesGhost(w.e, b) {
      var i := GhostTaken(w.e.ranks, r, rk.t);
      NextGhost(w, r, rk, lk.ghostLog);
      PackedFront(lk.ghostParts, lk.ghostLog, x, i, rk.np, y => GhostPayloadOk(w, Block(b.step - 1, b.box - 1), y));
    }
  }

  /** Message matching: whatever a rank receives next is the serial message for its block. */
  lemma {:induction false} DeliversOk(w: World, r: int, rk: Rank, lk: Link, up: Rank)
    requires RingWorld(w) && Position(w.e, r, rk) && !Finished(w.e, r, rk) && Position(w.e, Up(w.e.ranks, r), up)
    requires TakeInv(w.e, r, rk, lk) && SendInv(w, Up(w.e.ranks, r), up, lk)
    ensures Delivers(w, Cur(w.e, r, rk), rk, lk)
  {
    match rk.ph
    case RecvTime => DeliversTime(w, r, rk, lk);
    case RecvParts => DeliversFull(w, r, rk, lk, FullSent(w.e.ranks, w.e.maxStep, Up(w.e.ranks, r), up.t));
    case RecvGhostParts => DeliversGhost(w, r, rk, lk, GhostPartsCount(w.e, Up(w.e.ranks, r), up));
    case _ =>
  }

  // ---------------------------------------------------------------- inside a block

  /** A rank in block b that can move keeps its invariant. */
  ghost predicate Ready(w: World, b: Block, rk: Rank, inc: Link, c: Sorting, done: Log) {
    && RingWorld(w) && 0 <= b.box < w.e.ranks && BlockInv(w, b, rk, done)
    && Delivers(w, b, rk, inc) && CanMove(w.e, b, rk, inc, c)
  }

  lemma {:induction false} MoveRecvTime(w: World, b: Block, rk: Rank, inc: Link, c: Sorting, done: Log)
    requires Ready(w, b, rk, inc, c, done) && rk.ph == RecvTime
    ensures BlockInv(w, b, NextRank(w.e, b, rk, inc, c), done)
  {
    assert Hi(w.e, w.e.ranks - 1) + 1 == w.e.K();
  }

  lemma {:induction false} MoveRecvParts(w: World, b: Block, rk: Rank, inc: Link, c: Sorting, done: Log)
    requires Ready(w, b, rk, inc, c, done) && rk.ph == RecvParts
    ensures BlockInv(w, b, NextRank(w.e, b, rk, inc, c), done)
  {
    ReceivedParts(w, b, rk, inc);
  }

  lemma ReceivedParts(w: World, b: Block, rk: Rank, inc: Link)
    requires RingWorld(w) && 0 <= b.box < w.e.ranks && HoldsLeft(w, b, rk.arr) && rk.ph == RecvParts && Delivers(w, b, rk, inc)
    requires TakesFull(w.e, b) && rk.np > 0 ==> inc.parts.Ready()
    ensures HoldsArrived(w, b, if TakesFull(w.e, b) && rk.np > 0 then rk.arr + inc.parts.Front() else rk.arr)
  {
    if TakesFull(w.e, b) && rk.np > 0 {
      ReceiveFull(w, b, rk.arr, inc.parts.Front());
    } else {
      ReceiveNothing(w, b, rk.arr);
    }
  }

  lemma {:induction false} MoveSolveHead(w: World, b: Block, rk: Rank, inc: Link, c: Sorting, done: Log)
    requires Ready(w, b, rk, inc, c, done) && rk.ph == SolveHead
    ensures BlockInv(w, b, NextRank(w.e, b, rk, inc, c), done)
  {
    HeadOk(w, b, rk, c);
    HeadInv(w, b, rk, NextRank(w.e, b, rk, inc, c), done);
  }

  /** After the head slice. */
  ghost predicate HeadDone(w: World, b: Block, rk: Rank, r: Rank)
    requires RingWorld(w) && 0 <= b.box < w.e.ranks
  {
    var hi := Hi(w.e, b.box);
    && r.ph == AwaitGhost && r.k == hi - 1 && r.time == rk.time
    && Sorted(w, b, r) && PushedFrom(w, b.step, r, hi) && r.w == w.fields(b.step, hi)
    && r.arr[r.nreal..] == LocalGhosts(r.orig, r.off, b.box) && r.seen == Then(rk.seen, SerialSees(w, b.step, hi))
  }

  lemma {:induction false} HeadOk(w: World, b: Block, rk: Rank, c: Sorting)
    requires RingWorld(w) && 0 <= b.box < w.e.ranks && StateOk(w, b, rk) && ArrayOk(w, b, rk) && rk.ph == SolveHead
    requires GoodSorting(w.e, rk, c)
    ensures HeadDone(w, b, rk, HeadWork(w.e, b, rk, c).(ph := AwaitGhost))
  {
    HeadWorkOk(w, b, rk, c);
    var r := HeadWork(w.e, b, rk, c);
    SamePrepared(w, b, r, Hi(w.e, b.box), r.(ph := AwaitGhost));
  }

  lemma {:induction false} HeadInv(w: World, b: Block, rk: Rank, r: Rank, done: Log)
    requires RingWorld(w) && 0 <= b.box < w.e.ranks && BlockInv(w, b, rk, done) && rk.ph == SolveHead
    requires HeadDone(w, b, rk, r)
    ensures BlockInv(w, b, r, done)
  {
    var hi := Hi(w.e, b.box);
    assert SeesDown(w, b.step, hi, hi + 1, done) == done;
  }

  /** Changing the phase, or a number just received, does not touch the array. */
  lemma SamePrepared(w: World, b: Block, rk: Rank, cur: int, r: Rank)
    requires RingWorld(w) && 0 <= b.box < w.e.ranks && Sorted(w, b, rk) && PushedFrom(w, b.step, rk, cur)
    requires r.arr == rk.arr && r.nreal == rk.nreal && r.off == rk.off && r.bin == rk.bin && r.orig == rk.orig
    ensures Sorted(w, b, r) && PushedFrom(w, b.step, r, cur)
  {
  }

  lemma {:induction false} MoveSolveCentral(w: World, b: Block, rk: Rank, inc: Link, c: Sorting, done: Log)
    requires Ready(w, b, rk, inc, c, done) && rk.ph == SolveCentral
    ensures BlockInv(w, b, NextRank(w.e, b, rk, inc, c), done)
  {
    if rk.k > Lo(w.e, b.box) {
      CentralSlice(w, b, rk);
      CentralInv(w, b, rk, NextRank(w.e, b, rk, inc, c), done);
    } else {
      CentralDone(w, b, rk, done);
    }
  }

  lemma {:induction false} CentralDone(w: World, b: Block, rk: Rank, done: Log)
    requires RingWorld(w) && 0 <= b.box < w.e.ranks && BlockInv(w, b, rk, done) && rk.ph == SolveCentral && rk.k <= Lo(w.e, b.box)
    ensures BlockInv(w, b, rk.(ph := RecvGhostCount), done)
  {
  }

  /** After slice k, with the slice counter moved on. */
  ghost predicate CentralSolved(w: World, b: Block, rk: Rank, r: Rank)
    requires RingWorld(w) && 0 <= b.box < w.e.ranks
  {
    Split(rk) && r.k == rk.k - 1 && Solved(w, b, rk, rk.k, r.(k := rk.k))
  }

  lemma {:induction false} CentralSlice(w: World, b: Block, rk: Rank)
    requires RingWorld(w) && 0 <= b.box < w.e.ranks && StateOk(w, b, rk) && ArrayOk(w, b, rk) && rk.ph == SolveCentral
    requires rk.k > Lo(w.e, b.box)
    ensures CentralSolved(w, b, rk, SolveSlice(w.e, b.step, rk, rk.k, Lo(w.e, b.box)).(k := rk.k - 1))
  {
    SliceRange(w, b.box);
    SolveSliceOk(w, b, rk, rk.k);
    var r := SolveSlice(w.e, b.step, rk, rk.k, Lo(w.e, b.box));
    assert r.(k := rk.k - 1).(k := rk.k) == r;
  }

  lemma {:induction false} CentralInv(w: World, b: Block, rk: Rank, r: Rank, done: Log)
    requires RingWorld(w) && 0 <= b.box < w.e.ranks && BlockInv(w, b, rk, done) && rk.ph == SolveCentral
    requires rk.k > Lo(w.e, b.box) && CentralSolved(w, b, rk, r)
    ensures BlockInv(w, b, r, done)
  {
    CentralState(w, b, rk, r);
    CentralArray(w, b, rk, r);
  }

  lemma {:induction false} CentralState(w: World, b: Block, rk: Rank, r: Rank)
    requires RingWorld(w) && 0 <= b.box < w.e.ranks && StateOk(w, b, rk) && rk.ph == SolveCentral && rk.k > Lo(w.e, b.box)
    requires r == rk.(k := rk.k - 1, arr := r.arr, w := r.w, seen := r.seen) && r.w == w.fields(b.step, rk.k)
    ensures StateOk(w, b, r) && Cursor(w.e, b, r) == rk.k && Cursor(w.e, b, rk) == rk.k + 1
  {
  }

  lemma {:induction false} CentralArray(w: World, b: Block, rk: Rank, r: Rank)
    requires RingWorld(w) && 0 <= b.box < w.e.ranks && ArrayOk(w, b, rk) && rk.ph == SolveCentral && Split(rk)
    requires r.k == rk.k - 1 && SolvedArray(w, b, rk, rk.k, r.(k := rk.k))
    ensures ArrayOk(w, b, r)
  {
    SamePrepared(w, b, r.(k := rk.k), rk.k, r);
  }

  lemma {:induction false} MoveRecvGhostParts(w: World, b: Block, rk: Rank, inc: Link, c: Sorting, done: Log)
    requires Ready(w, b, rk, inc, c, done) && rk.ph == RecvGhostParts
    ensures BlockInv(w, b, NextRank(w.e, b, rk, inc, c), done)
  {
    var recv := ReceivedGhosts(w, b, rk, inc);
    AppendGhosts(w, b, rk, recv, NextRank(w.e, b, rk, inc, c), done);
  }

  lemma ReceivedGhosts(w: World, b: Block, rk: Rank, inc: Link) returns (recv: seq<Particle>)
    requires RingWorld(w) && 0 <= b.box < w.e.ranks && rk.ph == RecvGhostParts && Delivers(w, b, rk, inc)
    requires TakesGhost(w.e, b) && rk.np > 0 ==> inc.ghostParts.Ready()
    ensures if TakesGhost(w.e, b) then GhostPayloadOk(w, Block(b.step - 1, b.box - 1), recv) else recv == []
    ensures rk.arr + recv == if TakesGhost(w.e, b) && rk.np > 0 then rk.arr + inc.ghostParts.Front() else rk.arr
  {
    recv := if TakesGhost(w.e, b) && rk.np > 0 then inc.ghostParts.Front() else [];
  }

  lemma {:induction false} AppendGhosts(w: World, b: Block, rk: Rank, recv: seq<Particle>, r: Rank, done: Log)
    requires RingWorld(w) && 0 <= b.box < w.e.ranks && BlockInv(w, b, rk, done) && rk.ph == RecvGhostParts
    requires if TakesGhost(w.e, b) then GhostPayloadOk(w, Block(b.step - 1, b.box - 1), recv) else recv == []
    requires r == rk.(ph := SolveTail, arr := rk.arr + recv)
    ensures BlockInv(w, b, r, done)
  {
    assert (rk.arr + recv)[rk.nreal..] == rk.arr[rk.nreal..] + recv;
    assert Sorted(w, b, r) && PushedFrom(w, b.step, r, Lo(w.e, b.box) + 1);
    assert GhostTail(w, b, r, recv);
  }

  lemma {:induction false} MoveSolveTail(w: World, b: Block, rk: Rank, inc: Link, c: Sorting, done: Log)
    requires Ready(w, b, rk, inc, c, done) && rk.ph == SolveTail
    ensures BlockInv(w, b, NextRank(w.e, b, rk, inc, c), done)
  {
    TailOk(w, b, rk);
    TailInv(w, b, rk, NextRank(w.e, b, rk, inc, c), done);
  }

  /** After the tail slice. */
  ghost predicate TailDone(w: World, b: Block, rk: Rank, r: Rank)
    requires RingWorld(w) && 0 <= b.box < w.e.ranks
  {
    var lo := Lo(w.e, b.box);
    && r.ph == AwaitFull && r.time == rk.time
    && Sorted(w, b, r) && PushedFrom(w, b.step, r, lo) && r.w == w.fields(b.step, lo) && |r.arr| == r.nreal
    && r.seen == Then(rk.seen, SerialSees(w, b.step, lo))
  }

  lemma {:induction false} TailOk(w: World, b: Block, rk: Rank)
    requires RingWorld(w) && 0 <= b.box < w.e.ranks && StateOk(w, b, rk) && ArrayOk(w, b, rk) && rk.ph == SolveTail
    ensures TailDone(w, b, rk, TailWork(w.e, b, rk).(ph := AwaitFull))
  {
    var recv :| GhostTail(w, b, rk, recv);
    TailWorkOk(w, b, rk, recv);
    var r := TailWork(w.e, b, rk);
    SamePrepared(w, b, r, Lo(w.e, b.box), r.(ph := AwaitFull));
  }

  lemma {:induction false} TailInv(w: World, b: Block, rk: Rank, r: Rank, done: Log)
    requires RingWorld(w) && 0 <= b.box < w.e.ranks && BlockInv(w, b, rk, done) && rk.ph == SolveTail && TailDone(w, b, rk, r)
    ensures BlockInv(w, b, r, done)
  {
    SliceRange(w, b.box);
    TailState(w, b, rk, r);
  }

  lemma {:induction false} TailState(w: World, b: Block, rk: Rank, r: Rank)
    requires RingWorld(w) && 0 <= b.box < w.e.ranks && StateOk(w, b, rk) && rk.ph == SolveTail && TailDone(w, b, rk, r)
    ensures StateOk(w, b, r) && ArrayOk(w, b, r) && Cursor(w.e, b, r) == Lo(w.e, b.box) && Cursor(w.e, b, rk) == Lo(w.e, b.box) + 1
  {
  }

  /** Transitions that only send or count. */
  predicate Quiet(ph: Phase) {
    ph in {RecvCount, AwaitGhost, SendGhostCount, SendGhostParts, RecvGhostCount, AwaitFull, SendTime, SendCount}
  }

  lemma MoveOther(w: World, b: Block, rk: Rank, r: Rank, done: Log)
    requires RingWorld(w) && 0 <= b.box < w.e.ranks && BlockInv(w, b, rk, done) && r == rk.(ph := Succ(rk.ph), np := r.np)
    requires Quiet(rk.ph)
    ensures BlockInv(w, b, r, done)
  {
    OtherState(w, b, rk, r);
    OtherArray(w, b, rk, r);
  }

  lemma {:induction false} OtherState(w: World, b: Block, rk: Rank, r: Rank)
    requires RingWorld(w) && 0 <= b.box < w.e.ranks && StateOk(w, b, rk) && r == rk.(ph := Succ(rk.ph), np := r.np) && Quiet(rk.ph)
    ensures StateOk(w, b, r) && Cursor(w.e, b, r) == Cursor(w.e, b, rk)
  {
    SliceRange(w, b.box);
  }

  lemma {:induction false} OtherArray(w: World, b: Block, rk: Rank, r: Rank)
    requires RingWorld(w) && 0 <= b.box < w.e.ranks && ArrayOk(w, b, rk) && r == rk.(ph := Succ(rk.ph), np := r.np) && Quiet(rk.ph)
    requires Cursor(w.e, b, r) == Cursor(w.e, b, rk)
    ensures ArrayOk(w, b, r)
  {
    if rk.ph == RecvCount {
    } else if Ord(rk.ph) < 10 {
      OtherMiddle(w, b, rk, r, Cursor(w.e, b, rk));
    } else {
      OtherEnd(w, b, rk, r);
    }
  }

  lemma OtherMiddle(w: World, b: Block, rk: Rank, r: Rank, cur: int)
    requires RingWorld(w) && 0 <= b.box < w.e.ranks && ArrayOk(w, b, rk) && r == rk.(ph := r.ph, np := r.np)
    requires 4 <= Ord(rk.ph) <= 9 && 4 <= Ord(r.ph) <= 9 && cur == Cursor(w.e, b, rk) == Cursor(w.e, b, r)
    ensures ArrayOk(w, b, r)
  {
    SamePrepared(w, b, rk, cur, r);
  }

  lemma OtherEnd(w: World, b: Block, rk: Rank, r: Rank)
    requires RingWorld(w) && 0 <= b.box < w.e.ranks && ArrayOk(w, b, rk) && r == rk.(ph := r.ph, np := r.np)
    requires 11 <= Ord(rk.ph) && 11 <= Ord(r.ph)
    ensures ArrayOk(w, b, r)
  {
    SamePrepared(w, b, rk, Lo(w.e, b.box), r);
  }

  /** Every transition inside a block keeps the invariant of the block. */
  lemma {:induction false} MoveInside(w: World, b: Block, rk: Rank, inc: Link, c: Sorting, done: Log)
    requires Ready(w, b, rk, inc, c, done) && rk.ph != SendParts
    ensures BlockInv(w, b, NextRank(w.e, b, rk, inc, c), done)
  {
    if rk.ph == RecvTime { MoveRecvTime(w, b, rk, inc, c, done); }
    else if rk.ph == RecvParts { MoveRecvParts(w, b, rk, inc, c, done); }
    else if rk.ph == SolveHead { MoveSolveHead(w, b, rk, inc, c, done); }
    else if rk.ph == SolveCentral { MoveSolveCentral(w, b, rk, inc, c, done); }
    else if rk.ph == RecvGhostParts { MoveRecvGhostParts(w, b, rk, inc, c, done); }
    else if rk.ph == SolveTail { MoveSolveTail(w, b, rk, inc, c, done); }
    else { MoveOther(w, b, rk, NextRank(w.e, b, rk, inc, c), done); }
  }

  // ---------------------------------------------------------------- from block to block

  lemma {:induction false} MoveSendParts(w: World, b: Block, rk: Rank, inc: Link, c: Sorting, done: Log)
    requires Ready(w, b, rk, inc, c, done) && rk.ph == SendParts
    ensures BlockInv(w, NextBlock(w.e.ranks, b), NextRank(w.e, b, rk, inc, c),
                     SeesDown(w, b.step, Hi(w.e, b.box), Lo(w.e, b.box), done))
  {
    var r := NextRank(w.e, b, rk, inc, c);
    LeftAfter(w, b, rk, r.arr);
  }

  lemma {:induction false} NextPosition(e: Env, r: int, rk: Rank, inc: Link, c: Sorting)
    requires RingEnv(e) && Position(e, r, rk) && !Finished(e, r, rk) && CanMove(e, Cur(e, r, rk), rk, inc, c)
    ensures Position(e, r, NextRank(e, Cur(e, r, rk), rk, inc, c))
  {
  }

  lemma {:induction false} MoveRankOn(w: World, r: int, rk: Rank, inc: Link, c: Sorting, nx: Rank)
    requires RingWorld(w) && RankInv(w, r, rk) && !Finished(w.e, r, rk) && rk.ph == SendParts && Position(w.e, r, nx)
    requires Delivers(w, Cur(w.e, r, rk), rk, inc) && CanMove(w.e, Cur(w.e, r, rk), rk, inc, c)
    requires nx == NextRank(w.e, Cur(w.e, r, rk), rk, inc, c) && nx.t == rk.t + 1
    ensures RankInv(w, r, nx)
  {
    var b := Cur(w.e, r, rk);
    MoveSendParts(w, b, rk, inc, c, SeenBefore(w, r, rk.t));
    assert BlockOf(w.e.ranks, r, rk.t + 1) == NextBlock(w.e.ranks, b);
  }

  lemma {:induction false} MoveRankInside(w: World, r: int, rk: Rank, inc: Link, c: Sorting, nx: Rank)
    requires RingWorld(w) && RankInv(w, r, rk) && !Finished(w.e, r, rk) && rk.ph != SendParts && Position(w.e, r, nx)
    requires Delivers(w, Cur(w.e, r, rk), rk, inc) && CanMove(w.e, Cur(w.e, r, rk), rk, inc, c)
    requires nx == NextRank(w.e, Cur(w.e, r, rk), rk, inc, c) && nx.t == rk.t
    ensures RankInv(w, r, nx)
  {
    MoveInside(w, Cur(w.e, r, rk), rk, inc, c, SeenBefore(w, r, rk.t));
  }

  /** A rank that moves keeps its invariant. */
  lemma {:induction false} MoveRank(w: World, r: int, rk: Rank, inc: Link, c: Sorting)
    requires RingWorld(w) && RankInv(w, r, rk) && !Finished(w.e, r, rk)
    requires Delivers(w, Cur(w.e, r, rk), rk, inc) && CanMove(w.e, Cur(w.e, r, rk), rk, inc, c)
    ensures RankInv(w, r, NextRank(w.e, Cur(w.e, r, rk), rk, inc, c))
  {
    NextPosition(w.e, r, rk, inc, c);
    if rk.ph == SendParts {
      NextTurn(w.e, Cur(w.e, r, rk), rk, inc, c);
      MoveRankOn(w, r, rk, inc, c, NextRank(w.e, Cur(w.e, r, rk), rk, inc, c));
    } else {
      SameTurn(w.e, Cur(w.e, r, rk), rk, inc, c);
      MoveRankInside(w, r, rk, inc, c, NextRank(w.e, Cur(w.e, r, rk), rk, inc, c));
    }
  }

  lemma NextTurn(e: Env, b: Block, rk: Rank, inc: Link, c: Sorting)
    requires RingEnv(e) && 0 <= b.box < e.ranks && CanMove(e, b, rk, inc, c) && rk.ph == SendParts
    ensures NextRank(e, b, rk, inc, c).t == rk.t + 1
  {
  }

  lemma SameTurn(e: Env, b: Block, rk: Rank, inc: Link, c: Sorting)
    requires RingEnv(e) && 0 <= b.box < e.ranks && CanMove(e, b, rk, inc, c) && rk.ph != SendParts
    ensures NextRank(e, b, rk, inc, c).t == rk.t
  {
  }
}
