/** The invariant holds in every reachable state. */
module RingRun {
  import opened Beam
  import opened Serial
  import opened Schedule
  import opened Ring
  import opened RingData
  import opened RingInv
  import opened RingStep
  import opened RingLinks

  // ---------------------------------------------------------------- one transition

  lemma {:induction false} StepRank(w: World, st: State, r: int, c: Sorting)
    requires RingWorld(w) && Inv(w, st) && CanStep(w.e, st, r, c)
    ensures RankInv(w, r, NextRank(w.e, Cur(w.e, r, st.ranks[r]), st.ranks[r], st.links[Up(w.e.ranks, r)], c))
  {
    var u := Up(w.e.ranks, r);
    DeliversOk(w, r, st.ranks[r], st.links[u], st.ranks[u]);
    MoveRank(w, r, st.ranks[r], st.links[u], c);
  }

  /** A moving rank and its incoming link. */
  ghost predicate Moving(w: World, r: int, rk: Rank, inc: Link, c: Sorting, nx: Rank) {
    && RingWorld(w) && RankInv(w, r, rk) && TakeInv(w.e, r, rk, inc)
    && Counts(inc.count.sent, inc.fullLog) && Counts(inc.ghostCount.sent, inc.ghostLog)
    && CanMove(w.e, Cur(w.e, r, rk), rk, inc, c) && nx == NextRank(w.e, Cur(w.e, r, rk), rk, inc, c) && RankInv(w, r, nx)
  }

  lemma TakeFromSame(e: Env, b: Block, rk: Rank, lk: Link)
    ensures SameSent(lk, TakeFrom(e, b, rk, lk))
  {
  }

  lemma {:induction false} LinkSend(w: World, r: int, rk: Rank, inc: Link, c: Sorting, nx: Rank, l: int, snd: Rank, lk: Link)
    requires Moving(w, r, rk, inc, c, nx) && Position(w.e, l, snd) && SendInv(w, l, snd, lk) && (l == r ==> snd == rk)
    ensures SendInv(w, l, if l == r then nx else snd, NextLink(w.e, Cur(w.e, r, rk), r, rk, inc, c, l, lk))
  {
    var b := Cur(w.e, r, rk);
    TakeFromSame(w.e, b, rk, lk);
    var taken := if l == Up(w.e.ranks, r) then TakeFrom(w.e, b, rk, lk) else lk;
    if l == r {
      TakesTurn(w.e, b, rk, inc, c);
      OutgoingOk(w, r, rk, lk, taken, nx);
    } else {
      LinkSendOther(w, r, rk, inc, c, nx, l, snd, lk);
    }
  }

  lemma {:induction false} LinkSendOther(w: World, r: int, rk: Rank, inc: Link, c: Sorting, nx: Rank, l: int, snd: Rank, lk: Link)
    requires Moving(w, r, rk, inc, c, nx) && Position(w.e, l, snd) && SendInv(w, l, snd, lk) && l != r
    requires SameSent(lk, TakeFrom(w.e, Cur(w.e, r, rk), rk, lk))
    ensures SendInv(w, l, snd, NextLink(w.e, Cur(w.e, r, rk), r, rk, inc, c, l, lk))
  {
    if l == Up(w.e.ranks, r) { SendFrame(w, l, snd, lk, TakeFrom(w.e, Cur(w.e, r, rk), rk, lk)); }
  }

  lemma {:induction false} LinkTakeOwn(w: World, r: int, rk: Rank, inc: Link, c: Sorting, nx: Rank)
    requires Moving(w, r, rk, inc, c, nx)
    ensures TakeInv(w.e, r, nx, TakeFrom(w.e, Cur(w.e, r, rk), rk, inc))
  {
    TakesUpOk(w.e, Cur(w.e, r, rk), rk, inc, c);
    TakeSide(w.e, r, rk, inc, nx);
  }

  lemma {:induction false} LinkTakeMore(e: Env, b: Block, rk: Rank, q: int, rcv: Rank, lk: Link)
    requires RingEnv(e) && 0 <= b.box < e.ranks && Position(e, q, rcv) && TakeInv(e, q, rcv, lk)
    requires rk.ph in {SendGhostCount, SendGhostParts} ==> Split(rk)
    requires rk.ph in {SendCount, SendParts} ==> OffsetsOk(rk, b.box)
    ensures TakeInv(e, q, rcv, SendOn(e, b, rk, lk))
  {
    SendOnLonger(e, b, rk, lk);
    TakeFrame(e, q, rcv, lk, SendOn(e, b, rk, lk));
  }

  /** What a transition of rank r does to the incoming link of rank q. */
  lemma {:induction false} LinkOf(e: Env, b: Block, r: int, rk: Rank, inc: Link, c: Sorting, q: int, lk: Link)
    requires RingEnv(e) && 0 <= b.box < e.ranks && 0 <= r < e.ranks && 0 <= q < e.ranks && CanMove(e, b, rk, inc, c)
    ensures var taken := if q == r then TakeFrom(e, b, rk, lk) else lk;
            NextLink(e, b, r, rk, inc, c, Up(e.ranks, q), lk) == if Up(e.ranks, q) == r then SendOn(e, b, rk, taken) else taken
  {
  }

  lemma {:induction false} LinkTake(w: World, r: int, rk: Rank, inc: Link, c: Sorting, nx: Rank, q: int, rcv: Rank, lk: Link)
    requires Moving(w, r, rk, inc, c, nx) && Position(w.e, q, rcv) && TakeInv(w.e, q, rcv, lk)
    requires q == r ==> rcv == rk && lk == inc
    ensures TakeInv(w.e, q, if q == r then nx else rcv, NextLink(w.e, Cur(w.e, r, rk), r, rk, inc, c, Up(w.e.ranks, q), lk))
  {
    LinkOf(w.e, Cur(w.e, r, rk), r, rk, inc, c, q, lk);
    if q == r { LinkTakeOwn(w, r, rk, inc, c, nx); }
    LinkTaken(w, r, rk, inc, c, nx, q, if q == r then nx else rcv, if q == r then TakeFrom(w.e, Cur(w.e, r, rk), rk, lk) else lk);
  }

  lemma {:induction false} LinkTaken(w: World, r: int, rk: Rank, inc: Link, c: Sorting, nx: Rank, q: int, rcv: Rank, taken: Link)
    requires Moving(w, r, rk, inc, c, nx) && Position(w.e, q, rcv) && TakeInv(w.e, q, rcv, taken)
    ensures Up(w.e.ranks, q) == r ==> TakeInv(w.e, q, rcv, SendOn(w.e, Cur(w.e, r, rk), rk, taken))
  {
    TakesTurn(w.e, Cur(w.e, r, rk), rk, inc, c);
    if Up(w.e.ranks, q) == r { LinkTakeMore(w.e, Cur(w.e, r, rk), rk, q, rcv, taken); }
  }

  lemma {:induction false} StepMoving(w: World, st: State, r: int, c: Sorting)
    requires RingWorld(w) && Inv(w, st) && CanStep(w.e, st, r, c)
    ensures Moving(w, r, st.ranks[r], st.links[Up(w.e.ranks, r)], c,
                   NextRank(w.e, Cur(w.e, r, st.ranks[r]), st.ranks[r], st.links[Up(w.e.ranks, r)], c))
  {
    StepRank(w, st, r, c);
  }

  /** Rank r has moved to nx, and every link has changed accordingly. */
  ghost predicate Moved(w: World, st: State, r: int, c: Sorting, st': State, nx: Rank) {
    && RingWorld(w) && Inv(w, st) && Shape(w.e, st') && 0 <= r < w.e.ranks
    && Moving(w, r, st.ranks[r], st.links[Up(w.e.ranks, r)], c, nx) && st'.ranks[r] == nx
    && (forall q :: 0 <= q < w.e.ranks && q != r ==> st'.ranks[q] == st.ranks[q])
    && (forall l :: 0 <= l < w.e.ranks ==>
          st'.links[l] == NextLink(w.e, Cur(w.e, r, st.ranks[r]), r, st.ranks[r], st.links[Up(w.e.ranks, r)], c, l, st.links[l]))
  }

  lemma {:induction false} StepMoved(w: World, st: State, r: int, c: Sorting, st': State)
    requires RingWorld(w) && Inv(w, st) && Step(w.e, st, r, c, st')
    ensures Moved(w, st, r, c, st', st'.ranks[r])
  {
    StepMoving(w, st, r, c);
    StepShape(w, st, r, c, st', st'.ranks[r]);
  }

  lemma {:induction false} StepShape(w: World, st: State, r: int, c: Sorting, st': State, nx: Rank)
    requires RingWorld(w) && Inv(w, st) && Step(w.e, st, r, c, st') && nx == st'.ranks[r] && Position(w.e, r, nx)
    ensures Shape(w.e, st')
  {
  }

  lemma {:induction false} MovedRank(w: World, st: State, r: int, c: Sorting, st': State, nx: Rank, q: int)
    requires Moved(w, st, r, c, st', nx) && 0 <= q < w.e.ranks
    ensures RankInv(w, q, st'.ranks[q])
  {
  }

  lemma {:induction false} MovedSend(w: World, st: State, r: int, c: Sorting, st': State, nx: Rank, l: int)
    requires Moved(w, st, r, c, st', nx) && 0 <= l < w.e.ranks && Position(w.e, l, st'.ranks[l])
    ensures SendInv(w, l, st'.ranks[l], st'.links[l])
  {
    LinkSend(w, r, st.ranks[r], st.links[Up(w.e.ranks, r)], c, nx, l, st.ranks[l], st.links[l]);
  }

  lemma {:induction false} MovedTake(w: World, st: State, r: int, c: Sorting, st': State, nx: Rank, q: int)
    requires Moved(w, st, r, c, st', nx) && 0 <= q < w.e.ranks && Position(w.e, q, st'.ranks[q])
    ensures TakeInv(w.e, q, st'.ranks[q], st'.links[Up(w.e.ranks, q)])
  {
    LinkTake(w, r, st.ranks[r], st.links[Up(w.e.ranks, r)], c, nx, q, st.ranks[q], st.links[Up(w.e.ranks, q)]);
  }

  /** Every transition keeps the invariant. */
  lemma {:induction false} StepInv(w: World, st: State, r: int, c: Sorting, st': State)
    requires RingWorld(w) && Inv(w, st) && Step(w.e, st, r, c, st')
    ensures Inv(w, st')
  {
    StepMoved(w, st, r, c, st');
    var nx := st'.ranks[r];
    forall q | 0 <= q < w.e.ranks ensures RankInv(w, q, st'.ranks[q]) { MovedRank(w, st, r, c, st', nx, q); }
    forall l | 0 <= l < w.e.ranks ensures SendInv(w, l, st'.ranks[l], st'.links[l]) { MovedSend(w, st, r, c, st', nx, l); }
    forall q | 0 <= q < w.e.ranks ensures TakeInv(w.e, q, st'.ranks[q], st'.links[Up(w.e.ranks, q)]) { MovedTake(w, st, r, c, st', nx, q); }
  }

  lemma {:induction false} RunInv(w: World, run: seq<State>, i: nat)
    requires RingWorld(w) && Run(w.e, run) && i < |run|
    ensures Inv(w, run[i])
  {
    if i == 0 {
      InitInv(w, run[0]);
    } else {
      RunInv(w, run, i - 1);
      assert Steps(w.e, run[i - 1], run[i - 1 + 1]);
      var r: int, c: Sorting :| Step(w.e, run[i - 1], r, c, run[i]);
      StepInv(w, run[i - 1], r, c, run[i]);
    }
  }

  /** In every reachable state every rank and every link is where the serial run says. */
  lemma {:induction false} ReachableInv(e: Env, st: State)
    requires RingEnv(e) && Reachable(e, st)
    ensures RingWorld(SerialWorld(e)) && Inv(SerialWorld(e), st)
  {
    SerialWorldValid(e);
    var run :| Run(e, run) && run[|run| - 1] == st;
    RunInv(SerialWorld(e), run, |run| - 1);
  }
}
