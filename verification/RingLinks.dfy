/** A transition of a rank keeps the invariants of its incoming and its outgoing link. */
module RingLinks {
  import opened Beam
  import opened Serial
  import opened Schedule
  import opened Ring
  import opened RingData
  import opened RingInv
  import opened RingStep

  // ---------------------------------------------------------------- sending

  lemma Appended<T>(s: seq<T>, x: T, i: nat)
    ensures i <= |s| ==> (s + [x])[i] == if i < |s| then s[i] else x
  {
  }

  lemma FullAtMore(w: World, u: int, log: seq<seq<Particle>>, t: int, x: seq<Particle>, d: int)
    requires RingWorld(w) && 0 <= u < w.e.ranks && t >= w.e.ranks - 1 - u && FullAt(w, u, log, d)
    requires SendsFull(w.e, BlockOf(w.e.ranks, u, t)) && |log| == FullSent(w.e.ranks, w.e.maxStep, u, t)
    requires FullPayloadOk(w, BlockOf(w.e.ranks, u, t), x)
    ensures FullAt(w, u, log + [x], d)
  {
    if d >= w.e.ranks - 1 - u && SendsFull(w.e, BlockOf(w.e.ranks, u, d)) {
      if d != t { FullIndexUnique(w.e, u, t, d); }
      Appended(log, x, FullSent(w.e.ranks, w.e.maxStep, u, d));
    }
  }

  lemma FullContentMore(w: World, u: int, log: seq<seq<Particle>>, t: int, x: seq<Particle>)
    requires RingWorld(w) && 0 <= u < w.e.ranks && t >= w.e.ranks - 1 - u && FullContent(w, u, log)
    requires SendsFull(w.e, BlockOf(w.e.ranks, u, t)) && |log| == FullSent(w.e.ranks, w.e.maxStep, u, t)
    requires FullPayloadOk(w, BlockOf(w.e.ranks, u, t), x)
    ensures FullContent(w, u, log + [x])
  {
    forall d ensures FullAt(w, u, log + [x], d) { FullAtMore(w, u, log, t, x, d); }
  }

  lemma GhostAtMore(w: World, u: int, log: seq<seq<Particle>>, t: int, x: seq<Particle>, d: int)
    requires RingWorld(w) && 0 <= u < w.e.ranks && t >= w.e.ranks - 1 - u && GhostAt(w, u, log, d)
    requires SendsGhost(w.e, BlockOf(w.e.ranks, u, t)) && |log| == GhostSent(w.e.ranks, w.e.maxStep, u, t)
    requires GhostPayloadOk(w, BlockOf(w.e.ranks, u, t), x)
    ensures GhostAt(w, u, log + [x], d)
  {
    if d >= w.e.ranks - 1 - u && SendsGhost(w.e, BlockOf(w.e.ranks, u, d)) {
      if d != t { GhostIndexUnique(w.e, u, t, d); }
      Appended(log, x, GhostSent(w.e.ranks, w.e.maxStep, u, d));
    }
  }

  lemma GhostContentMore(w: World, u: int, log: seq<seq<Particle>>, t: int, x: seq<Particle>)
    requires RingWorld(w) && 0 <= u < w.e.ranks && t >= w.e.ranks - 1 - u && GhostContent(w, u, log)
    requires SendsGhost(w.e, BlockOf(w.e.ranks, u, t)) && |log| == GhostSent(w.e.ranks, w.e.maxStep, u, t)
    requires GhostPayloadOk(w, BlockOf(w.e.ranks, u, t), x)
    ensures GhostContent(w, u, log + [x])
  {
    forall d ensures GhostAt(w, u, log + [x], d) { GhostAtMore(w, u, log, t, x, d); }
  }

  lemma {:induction false} TimeAtMore(w: World, u: int, log: seq<real>, t: int, x: real, d: int)
    requires 0 <= u < w.e.ranks && t >= w.e.ranks - 1 - u && TimeSentAt(w, u, log, d)
    requires SendsTime(w.e, BlockOf(w.e.ranks, u, t)) && |log| == TimeSent(w.e.ranks, w.e.maxStep, u, t)
    requires x == TimeAt(w.e, BlockOf(w.e.ranks, u, t).step + 1)
    ensures TimeSentAt(w, u, log + [x], d)
  {
    if d >= w.e.ranks - 1 - u && SendsTime(w.e, BlockOf(w.e.ranks, u, d)) {
      var i, v := TimeSent(w.e.ranks, w.e.maxStep, u, d), TimeAt(w.e, BlockOf(w.e.ranks, u, d).step + 1);
      if d != t { TimeIndexUnique(w.e, u, t, d); }
      AppendedTime(log, x, i, v);
    }
  }

  lemma AppendedTime(log: seq<real>, x: real, i: nat, v: real)
    requires (i < |log| ==> log[i] == v) && (i == |log| ==> x == v)
    ensures i < |log + [x]| ==> (log + [x])[i] == v
  {
  }

  lemma TimeContentMore(w: World, u: int, log: seq<real>, t: int, x: real)
    requires 0 <= u < w.e.ranks && t >= w.e.ranks - 1 - u && TimeContent(w, u, log)
    requires SendsTime(w.e, BlockOf(w.e.ranks, u, t)) && |log| == TimeSent(w.e.ranks, w.e.maxStep, u, t)
    requires x == TimeAt(w.e, BlockOf(w.e.ranks, u, t).step + 1)
    ensures TimeContent(w, u, log + [x])
  {
    forall d ensures TimeSentAt(w, u, log + [x], d) { TimeAtMore(w, u, log, t, x, d); }
  }

  /** A transition that sends nothing on the full-box channels. */
  lemma FullOutSame(w: World, u: int, rk: Rank, lk: Link, r: Rank, out: Link)
    requires RingWorld(w) && Position(w.e, u, rk) && Position(w.e, u, r) && FullOut(w, u, rk, lk)
    requires r.t == rk.t && Ord(rk.ph) <= 12 && Ord(r.ph) <= 13
    requires out.fullLog == lk.fullLog && out.count.sent == lk.count.sent && out.parts.sent == lk.parts.sent
    ensures FullOut(w, u, r, out)
  {
  }

  lemma {:induction false} FullOutCount(w: World, u: int, rk: Rank, lk: Link, r: Rank, out: Link)
    requires RingWorld(w) && Position(w.e, u, rk) && Position(w.e, u, r) && FullOut(w, u, rk, lk)
    requires rk.ph == SendCount && r == rk.(ph := SendParts)
    requires OffsetsOk(rk, Cur(w.e, u, rk).box) && FullPayloadOk(w, Cur(w.e, u, rk), FullPayload(Cur(w.e, u, rk), rk))
    requires out == SendOn(w.e, Cur(w.e, u, rk), rk, lk)
    ensures FullOut(w, u, r, out)
  {
    var b := Cur(w.e, u, rk);
    if SendsFull(w.e, b) {
      var x := FullPayload(b, rk);
      FullContentMore(w, u, lk.fullLog, rk.t, x);
      PackedExtend(lk.parts.sent, lk.fullLog, FullSent(w.e.ranks, w.e.maxStep, u, rk.t), x);
    }
  }

  lemma SentNext(e: Env, u: int, t: int)
    requires 0 <= u < e.ranks && t >= e.ranks - 1 - u
    ensures FullSent(e.ranks, e.maxStep, u, t + 1) == FullSent(e.ranks, e.maxStep, u, t) + One(SendsFull(e, BlockOf(e.ranks, u, t)))
    ensures TimeSent(e.ranks, e.maxStep, u, t + 1) == TimeSent(e.ranks, e.maxStep, u, t) + One(SendsTime(e, BlockOf(e.ranks, u, t)))
    ensures GhostSent(e.ranks, e.maxStep, u, t + 1) == GhostSent(e.ranks, e.maxStep, u, t) + One(SendsGhost(e, BlockOf(e.ranks, u, t)))
  {
  }

  /** The payload last logged goes out, unless it is empty. */
  lemma PackedLast(sent: seq<seq<Particle>>, log: seq<seq<Particle>>, x: nat, more: seq<seq<Particle>>, yes: bool)
    requires Packed(sent, log, x) && |log| == x + One(yes)
    requires more == if yes && |log[|log| - 1]| > 0 then sent + [log[|log| - 1]] else sent
    ensures Packed(more, log, |log|)
  {
    if yes { PackedMore(sent, log, x); }
  }

  lemma {:induction false} FullOutParts(w: World, u: int, rk: Rank, lk: Link, r: Rank, out: Link)
    requires RingWorld(w) && Position(w.e, u, rk) && Position(w.e, u, r) && FullOut(w, u, rk, lk)
    requires rk.ph == SendParts && r.ph == RecvTime && r.t == rk.t + 1
    requires OffsetsOk(rk, Cur(w.e, u, rk).box) && out == SendOn(w.e, Cur(w.e, u, rk), rk, lk)
    ensures FullOut(w, u, r, out)
  {
    SentNext(w.e, u, rk.t);
    PackedLast(lk.parts.sent, lk.fullLog, FullSent(w.e.ranks, w.e.maxStep, u, rk.t), out.parts.sent, SendsFull(w.e, Cur(w.e, u, rk)));
    FullOutEnd(w, u, rk, lk, r, out);
  }

  lemma FullOutEnd(w: World, u: int, rk: Rank, lk: Link, r: Rank, out: Link)
    requires RingWorld(w) && Position(w.e, u, rk) && Position(w.e, u, r) && FullOut(w, u, rk, lk)
    requires r.ph == RecvTime && FullSent(w.e.ranks, w.e.maxStep, u, r.t) == FullCount(w.e, u, rk)
    requires out.fullLog == lk.fullLog && out.count.sent == lk.count.sent && Packed(out.parts.sent, lk.fullLog, |lk.fullLog|)
    ensures FullOut(w, u, r, out)
  {
  }

  lemma TimeOutSame(w: World, u: int, rk: Rank, lk: Link, r: Rank, out: Link)
    requires Position(w.e, u, rk) && Position(w.e, u, r) && TimeOut(w, u, rk, lk)
    requires TimeCount(w.e, u, r) == TimeCount(w.e, u, rk) && out.time.sent == lk.time.sent
    ensures TimeOut(w, u, r, out)
  {
  }

  lemma {:induction false} TimeOutSent(w: World, u: int, rk: Rank, lk: Link, r: Rank, out: Link)
    requires w.e.g.Boxes() == w.e.ranks && Position(w.e, u, rk) && Position(w.e, u, r) && TimeOut(w, u, rk, lk)
    requires rk.ph == SendTime && r == rk.(ph := SendCount) && rk.time == TimeAt(w.e, Cur(w.e, u, rk).step)
    requires out == SendOn(w.e, Cur(w.e, u, rk), rk, lk)
    ensures TimeOut(w, u, r, out)
  {
    if SendsTime(w.e, Cur(w.e, u, rk)) {
      TimeContentMore(w, u, lk.time.sent, rk.t, rk.time + w.e.dt);
    }
  }

  lemma GhostOutSame(w: World, u: int, rk: Rank, lk: Link, r: Rank, out: Link)
    requires RingWorld(w) && Position(w.e, u, rk) && Position(w.e, u, r) && GhostOut(w, u, rk, lk)
    requires GhostCount(w.e, u, r) == GhostCount(w.e, u, rk) && GhostPartsCount(w.e, u, r) == GhostPartsCount(w.e, u, rk)
    requires r.ph != SendGhostParts
    requires out.ghostLog == lk.ghostLog && out.ghostCount.sent == lk.ghostCount.sent && out.ghostParts.sent == lk.ghostParts.sent
    ensures GhostOut(w, u, r, out)
  {
  }

  lemma {:induction false} GhostOutCount(w: World, u: int, rk: Rank, lk: Link, r: Rank, out: Link)
    requires RingWorld(w) && Position(w.e, u, rk) && Position(w.e, u, r) && GhostOut(w, u, rk, lk)
    requires rk.ph == SendGhostCount && r == rk.(ph := SendGhostParts) && Split(rk)
    requires SendsGhost(w.e, Cur(w.e, u, rk)) ==> GhostPayloadOk(w, Cur(w.e, u, rk), GhostPayload(w.e, Cur(w.e, u, rk), rk))
    requires out == SendOn(w.e, Cur(w.e, u, rk), rk, lk)
    ensures GhostOut(w, u, r, out)
  {
    var b := Cur(w.e, u, rk);
    if SendsGhost(w.e, b) {
      GhostOutLogged(w, u, rk, lk, r, out, GhostPayload(w.e, b, rk));
    } else {
      GhostOutNone(w, u, rk, lk, r);
    }
  }

  lemma GhostOutNone(w: World, u: int, rk: Rank, lk: Link, r: Rank)
    requires RingWorld(w) && Position(w.e, u, rk) && Position(w.e, u, r) && GhostOut(w, u, rk, lk)
    requires !SendsGhost(w.e, Cur(w.e, u, rk)) && r.t == rk.t
    requires GhostCount(w.e, u, r) == GhostCount(w.e, u, rk) && GhostPartsCount(w.e, u, r) == GhostPartsCount(w.e, u, rk)
    ensures GhostOut(w, u, r, lk)
  {
  }

  lemma {:induction false} GhostOutLogged(w: World, u: int, rk: Rank, lk: Link, r: Rank, out: Link, x: seq<Particle>)
    requires RingWorld(w) && Position(w.e, u, rk) && Position(w.e, u, r) && GhostOut(w, u, rk, lk)
    requires rk.ph == SendGhostCount && r.ph == SendGhostParts && r.t == rk.t && SendsGhost(w.e, Cur(w.e, u, rk))
    requires GhostPayloadOk(w, Cur(w.e, u, rk), x) && Split(r) && x == GhostPayload(w.e, Cur(w.e, u, r), r)
    requires out == lk.(ghostCount := lk.ghostCount.Send(|x|), ghostLog := lk.ghostLog + [x])
    ensures GhostOut(w, u, r, out)
  {
    GhostContentMore(w, u, lk.ghostLog, rk.t, x);
    PackedExtend(lk.ghostParts.sent, lk.ghostLog, GhostSent(w.e.ranks, w.e.maxStep, u, rk.t), x);
  }

  lemma {:induction false} GhostOutParts(w: World, u: int, rk: Rank, lk: Link, r: Rank, out: Link)
    requires RingWorld(w) && Position(w.e, u, rk) && Position(w.e, u, r) && GhostOut(w, u, rk, lk)
    requires rk.ph == SendGhostParts && r == rk.(ph := SolveCentral) && Split(rk)
    requires out == SendOn(w.e, Cur(w.e, u, rk), rk, lk)
    ensures GhostOut(w, u, r, out)
  {
    if SendsGhost(w.e, Cur(w.e, u, rk)) {
      PackedLast(lk.ghostParts.sent, lk.ghostLog, GhostSent(w.e.ranks, w.e.maxStep, u, rk.t), out.ghostParts.sent, true);
      GhostOutEnd(w, u, rk, lk, r, out);
    } else {
      GhostOutNone(w, u, rk, lk, r);
    }
  }

  lemma GhostOutEnd(w: World, u: int, rk: Rank, lk: Link, r: Rank, out: Link)
    requires RingWorld(w) && Position(w.e, u, rk) && Position(w.e, u, r) && GhostOut(w, u, rk, lk)
    requires r.ph == SolveCentral && GhostCount(w.e, u, r) == GhostPartsCount(w.e, u, r) == GhostCount(w.e, u, rk)
    requires out.ghostLog == lk.ghostLog && out.ghostCount.sent == lk.ghostCount.sent && Packed(out.ghostParts.sent, lk.ghostLog, |lk.ghostLog|)
    ensures GhostOut(w, u, r, out)
  {
  }

  /** What the rank is about to announce is the serial payload. */
  lemma AboutToSendFull(w: World, b: Block, rk: Rank, done: Log)
    requires RingWorld(w) && 0 <= b.box < w.e.ranks && BlockInv(w, b, rk, done) && Ord(rk.ph) >= 11
    ensures OffsetsOk(rk, b.box) && FullPayloadOk(w, b, FullPayload(b, rk))
  {
    FullPayloadHolds(w, b, rk);
  }

  lemma AboutToSendGhosts(w: World, b: Block, rk: Rank, done: Log)
    requires RingWorld(w) && 0 <= b.box < w.e.ranks && BlockInv(w, b, rk, done) && rk.ph == SendGhostCount
    ensures Split(rk) && GhostPayloadOk(w, b, GhostPayload(w.e, b, rk))
  {
    GhostPayloadHolds(w, b, rk, Hi(w.e, b.box));
  }

  /** What the next transition announces is right. */
  ghost predicate Prepared(w: World, b: Block, rk: Rank)
    requires RingWorld(w) && 0 <= b.box < w.e.ranks
  {
    && (rk.ph == SendGhostCount ==> Split(rk) && GhostPayloadOk(w, b, GhostPayload(w.e, b, rk)))
    && (rk.ph == SendTime ==> rk.time == TimeAt(w.e, b.step))
    && (rk.ph == SendCount ==> OffsetsOk(rk, b.box) && FullPayloadOk(w, b, FullPayload(b, rk)))
  }

  lemma {:induction false} PreparedOk(w: World, b: Block, rk: Rank, done: Log)
    requires RingWorld(w) && 0 <= b.box < w.e.ranks && BlockInv(w, b, rk, done)
    ensures Prepared(w, b, rk)
  {
    if rk.ph == SendGhostCount { AboutToSendGhosts(w, b, rk, done); }
    if rk.ph == SendCount { AboutToSendFull(w, b, rk, done); }
  }

  /** What a transition does to the position of a rank, and what it can send. */
  ghost predicate Turn(e: Env, b: Block, rk: Rank, r: Rank)
    requires 0 <= b.box < e.ranks
  {
    && (rk.ph in {SendGhostCount, SendGhostParts} ==> Split(rk)) && (rk.ph in {SendCount, SendParts} ==> OffsetsOk(rk, b.box))
    && (if rk.ph == SendParts then r.t == rk.t + 1 && r.ph == RecvTime
        else r.t == rk.t && (r.ph == Succ(rk.ph) || (rk.ph == SolveCentral && r.ph == rk.ph)))
    && (rk.ph in {SendGhostCount, SendGhostParts, SendTime, SendCount} ==> r == rk.(ph := Succ(rk.ph)))
  }

  lemma {:induction false} TakesTurn(e: Env, b: Block, rk: Rank, inc: Link, c: Sorting)
    requires RingEnv(e) && 0 <= b.box < e.ranks && CanMove(e, b, rk, inc, c)
    ensures Turn(e, b, rk, NextRank(e, b, rk, inc, c))
  {
  }

  /** A transition that is not a send on a channel leaves what was sent on it as it was. */
  lemma {:induction false} SendOnOther(e: Env, b: Block, rk: Rank, lk: Link)
    requires 0 <= b.box < e.g.Boxes()
    requires rk.ph in {SendGhostCount, SendGhostParts} ==> Split(rk)
    requires rk.ph in {SendCount, SendParts} ==> OffsetsOk(rk, b.box)
    ensures var out := SendOn(e, b, rk, lk);
            && (rk.ph !in {SendCount, SendParts} ==> out.fullLog == lk.fullLog && out.count == lk.count && out.parts == lk.parts)
            && (rk.ph != SendTime ==> out.time == lk.time)
            && (rk.ph !in {SendGhostCount, SendGhostParts} ==>
                  out.ghostLog == lk.ghostLog && out.ghostCount == lk.ghostCount && out.ghostParts == lk.ghostParts)
  {
  }

  lemma {:induction false} FullSide(w: World, u: int, rk: Rank, lk: Link, r: Rank, out: Link)
    requires RingWorld(w) && Position(w.e, u, rk) && Position(w.e, u, r) && FullOut(w, u, rk, lk)
    requires Prepared(w, Cur(w.e, u, rk), rk) && Turn(w.e, Cur(w.e, u, rk), rk, r)
    requires out == SendOn(w.e, Cur(w.e, u, rk), rk, lk)
    ensures FullOut(w, u, r, out)
  {
    if rk.ph == SendCount {
      FullOutCount(w, u, rk, lk, r, out);
    } else if rk.ph == SendParts {
      FullOutParts(w, u, rk, lk, r, out);
    } else {
      FullQuiet(w, u, rk, lk, r, out);
    }
  }

  lemma {:induction false} FullQuiet(w: World, u: int, rk: Rank, lk: Link, r: Rank, out: Link)
    requires RingWorld(w) && Position(w.e, u, rk) && Position(w.e, u, r) && FullOut(w, u, rk, lk)
    requires rk.ph !in {SendCount, SendParts} && Turn(w.e, Cur(w.e, u, rk), rk, r)
    requires out == SendOn(w.e, Cur(w.e, u, rk), rk, lk)
    ensures FullOut(w, u, r, out)
  {
    SendOnOther(w.e, Cur(w.e, u, rk), rk, lk);
    FullOutSame(w, u, rk, lk, r, out);
  }

  lemma {:induction false} TimeSide(w: World, u: int, rk: Rank, lk: Link, r: Rank, out: Link)
    requires w.e.g.Boxes() == w.e.ranks && Position(w.e, u, rk) && Position(w.e, u, r) && TimeOut(w, u, rk, lk)
    requires rk.ph == SendTime ==> rk.time == TimeAt(w.e, Cur(w.e, u, rk).step)
    requires Turn(w.e, Cur(w.e, u, rk), rk, r)
    requires out == SendOn(w.e, Cur(w.e, u, rk), rk, lk)
    ensures TimeOut(w, u, r, out)
  {
    if rk.ph == SendTime {
      TimeOutSent(w, u, rk, lk, r, out);
    } else {
      TimeCountKept(w.e, u, rk, r);
      SendOnOther(w.e, Cur(w.e, u, rk), rk, lk);
      TimeOutSame(w, u, rk, lk, r, out);
    }
  }

  lemma {:induction false} TimeCountKept(e: Env, u: int, rk: Rank, r: Rank)
    requires Position(e, u, rk) && Position(e, u, r) && Turn(e, Cur(e, u, rk), rk, r) && rk.ph != SendTime
    ensures TimeCount(e, u, r) == TimeCount(e, u, rk)
  {
    SentNext(e, u, rk.t);
  }

  lemma {:induction false} GhostCountsKept(e: Env, u: int, rk: Rank, r: Rank)
    requires Position(e, u, rk) && Position(e, u, r) && Turn(e, Cur(e, u, rk), rk, r) && rk.ph !in {SendGhostCount, SendGhostParts}
    ensures GhostCount(e, u, r) == GhostCount(e, u, rk) && GhostPartsCount(e, u, r) == GhostPartsCount(e, u, rk)
  {
    SentNext(e, u, rk.t);
  }

  lemma {:induction false} GhostSide(w: World, u: int, rk: Rank, lk: Link, r: Rank, out: Link)
    requires RingWorld(w) && Position(w.e, u, rk) && Position(w.e, u, r) && GhostOut(w, u, rk, lk)
    requires Prepared(w, Cur(w.e, u, rk), rk) && Turn(w.e, Cur(w.e, u, rk), rk, r)
    requires out == SendOn(w.e, Cur(w.e, u, rk), rk, lk)
    ensures GhostOut(w, u, r, out)
  {
    if rk.ph == SendGhostCount {
      GhostOutCount(w, u, rk, lk, r, out);
    } else if rk.ph == SendGhostParts {
      GhostOutParts(w, u, rk, lk, r, out);
    } else {
      GhostCountsKept(w.e, u, rk, r);
      SendOnOther(w.e, Cur(w.e, u, rk), rk, lk);
      GhostOutSame(w, u, rk, lk, r, out);
    }
  }

  /** A rank that moves keeps the invariant of its outgoing link. */
  lemma {:induction false} SendSide(w: World, u: int, rk: Rank, lk: Link, r: Rank)
    requires RingWorld(w) && RankInv(w, u, rk) && Position(w.e, u, r) && SendInv(w, u, rk, lk) && Turn(w.e, Cur(w.e, u, rk), rk, r)
    ensures SendInv(w, u, r, SendOn(w.e, Cur(w.e, u, rk), rk, lk))
  {
    PreparedOk(w, Cur(w.e, u, rk), rk, SeenBefore(w, u, rk.t));
    var out := SendOn(w.e, Cur(w.e, u, rk), rk, lk);
    FullSide(w, u, rk, lk, r, out);
    TimeSide(w, u, rk, lk, r, out);
    GhostSide(w, u, rk, lk, r, out);
  }

  // ---------------------------------------------------------------- receiving

  /** What a transition needs from the incoming link, and the number of particles it announces. */
  ghost predicate TakesUp(e: Env, b: Block, rk: Rank, inc: Link, r: Rank)
    requires 0 <= b.box < e.ranks
  {
    && Turn(e, b, rk, r)
    && (rk.ph == RecvTime && TakesTime(e, b) ==> inc.time.Ready())
    && (rk.ph == RecvCount ==> if TakesFull(e, b) then inc.count.Ready() && r.np == inc.count.Front() else r.np == 0)
    && (rk.ph == RecvGhostCount ==> if TakesGhost(e, b) then inc.ghostCount.Ready() && r.np == inc.ghostCount.Front() else r.np == 0)
  }

  lemma {:induction false} TakesUpOk(e: Env, b: Block, rk: Rank, inc: Link, c: Sorting)
    requires RingEnv(e) && 0 <= b.box < e.ranks && CanMove(e, b, rk, inc, c)
    ensures TakesUp(e, b, rk, inc, NextRank(e, b, rk, inc, c))
  {
    TakesTurn(e, b, rk, inc, c);
  }

  lemma TakenNext(e: Env, r: int, t: int)
    requires 0 <= r < e.ranks && t >= e.ranks - 1 - r
    ensures FullTaken(e.ranks, r, t + 1) == FullTaken(e.ranks, r, t) + One(TakesFull(e, BlockOf(e.ranks, r, t)))
    ensures TimeTaken(e.ranks, r, t + 1) == TimeTaken(e.ranks, r, t) + One(TakesTime(e, BlockOf(e.ranks, r, t)))
    ensures GhostTaken(e.ranks, r, t + 1) == GhostTaken(e.ranks, r, t) + One(TakesGhost(e, BlockOf(e.ranks, r, t)))
  {
  }

  lemma {:induction false} FullTakenKept(e: Env, r: int, rk: Rank, nx: Rank)
    requires Position(e, r, rk) && Position(e, r, nx) && Turn(e, Cur(e, r, rk), rk, nx)
    ensures CountTaken(e, r, nx) == CountTaken(e, r, rk) + One(rk.ph == RecvCount && TakesFull(e, Cur(e, r, rk)))
    ensures PartsTaken(e, r, nx) == PartsTaken(e, r, rk) + One(rk.ph == RecvParts && TakesFull(e, Cur(e, r, rk)))
  {
    TakenNext(e, r, rk.t);
  }

  lemma {:induction false} TimeTakenKept(e: Env, r: int, rk: Rank, nx: Rank)
    requires Position(e, r, rk) && Position(e, r, nx) && Turn(e, Cur(e, r, rk), rk, nx)
    ensures TimesTaken(e, r, nx) == TimesTaken(e, r, rk) + One(rk.ph == RecvTime && TakesTime(e, Cur(e, r, rk)))
  {
    TakenNext(e, r, rk.t);
  }

  lemma {:induction false} GhostCountTakenKept(e: Env, r: int, rk: Rank, nx: Rank)
    requires Position(e, r, rk) && Position(e, r, nx) && Turn(e, Cur(e, r, rk), rk, nx)
    ensures GhostCountTaken(e, r, nx) == GhostCountTaken(e, r, rk) + One(rk.ph == RecvGhostCount && TakesGhost(e, Cur(e, r, rk)))
  {
    TakenNext(e, r, rk.t);
  }

  lemma {:induction false} GhostPartsTakenKept(e: Env, r: int, rk: Rank, nx: Rank)
    requires Position(e, r, rk) && Position(e, r, nx) && Turn(e, Cur(e, r, rk), rk, nx)
    ensures GhostPartsTaken(e, r, nx) == GhostPartsTaken(e, r, rk) + One(rk.ph == RecvGhostParts && TakesGhost(e, Cur(e, r, rk)))
  {
    TakenNext(e, r, rk.t);
  }

  lemma {:induction false} FullInStep(e: Env, r: int, rk: Rank, lk: Link, nx: Rank)
    requires Position(e, r, rk) && Position(e, r, nx) && FullIn(e, r, rk, lk) && Counts(lk.count.sent, lk.fullLog)
    requires TakesUp(e, Cur(e, r, rk), rk, lk, nx)
    ensures FullIn(e, r, nx, TakeFrom(e, Cur(e, r, rk), rk, lk))
  {
    FullTakenKept(e, r, rk, nx);
    var out := TakeFrom(e, Cur(e, r, rk), rk, lk);
    FullTakes(e, Cur(e, r, rk), rk, lk, out);
    FullInTaken(e, r, rk, lk, nx, out);
  }

  /** What a receive does to the channels for full boxes. */
  ghost predicate TookFull(e: Env, b: Block, rk: Rank, lk: Link, out: Link) {
    && out.fullLog == lk.fullLog && out.count.sent == lk.count.sent
    && out.count.taken == lk.count.taken + One(rk.ph == RecvCount && TakesFull(e, b))
    && out.parts.taken == lk.parts.taken + One(rk.ph == RecvParts && TakesFull(e, b) && rk.np > 0)
  }

  lemma {:induction false} FullTakes(e: Env, b: Block, rk: Rank, lk: Link, out: Link)
    requires out == TakeFrom(e, b, rk, lk)
    ensures TookFull(e, b, rk, lk, out)
  {
  }

  lemma {:induction false} FullInTaken(e: Env, r: int, rk: Rank, lk: Link, nx: Rank, out: Link)
    requires Position(e, r, rk) && Position(e, r, nx) && FullIn(e, r, rk, lk) && Counts(lk.count.sent, lk.fullLog)
    requires TakesUp(e, Cur(e, r, rk), rk, lk, nx) && TookFull(e, Cur(e, r, rk), rk, lk, out)
    requires CountTaken(e, r, nx) == CountTaken(e, r, rk) + One(rk.ph == RecvCount && TakesFull(e, Cur(e, r, rk)))
    requires PartsTaken(e, r, nx) == PartsTaken(e, r, rk) + One(rk.ph == RecvParts && TakesFull(e, Cur(e, r, rk)))
    ensures FullIn(e, r, nx, out)
  {
  }

  lemma TimeInStep(e: Env, r: int, rk: Rank, lk: Link, nx: Rank)
    requires Position(e, r, rk) && Position(e, r, nx) && TimeIn(e, r, rk, lk)
    requires TakesUp(e, Cur(e, r, rk), rk, lk, nx)
    ensures TimeIn(e, r, nx, TakeFrom(e, Cur(e, r, rk), rk, lk))
  {
    TimeTakenKept(e, r, rk, nx);
  }

  lemma {:induction false} GhostInStep(e: Env, r: int, rk: Rank, lk: Link, nx: Rank)
    requires Position(e, r, rk) && Position(e, r, nx) && GhostIn(e, r, rk, lk) && Counts(lk.ghostCount.sent, lk.ghostLog)
    requires TakesUp(e, Cur(e, r, rk), rk, lk, nx)
    ensures GhostIn(e, r, nx, TakeFrom(e, Cur(e, r, rk), rk, lk))
  {
    GhostCountTakenKept(e, r, rk, nx);
    GhostPartsTakenKept(e, r, rk, nx);
  }

  /** A rank that moves keeps the invariant of its incoming link. */
  lemma TakeSide(e: Env, r: int, rk: Rank, lk: Link, nx: Rank)
    requires Position(e, r, rk) && Position(e, r, nx) && TakeInv(e, r, rk, lk)
    requires Counts(lk.count.sent, lk.fullLog) && Counts(lk.ghostCount.sent, lk.ghostLog) && TakesUp(e, Cur(e, r, rk), rk, lk, nx)
    ensures TakeInv(e, r, nx, TakeFrom(e, Cur(e, r, rk), rk, lk))
  {
    FullInStep(e, r, rk, lk, nx);
    TimeInStep(e, r, rk, lk, nx);
    GhostInStep(e, r, rk, lk, nx);
  }

  // ---------------------------------------------------------------- the other end

  predicate SameSent(lk: Link, out: Link) {
    && out.fullLog == lk.fullLog && out.count.sent == lk.count.sent && out.parts.sent == lk.parts.sent
    && out.time.sent == lk.time.sent
    && out.ghostLog == lk.ghostLog && out.ghostCount.sent == lk.ghostCount.sent && out.ghostParts.sent == lk.ghostParts.sent
  }

  /** Taking messages is invisible to the sender. */
  lemma {:induction false} SendFrame(w: World, u: int, rk: Rank, lk: Link, out: Link)
    requires RingWorld(w) && Position(w.e, u, rk) && SendInv(w, u, rk, lk) && SameSent(lk, out)
    ensures SendInv(w, u, rk, out)
  {
    assert FullOut(w, u, rk, out) && TimeOut(w, u, rk, out) && GhostOut(w, u, rk, out);
  }

  ghost predicate SentMore<T>(was: Chan<T>, now: Chan<T>) {
    now.taken == was.taken && |was.sent| <= |now.sent| && now.sent[..|was.sent|] == was.sent
  }

  ghost predicate LongerLink(lk: Link, out: Link) {
    && SentMore(lk.time, out.time) && SentMore(lk.count, out.count) && SentMore(lk.ghostCount, out.ghostCount)
    && out.parts.taken == lk.parts.taken && out.ghostParts.taken == lk.ghostParts.taken
    && |lk.fullLog| <= |out.fullLog| && out.fullLog[..|lk.fullLog|] == lk.fullLog
    && |lk.ghostLog| <= |out.ghostLog| && out.ghostLog[..|lk.ghostLog|] == lk.ghostLog
    && |out.count.sent| - |lk.count.sent| == |out.fullLog| - |lk.fullLog|
    && |out.ghostCount.sent| - |lk.ghostCount.sent| == |out.ghostLog| - |lk.ghostLog|
  }

  lemma {:induction false} SendOnLonger(e: Env, b: Block, rk: Rank, lk: Link)
    requires 0 <= b.box < e.g.Boxes()
    requires rk.ph in {SendGhostCount, SendGhostParts} ==> Split(rk)
    requires rk.ph in {SendCount, SendParts} ==> OffsetsOk(rk, b.box)
    ensures LongerLink(lk, SendOn(e, b, rk, lk))
  {
  }

  /** Sending more does not disturb the receiver. */
  lemma TakeFrame(e: Env, r: int, rk: Rank, lk: Link, out: Link)
    requires Position(e, r, rk) && TakeInv(e, r, rk, lk) && LongerLink(lk, out)
    ensures TakeInv(e, r, rk, out)
  {
    FullFrame(e, r, rk, lk, out);
    GhostFrame(e, r, rk, lk, out);
  }

  lemma FullFrame(e: Env, r: int, rk: Rank, lk: Link, out: Link)
    requires Position(e, r, rk) && FullIn(e, r, rk, lk) && LongerLink(lk, out)
    ensures FullIn(e, r, rk, out)
  {
    assert PartsTaken(e, r, rk) <= CountTaken(e, r, rk);
    NonEmptyPrefix(lk.fullLog, out.fullLog, PartsTaken(e, r, rk));
    if rk.ph == RecvParts && TakesFull(e, Cur(e, r, rk)) {
      var i := lk.count.taken - 1;
      assert out.count.sent[i] == out.count.sent[..|lk.count.sent|][i];
    }
  }

  lemma GhostFrame(e: Env, r: int, rk: Rank, lk: Link, out: Link)
    requires Position(e, r, rk) && GhostIn(e, r, rk, lk) && LongerLink(lk, out)
    ensures GhostIn(e, r, rk, out)
  {
    assert GhostPartsTaken(e, r, rk) <= GhostCountTaken(e, r, rk);
    NonEmptyPrefix(lk.ghostLog, out.ghostLog, GhostPartsTaken(e, r, rk));
    if rk.ph == RecvGhostParts && TakesGhost(e, Cur(e, r, rk)) {
      var i := lk.ghostCount.taken - 1;
      assert out.ghostCount.sent[i] == out.ghostCount.sent[..|lk.ghostCount.sent|][i];
    }
  }

  // ---------------------------------------------------------------- the ring

  /** The outgoing link of a rank that moves, whether or not it is also its incoming one. */
  lemma {:induction false} OutgoingOk(w: World, r: int, rk: Rank, lk: Link, taken: Link, nx: Rank)
    requires RingWorld(w) && RankInv(w, r, rk) && Position(w.e, r, nx) && SendInv(w, r, rk, lk) && SameSent(lk, taken)
    requires Turn(w.e, Cur(w.e, r, rk), rk, nx)
    ensures SendInv(w, r, nx, SendOn(w.e, Cur(w.e, r, rk), rk, taken))
  {
    SendFrame(w, r, rk, lk, taken);
    SendSide(w, r, rk, taken, nx);
  }
}
