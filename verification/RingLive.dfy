/** Liveness of the ring when every send completes only once its message has been taken: the unfinished rank with
    the least measure 4*(step + n-1 - box) + phase can always move, so the ring never deadlocks. */
module RingLive {
  import opened Beam
  import opened Serial
  import opened Schedule
  import opened Ring
  import opened RingData
  import opened RingInv
  import opened RingLinks
  import opened BoxSort

  /** Full receive, ghost send, ghost receive, full send. */
  function Group(p: Phase): nat {
    if Ord(p) <= 3 then 0 else if Ord(p) <= 7 then 1 else if Ord(p) <= 10 then 2 else 3
  }

  /** 4*(step + n-1 - box) + phase: t is that diagonal. */
  function Measure(rk: Rank): int { 4 * rk.t + Group(rk.ph) }

  ghost predicate Behind(e: Env, r: int, rk: Rank, q: int, other: Rank)
    requires Position(e, r, rk) && Position(e, q, other)
  {
    Finished(e, q, other) || Measure(rk) <= Measure(other)
  }

  // ---------------------------------------------------------------- waiting for the rank upstream

  lemma FinishedPast(e: Env, u: int, up: Rank, d: int)
    requires Position(e, u, up) && Finished(e, u, up)
    requires d >= e.ranks - 1 - u && BlockOf(e.ranks, u, d).step <= e.maxStep
    ensures up.t > d
  {
    if up.t <= d { StepMonotone(e.ranks, u, up.t, d); }
  }

  /** The rank upstream is past the block whose full message is due. */
  lemma {:induction false} UpPastFull(e: Env, r: int, rk: Rank, up: Rank)
    requires Position(e, r, rk) && !Finished(e, r, rk) && Position(e, Up(e.ranks, r), up)
    requires Behind(e, r, rk, Up(e.ranks, r), up) && TakesFull(e, Cur(e, r, rk))
    ensures up.t >= rk.t
  {
    UpstreamBlock(e.ranks, r, rk.t);
    if Finished(e, Up(e.ranks, r), up) { FinishedPast(e, Up(e.ranks, r), up, rk.t - 1); }
  }

  lemma {:induction false} FullReady(e: Env, r: int, rk: Rank, up: Rank)
    requires Position(e, r, rk) && !Finished(e, r, rk) && Position(e, Up(e.ranks, r), up)
    requires Behind(e, r, rk, Up(e.ranks, r), up) && TakesFull(e, Cur(e, r, rk))
    ensures FullTaken(e.ranks, r, rk.t) < FullSent(e.ranks, e.maxStep, Up(e.ranks, r), up.t)
    ensures TakesTime(e, Cur(e, r, rk)) ==> TimeTaken(e.ranks, r, rk.t) < TimeSent(e.ranks, e.maxStep, Up(e.ranks, r), up.t)
  {
    UpPastFull(e, r, rk, up);
    FullDue(e, r, rk.t, up.t);
  }

  lemma FullDue(e: Env, r: int, t: int, past: int)
    requires 0 <= r < e.ranks && t >= e.ranks - 1 - r && (t > e.ranks - 1 - r ==> BlockOf(e.ranks, r, t - 1).step <= e.maxStep)
    requires 0 < BlockOf(e.ranks, r, t).step <= e.maxStep && past >= t
    ensures FullTaken(e.ranks, r, t) < FullSent(e.ranks, e.maxStep, Up(e.ranks, r), past)
    ensures BlockOf(e.ranks, r, t).box == e.ranks - 1 ==> TimeTaken(e.ranks, r, t) < TimeSent(e.ranks, e.maxStep, Up(e.ranks, r), past)
  {
    UpstreamFull(e.ranks, e.maxStep, r, t);
    SentPast(e, Up(e.ranks, r), t - 1, past);
  }

  /** What a rank past diagonal d has sent. */
  lemma SentPast(e: Env, u: int, d: int, t: int)
    requires 0 <= u < e.ranks && e.ranks - 1 - u <= d < t
    ensures FullSent(e.ranks, e.maxStep, u, d) + One(SendsFull(e, BlockOf(e.ranks, u, d))) <= FullSent(e.ranks, e.maxStep, u, t)
    ensures TimeSent(e.ranks, e.maxStep, u, d) + One(SendsTime(e, BlockOf(e.ranks, u, d))) <= TimeSent(e.ranks, e.maxStep, u, t)
    ensures GhostSent(e.ranks, e.maxStep, u, d) + One(SendsGhost(e, BlockOf(e.ranks, u, d))) <= GhostSent(e.ranks, e.maxStep, u, t)
  {
    SentNext(e, u, d);
    SentMonotone(e.ranks, e.maxStep, u, d + 1, t);
  }

  lemma {:induction false} UpPastGhost(e: Env, r: int, rk: Rank, up: Rank)
    requires Position(e, r, rk) && !Finished(e, r, rk) && Position(e, Up(e.ranks, r), up)
    requires Behind(e, r, rk, Up(e.ranks, r), up) && TakesGhost(e, Cur(e, r, rk)) && Group(rk.ph) == 2
    ensures up.t > rk.t || (up.t == rk.t && Ord(up.ph) >= 8)
    ensures rk.t >= e.ranks - 1 - Up(e.ranks, r) && SendsGhost(e, BlockOf(e.ranks, Up(e.ranks, r), rk.t))
  {
    UpstreamGhost(e.ranks, e.maxStep, r, rk.t);
    if Finished(e, Up(e.ranks, r), up) { FinishedPast(e, Up(e.ranks, r), up, rk.t); }
  }

  lemma {:induction false} GhostReady(e: Env, r: int, rk: Rank, up: Rank)
    requires Position(e, r, rk) && !Finished(e, r, rk) && Position(e, Up(e.ranks, r), up)
    requires Behind(e, r, rk, Up(e.ranks, r), up) && TakesGhost(e, Cur(e, r, rk)) && Group(rk.ph) == 2
    ensures GhostTaken(e.ranks, r, rk.t) < GhostPartsCount(e, Up(e.ranks, r), up) <= GhostCount(e, Up(e.ranks, r), up)
  {
    var u := Up(e.ranks, r);
    UpPastGhost(e, r, rk, up);
    UpstreamGhost(e.ranks, e.maxStep, r, rk.t);
    if up.t > rk.t { SentPast(e, u, rk.t, up.t); }
  }

  // ---------------------------------------------------------------- waiting for the rank downstream

  /** Once the block after the last one has been reached downstream, nothing more is sent upstream. */
  lemma {:induction false} SentUpTo(n: int, m: nat, u: int, d: int, t0: int, t: int)
    requires 0 <= d < n && Up(n, d) == u && t0 >= n - 1 - d && t >= n - 1 - u && BlockOf(n, d, t0).step > m
    ensures FullSent(n, m, u, t) <= FullSent(n, m, u, t0 - 1)
    ensures TimeSent(n, m, u, t) <= TimeSent(n, m, u, t0 - 1)
    ensures GhostSent(n, m, u, t) <= GhostSent(n, m, u, t0 - 1)
  {
    LastStepUp(n, m, u, d, t0);
    if t <= t0 - 1 {
      SentMonotone(n, m, u, t, t0 - 1);
    } else {
      SentConstant(n, m, u, t0 - 1, t);
    }
  }

  lemma LastStepUp(n: int, m: nat, u: int, d: int, t0: int)
    requires 0 <= d < n && Up(n, d) == u && t0 >= n - 1 - d && BlockOf(n, d, t0).step > m
    ensures t0 - 1 >= n - 1 - u && BlockOf(n, u, t0 - 1).step >= m
  {
    UpstreamBlock(n, d, t0);
  }

  lemma {:induction false} TookAll(n: int, m: nat, u: int, d: int, t0: int, t: int)
    requires 0 <= d < n && Up(n, d) == u && t0 >= n - 1 - d && t >= n - 1 - u && BlockOf(n, d, t0).step > m
    requires t0 > n - 1 - d ==> BlockOf(n, d, t0 - 1).step <= m
    ensures FullSent(n, m, u, t) <= FullTaken(n, d, t0)
    ensures TimeSent(n, m, u, t) <= TimeTaken(n, d, t0)
    ensures GhostSent(n, m, u, t) <= GhostTaken(n, d, t0)
  {
    SentUpTo(n, m, u, d, t0, t);
    Matching(n, m, d, t0);
    SentMonotone(n, m, u, t0 - 1, t0);
  }

  /** A finished rank has taken everything its upstream rank has sent by diagonal t. */
  lemma {:induction false} FinishedTook(e: Env, u: int, d: int, down: Rank, t: int)
    requires 0 <= u < e.ranks && t >= e.ranks - 1 - u
    requires Position(e, d, down) && Up(e.ranks, d) == u && Finished(e, d, down)
    ensures FullSent(e.ranks, e.maxStep, u, t) <= FullTaken(e.ranks, d, down.t)
    ensures TimeSent(e.ranks, e.maxStep, u, t) <= TimeTaken(e.ranks, d, down.t)
    ensures GhostSent(e.ranks, e.maxStep, u, t) <= GhostTaken(e.ranks, d, down.t)
  {
    TookAll(e.ranks, e.maxStep, u, d, down.t, t);
  }

  lemma {:induction false} GhostsTook(e: Env, u: int, up: Rank, d: int, down: Rank)
    requires Position(e, u, up) && Position(e, d, down) && Up(e.ranks, d) == u
    requires Behind(e, u, up, d, down) && Group(up.ph) == 1
    ensures GhostSent(e.ranks, e.maxStep, u, up.t) <= GhostTaken(e.ranks, d, down.t)
  {
    if Finished(e, d, down) {
      FinishedTook(e, u, d, down, up.t);
    } else {
      Matching(e.ranks, e.maxStep, d, down.t);
      SentMonotone(e.ranks, e.maxStep, u, up.t, down.t);
    }
  }

  lemma FullTook(e: Env, u: int, up: Rank, d: int, down: Rank)
    requires Position(e, u, up) && Position(e, d, down) && Up(e.ranks, d) == u
    requires Behind(e, u, up, d, down) && Group(up.ph) == 3
    ensures FullSent(e.ranks, e.maxStep, u, up.t) <= PartsTaken(e, d, down) <= CountTaken(e, d, down)
    ensures TimeSent(e.ranks, e.maxStep, u, up.t) <= TimesTaken(e, d, down)
  {
    if Finished(e, d, down) {
      FinishedTook(e, u, d, down, up.t);
    } else {
      FullTookUnfinished(e, u, up, d, down);
    }
  }

  lemma FullTookUnfinished(e: Env, u: int, up: Rank, d: int, down: Rank)
    requires Position(e, u, up) && Position(e, d, down) && Up(e.ranks, d) == u && !Finished(e, d, down)
    requires Behind(e, u, up, d, down) && Group(up.ph) == 3
    ensures FullSent(e.ranks, e.maxStep, u, up.t) <= PartsTaken(e, d, down) <= CountTaken(e, d, down)
    ensures TimeSent(e.ranks, e.maxStep, u, up.t) <= TimesTaken(e, d, down)
  {
    if down.t == up.t {
      TookInBlock(e, u, d, down);
    } else {
      TookBefore(e, u, d, down, up.t);
    }
  }

  lemma TookInBlock(e: Env, u: int, d: int, down: Rank)
    requires Position(e, d, down) && Up(e.ranks, d) == u && !Finished(e, d, down) && Ord(down.ph) >= 11
    ensures FullSent(e.ranks, e.maxStep, u, down.t) == PartsTaken(e, d, down) == CountTaken(e, d, down)
    ensures TimeSent(e.ranks, e.maxStep, u, down.t) == TimesTaken(e, d, down)
  {
    Matching(e.ranks, e.maxStep, d, down.t + 1);
    TakenNext(e, d, down.t);
  }

  lemma {:induction false} TookBefore(e: Env, u: int, d: int, down: Rank, t: int)
    requires Position(e, d, down) && Up(e.ranks, d) == u && t < down.t
    ensures FullSent(e.ranks, e.maxStep, u, t) <= PartsTaken(e, d, down) <= CountTaken(e, d, down)
    ensures TimeSent(e.ranks, e.maxStep, u, t) <= TimesTaken(e, d, down)
  {
    Matching(e.ranks, e.maxStep, d, down.t);
    SentMonotone(e.ranks, e.maxStep, u, t, down.t - 1);
  }

  // ---------------------------------------------------------------- the next transition

  /** The particles announced are on their way once more payloads have been packed than taken. */
  lemma {:induction false} PartsReady(parts: Chan<seq<Particle>>, log: seq<seq<Particle>>, x: nat, i: nat)
    requires Packed(parts.sent, log, x) && i < x && parts.taken == NonEmpty(log, i) && |log[i]| > 0
    ensures parts.Ready()
  {
    NonEmptyNext(log, i);
    NonEmptyMonotone(log, i + 1, x);
  }

  lemma PartsDrained(parts: Chan<seq<Particle>>, log: seq<seq<Particle>>, x: nat, i: nat)
    requires Packed(parts.sent, log, x) && i <= |log| && parts.taken == NonEmpty(log, i) && x <= i
    ensures parts.Drained()
  {
    NonEmptyMonotone(log, x, i);
  }

  /** Nothing a rank waits for from upstream is missing when that rank is not behind. */
  ghost predicate Served(e: Env, b: Block, rk: Rank, inc: Link) {
    && (rk.ph == RecvTime && TakesTime(e, b) ==> inc.time.Ready())
    && (rk.ph == RecvCount && TakesFull(e, b) ==> inc.count.Ready())
    && (rk.ph == RecvParts && TakesFull(e, b) && rk.np > 0 ==> inc.parts.Ready())
    && (rk.ph == RecvGhostCount && TakesGhost(e, b) ==> inc.ghostCount.Ready())
    && (rk.ph == RecvGhostParts && TakesGhost(e, b) && rk.np > 0 ==> inc.ghostParts.Ready())
  }

  lemma {:induction false} ServedFull(w: World, r: int, rk: Rank, inc: Link, up: Rank)
    requires RingWorld(w) && Position(w.e, r, rk) && !Finished(w.e, r, rk) && Position(w.e, Up(w.e.ranks, r), up)
    requires FullIn(w.e, r, rk, inc) && FullOut(w, Up(w.e.ranks, r), up, inc) && Behind(w.e, r, rk, Up(w.e.ranks, r), up)
    ensures rk.ph == RecvCount && TakesFull(w.e, Cur(w.e, r, rk)) ==> inc.count.Ready()
    ensures rk.ph == RecvParts && TakesFull(w.e, Cur(w.e, r, rk)) && rk.np > 0 ==> inc.parts.Ready()
  {
    if TakesFull(w.e, Cur(w.e, r, rk)) && rk.ph in {RecvCount, RecvParts} {
      FullReady(w.e, r, rk, up);
      if rk.ph == RecvParts && rk.np > 0 {
        PartsReady(inc.parts, inc.fullLog, FullSent(w.e.ranks, w.e.maxStep, Up(w.e.ranks, r), up.t), FullTaken(w.e.ranks, r, rk.t));
      }
    }
  }

  lemma ServedTime(w: World, r: int, rk: Rank, inc: Link, up: Rank)
    requires RingWorld(w) && Position(w.e, r, rk) && !Finished(w.e, r, rk) && Position(w.e, Up(w.e.ranks, r), up)
    requires TimeIn(w.e, r, rk, inc) && TimeOut(w, Up(w.e.ranks, r), up, inc) && Behind(w.e, r, rk, Up(w.e.ranks, r), up)
    ensures rk.ph == RecvTime && TakesTime(w.e, Cur(w.e, r, rk)) ==> inc.time.Ready()
  {
    if rk.ph == RecvTime && TakesTime(w.e, Cur(w.e, r, rk)) { FullReady(w.e, r, rk, up); }
  }

  lemma {:induction false} ServedGhost(w: World, r: int, rk: Rank, inc: Link, up: Rank)
    requires RingWorld(w) && Position(w.e, r, rk) && !Finished(w.e, r, rk) && Position(w.e, Up(w.e.ranks, r), up)
    requires GhostIn(w.e, r, rk, inc) && GhostOut(w, Up(w.e.ranks, r), up, inc) && Behind(w.e, r, rk, Up(w.e.ranks, r), up)
    ensures rk.ph == RecvGhostCount && TakesGhost(w.e, Cur(w.e, r, rk)) ==> inc.ghostCount.Ready()
    ensures rk.ph == RecvGhostParts && TakesGhost(w.e, Cur(w.e, r, rk)) && rk.np > 0 ==> inc.ghostParts.Ready()
  {
    if TakesGhost(w.e, Cur(w.e, r, rk)) && rk.ph in {RecvGhostCount, RecvGhostParts} {
      GhostReady(w.e, r, rk, up);
      if rk.ph == RecvGhostParts && rk.np > 0 {
        PartsReady(inc.ghostParts, inc.ghostLog, GhostPartsCount(w.e, Up(w.e.ranks, r), up), GhostTaken(w.e.ranks, r, rk.t));
      }
    }
  }

  /** Nothing a rank waits for from downstream is still in the way when that rank is not behind. */
  lemma FullUnblocked(w: World, r: int, rk: Rank, out: Link, d: int, down: Rank)
    requires RingWorld(w) && Position(w.e, r, rk) && Position(w.e, d, down) && Up(w.e.ranks, d) == r && Behind(w.e, r, rk, d, down)
    requires FullOut(w, r, rk, out) && FullIn(w.e, d, down, out) && rk.ph == AwaitFull
    ensures out.count.Drained() && out.parts.Drained()
  {
    FullTook(w.e, r, rk, d, down);
    PartsDrained(out.parts, out.fullLog, FullSent(w.e.ranks, w.e.maxStep, r, rk.t), PartsTaken(w.e, d, down));
  }

  lemma TimeUnblocked(w: World, r: int, rk: Rank, out: Link, d: int, down: Rank)
    requires RingWorld(w) && Position(w.e, r, rk) && Position(w.e, d, down) && Up(w.e.ranks, d) == r && Behind(w.e, r, rk, d, down)
    requires TimeOut(w, r, rk, out) && TimeIn(w.e, d, down, out) && rk.ph == AwaitFull
    ensures out.time.Drained()
  {
    FullTook(w.e, r, rk, d, down);
  }

  lemma GhostUnblocked(w: World, r: int, rk: Rank, out: Link, d: int, down: Rank)
    requires RingWorld(w) && Position(w.e, r, rk) && Position(w.e, d, down) && Up(w.e.ranks, d) == r && Behind(w.e, r, rk, d, down)
    requires GhostOut(w, r, rk, out) && GhostIn(w.e, d, down, out) && rk.ph == AwaitGhost
    ensures out.ghostCount.Drained() && out.ghostParts.Drained()
  {
    GhostsTook(w.e, r, rk, d, down);
    PartsDrained(out.ghostParts, out.ghostLog, GhostSent(w.e.ranks, w.e.maxStep, r, rk.t), GhostPartsTaken(w.e, d, down));
  }

  // ---------------------------------------------------------------- no deadlock

  /** Everything a least rank waits for is there. */
  lemma ServedLeast(w: World, r: int, rk: Rank, inc: Link, up: Rank)
    requires RingWorld(w) && Position(w.e, r, rk) && !Finished(w.e, r, rk) && Position(w.e, Up(w.e.ranks, r), up)
    requires TakeInv(w.e, r, rk, inc) && SendInv(w, Up(w.e.ranks, r), up, inc) && Behind(w.e, r, rk, Up(w.e.ranks, r), up)
    ensures Served(w.e, Cur(w.e, r, rk), rk, inc)
  {
    ServedFull(w, r, rk, inc, up);
    ServedTime(w, r, rk, inc, up);
    ServedGhost(w, r, rk, inc, up);
  }

  lemma {:induction false} ServedMoves(w: World, b: Block, rk: Rank, inc: Link, done: Log) returns (c: Sorting)
    requires RingWorld(w) && 0 <= b.box < w.e.ranks && BlockInv(w, b, rk, done) && Served(w.e, b, rk, inc)
    ensures CanMove(w.e, b, rk, inc, c)
  {
    var s, off := SortingExists(w.e.g, rk.arr);
    c := Sorting(s, off);
    if Ord(rk.ph) >= 11 { AboutToSendFull(w, b, rk, done); }
  }

  lemma UnblockedLeast(w: World, r: int, rk: Rank, out: Link, d: int, down: Rank)
    requires RingWorld(w) && Position(w.e, r, rk) && Position(w.e, d, down) && Up(w.e.ranks, d) == r && Behind(w.e, r, rk, d, down)
    requires SendInv(w, r, rk, out) && TakeInv(w.e, d, down, out)
    ensures Unblocked(w.e, Cur(w.e, r, rk), rk, out)
  {
    if rk.ph == AwaitFull {
      FullUnblocked(w, r, rk, out, d, down);
      TimeUnblocked(w, r, rk, out, d, down);
    } else if rk.ph == AwaitGhost {
      GhostUnblocked(w, r, rk, out, d, down);
    }
  }

  /** Rank r is unfinished, and of all unfinished ranks none has a smaller measure. */
  ghost predicate Least(e: Env, st: State, r: int)
    requires RingEnv(e) && Shape(e, st) && (forall q :: 0 <= q < e.ranks ==> Position(e, q, st.ranks[q]))
  {
    && 0 <= r < e.ranks && !Finished(e, r, st.ranks[r])
    && forall q :: 0 <= q < e.ranks ==> Behind(e, r, st.ranks[r], q, st.ranks[q])
  }

  ghost predicate CanStepBlocking(e: Env, st: State, r: int, c: Sorting)
    requires RingEnv(e) && Shape(e, st)
  {
    CanStep(e, st, r, c) && Unblocked(e, Cur(e, r, st.ranks[r]), st.ranks[r], st.links[r])
  }

  lemma {:induction false} PositionsOk(w: World, st: State)
    requires RingWorld(w) && Inv(w, st)
    ensures forall q :: 0 <= q < w.e.ranks ==> Position(w.e, q, st.ranks[q])
  {
  }

  /** The least rank can move even if its sends block until they have been received. */
  lemma {:induction false} LeastMoves(w: World, st: State, r: int) returns (c: Sorting)
    requires RingWorld(w) && Inv(w, st) && (forall q :: 0 <= q < w.e.ranks ==> Position(w.e, q, st.ranks[q])) && Least(w.e, st, r)
    ensures CanStepBlocking(w.e, st, r, c)
  {
    var u, d := Up(w.e.ranks, r), Down(w.e.ranks, r);
    ServedLeast(w, r, st.ranks[r], st.links[u], st.ranks[u]);
    c := ServedMoves(w, Cur(w.e, r, st.ranks[r]), st.ranks[r], st.links[u], SeenBefore(w, r, st.ranks[r].t));
    UnblockedLeast(w, r, st.ranks[r], st.links[r], d, st.ranks[d]);
  }

  lemma {:induction false} LeastExists(e: Env, st: State, n: nat) returns (r: int)
    requires Shape(e, st) && (forall q :: 0 <= q < e.ranks ==> Position(e, q, st.ranks[q])) && n <= e.ranks
    ensures r == -1 ==> forall q :: 0 <= q < n ==> Finished(e, q, st.ranks[q])
    ensures r != -1 ==> 0 <= r < n && !Finished(e, r, st.ranks[r])
    ensures r != -1 ==> forall q :: 0 <= q < n ==> Behind(e, r, st.ranks[r], q, st.ranks[q])
  {
    if n == 0 {
      r := -1;
    } else {
      r := LeastExists(e, st, n - 1);
      if !Finished(e, n - 1, st.ranks[n - 1]) && (r == -1 || Measure(st.ranks[n - 1]) < Measure(st.ranks[r])) { r := n - 1; }
    }
  }
}
