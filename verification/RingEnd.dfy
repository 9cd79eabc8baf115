/** Every run of the ring ends, ends with all ranks finished, and leaves nothing on the wire. */
module RingEnd {
  import opened Beam
  import opened Serial
  import opened Schedule
  import opened Ring
  import opened RingData
  import opened RingInv
  import opened RingStep
  import opened RingLinks
  import opened RingRun
  import opened RingLive

  // ---------------------------------------------------------------- no deadlock

  /** The state after a transition of rank r. */
  ghost function After(e: Env, st: State, r: int, c: Sorting): State
    requires RingEnv(e) && Shape(e, st) && CanStep(e, st, r, c)
  {
    var rk, b, inc := st.ranks[r], Cur(e, r, st.ranks[r]), st.links[Up(e.ranks, r)];
    State(st.ranks[r := NextRank(e, b, rk, inc, c)],
          seq(e.ranks, l requires 0 <= l < e.ranks => NextLink(e, b, r, rk, inc, c, l, st.links[l])))
  }

  lemma {:induction false} AfterIsStep(e: Env, st: State, r: int, c: Sorting)
    requires RingEnv(e) && Shape(e, st) && CanStep(e, st, r, c)
    ensures Step(e, st, r, c, After(e, st, r, c))
  {
  }

  lemma {:induction false} LeastSteps(w: World, st: State) returns (r: int, c: Sorting)
    requires RingWorld(w) && Inv(w, st) && forall q :: 0 <= q < w.e.ranks ==> Position(w.e, q, st.ranks[q])
    requires exists q :: 0 <= q < w.e.ranks && !Finished(w.e, q, st.ranks[q])
    ensures Least(w.e, st, r) && CanStepBlocking(w.e, st, r, c)
  {
    r := LeastExists(w.e, st, w.e.ranks);
    c := LeastMoves(w, st, r);
  }

  /** Deadlock freedom under fully blocking send completion: while some rank is unfinished, the unfinished rank with
      the least measure can take a step. */
  lemma {:induction false} NoDeadlock(e: Env, st: State) returns (r: int, c: Sorting)
    requires RingEnv(e) && Reachable(e, st) && Shape(e, st)
    requires exists q :: 0 <= q < e.ranks && !Finished(e, q, st.ranks[q])
    ensures forall q :: 0 <= q < e.ranks ==> Position(e, q, st.ranks[q])
    ensures Least(e, st, r) && CanStepBlocking(e, st, r, c) && Step(e, st, r, c, After(e, st, r, c))
  {
    ReachableInv(e, st);
    PositionsOk(SerialWorld(e), st);
    r, c := LeastSteps(SerialWorld(e), st);
    AfterIsStep(e, st, r, c);
  }

  // ---------------------------------------------------------------- termination

  /** More than the number of transitions of a block. */
  function Width(e: Env): (d: int)
    requires e.Valid()
    ensures d >= 18
  {
    e.K() + 15
  }

  /** Transitions of the current block so far, at least. */
  function Inside(e: Env, b: Block, rk: Rank): int
    requires RingEnv(e) && 0 <= b.box < e.ranks
  {
    if Ord(rk.ph) < 7 then Ord(rk.ph) else if Ord(rk.ph) == 7 then 7 + (Hi(e, b.box) - 1 - rk.k) else e.K() + Ord(rk.ph)
  }

  /** Transitions of all earlier diagonals, at least: t times the width. */
  function Earlier(d: nat, t: int): (x: nat) {
    if t <= 0 then 0 else Earlier(d, t - 1) + d
  }

  lemma {:induction false} EarlierIsProduct(d: nat, t: nat)
    ensures Earlier(d, t) == t * d
  {
    if t > 0 {
      EarlierIsProduct(d, t - 1);
      assert (t - 1) * d + d == t * d;
    }
  }

  lemma {:induction false} EarlierMonotone(d: nat, t: int, u: int)
    requires t <= u
    ensures Earlier(d, t) <= Earlier(d, u)
    decreases u - t
  {
    if t < u { EarlierMonotone(d, t, u - 1); }
  }

  function Work(e: Env, r: int, rk: Rank): int
    requires RingEnv(e) && 0 <= r < e.ranks && rk.t >= e.ranks - 1 - r
  {
    Earlier(Width(e), rk.t) + Inside(e, Cur(e, r, rk), rk)
  }

  lemma InsideBound(w: World, b: Block, rk: Rank)
    requires RingWorld(w) && 0 <= b.box < w.e.ranks && StateOk(w, b, rk)
    ensures 0 <= Inside(w.e, b, rk) < Width(w.e)
    ensures Ord(rk.ph) == 7 ==> Inside(w.e, b, rk) < 7 + w.e.K()
  {
    SliceRange(w, b.box);
  }

  /** Phase and slice counter after a transition inside a block. */
  lemma {:induction false} NextPhase(e: Env, b: Block, rk: Rank, inc: Link, c: Sorting)
    requires RingEnv(e) && 0 <= b.box < e.ranks && CanMove(e, b, rk, inc, c) && rk.ph != SendParts
    ensures var nx := NextRank(e, b, rk, inc, c);
            && nx.ph == (if rk.ph == SolveCentral && rk.k > Lo(e, b.box) then SolveCentral else Succ(rk.ph))
            && (rk.ph == SolveCentral && rk.k > Lo(e, b.box) ==> nx.k == rk.k - 1)
  {
  }

  /** A transition inside a block moves on inside it. */
  lemma {:induction false} InsideGrows(w: World, b: Block, rk: Rank, inc: Link, c: Sorting, nx: Rank)
    requires RingWorld(w) && 0 <= b.box < w.e.ranks && StateOk(w, b, rk) && StateOk(w, b, nx) && rk.ph != SendParts
    requires CanMove(w.e, b, rk, inc, c) && nx == NextRank(w.e, b, rk, inc, c)
    ensures Inside(w.e, b, rk) < Inside(w.e, b, nx) && nx.t == rk.t
  {
    SameTurn(w.e, b, rk, inc, c);
    NextPhase(w.e, b, rk, inc, c);
    InsideNext(w, b, rk, nx);
  }

  lemma {:induction false} InsideNext(w: World, b: Block, rk: Rank, nx: Rank)
    requires RingWorld(w) && 0 <= b.box < w.e.ranks && StateOk(w, b, rk) && StateOk(w, b, nx) && rk.ph != SendParts
    requires nx.ph == (if rk.ph == SolveCentral && rk.k > Lo(w.e, b.box) then SolveCentral else Succ(rk.ph))
    requires rk.ph == SolveCentral && rk.k > Lo(w.e, b.box) ==> nx.k == rk.k - 1
    ensures Inside(w.e, b, rk) < Inside(w.e, b, nx)
  {
    SliceRange(w, b.box);
  }

  lemma BlockEnds(e: Env, b: Block, rk: Rank, inc: Link, c: Sorting)
    requires RingEnv(e) && 0 <= b.box < e.ranks && CanMove(e, b, rk, inc, c) && rk.ph == SendParts
    ensures NextRank(e, b, rk, inc, c).t == rk.t + 1 && NextRank(e, b, rk, inc, c).ph == RecvTime
  {
  }

  lemma {:induction false} WorkGrows(w: World, r: int, rk: Rank, inc: Link, c: Sorting, nx: Rank)
    requires RingWorld(w) && RankInv(w, r, rk) && RankInv(w, r, nx)
    requires CanMove(w.e, Cur(w.e, r, rk), rk, inc, c) && nx == NextRank(w.e, Cur(w.e, r, rk), rk, inc, c)
    ensures Work(w.e, r, rk) + 1 <= Work(w.e, r, nx)
  {
    if rk.ph == SendParts {
      BlockEnds(w.e, Cur(w.e, r, rk), rk, inc, c);
      WorkOfNext(w, r, rk, nx);
    } else {
      SameTurn(w.e, Cur(w.e, r, rk), rk, inc, c);
      InsideGrows(w, Cur(w.e, r, rk), rk, inc, c, nx);
    }
  }

  lemma RankState(w: World, r: int, rk: Rank)
    requires RingWorld(w) && RankInv(w, r, rk)
    ensures Position(w.e, r, rk) && StateOk(w, Cur(w.e, r, rk), rk)
  {
  }

  lemma {:induction false} WorkOfNext(w: World, r: int, rk: Rank, nx: Rank)
    requires RingWorld(w) && RankInv(w, r, rk) && 0 <= r < w.e.ranks && nx.t == rk.t + 1 && nx.ph == RecvTime
    ensures Work(w.e, r, rk) + 1 <= Work(w.e, r, nx)
  {
    RankState(w, r, rk);
    InsideBound(w, Cur(w.e, r, rk), rk);
    NextDiagonal(w.e, r, rk, nx);
  }

  lemma {:induction false} NextDiagonal(e: Env, r: int, rk: Rank, nx: Rank)
    requires RingEnv(e) && 0 <= r < e.ranks && rk.t >= e.ranks - 1 - r && nx.t == rk.t + 1 && nx.ph == RecvTime
    requires Inside(e, Cur(e, r, rk), rk) < Width(e)
    ensures Work(e, r, rk) + 1 <= Work(e, r, nx)
  {
    assert Inside(e, Cur(e, r, nx), nx) == 0;
    assert Earlier(Width(e), nx.t) == Earlier(Width(e), rk.t) + Width(e);
  }

  /** The largest diagonal a rank can reach. */
  lemma LastDiagonal(e: Env, r: int, rk: Rank)
    requires RingEnv(e) && Position(e, r, rk)
    ensures rk.t <= e.maxStep + e.ranks
  {
  }

  function WorkLimit(e: Env): nat
    requires RingEnv(e)
  {
    Earlier(Width(e), e.maxStep + e.ranks + 1)
  }

  lemma {:induction false} WorkBound(w: World, r: int, rk: Rank)
    requires RingWorld(w) && RankInv(w, r, rk)
    ensures 0 <= Work(w.e, r, rk) <= WorkLimit(w.e)
  {
    RankState(w, r, rk);
    LastDiagonal(w.e, r, rk);
    InsideBound(w, Cur(w.e, r, rk), rk);
    WorkWithin(w.e, r, rk);
  }

  lemma {:induction false} WorkWithin(e: Env, r: int, rk: Rank)
    requires RingEnv(e) && 0 <= r < e.ranks && e.ranks - 1 - r <= rk.t <= e.maxStep + e.ranks
    requires 0 <= Inside(e, Cur(e, r, rk), rk) < Width(e)
    ensures 0 <= Work(e, r, rk) <= WorkLimit(e)
  {
    EarlierMonotone(Width(e), rk.t, e.maxStep + e.ranks);
    assert WorkLimit(e) == Earlier(Width(e), e.maxStep + e.ranks) + Width(e);
  }

  ghost function Total(f: int -> int, n: nat): int { if n == 0 then 0 else Total(f, n - 1) + f(n - 1) }

  /** Work of every rank. */
  ghost function WorkOf(e: Env, st: State): int -> int
    requires RingEnv(e) && Shape(e, st)
  {
    (q: int) => if 0 <= q < e.ranks then Work(e, q, st.ranks[q]) else 0
  }

  /** Work of the first n ranks. */
  ghost function TotalWork(e: Env, st: State, n: nat): int
    requires RingEnv(e) && Shape(e, st) && n <= e.ranks
  {
    Total(WorkOf(e, st), n)
  }

  lemma {:induction false} TotalMore(f: int -> int, g: int -> int, r: int, n: nat)
    requires (forall q :: 0 <= q < n && q != r ==> f(q) == g(q)) && r >= 0 && f(r) + 1 <= g(r)
    ensures Total(f, n) + (if r < n then 1 else 0) <= Total(g, n)
  {
    if n > 0 { TotalMore(f, g, r, n - 1); }
  }

  lemma {:induction false} TotalWithin(f: int -> int, n: nat, limit: nat)
    requires forall q :: 0 <= q < n ==> 0 <= f(q) <= limit
    ensures 0 <= Total(f, n) <= Earlier(limit, n)
  {
    if n > 0 { TotalWithin(f, n - 1, limit); }
  }

  lemma {:induction false} TotalGrows(e: Env, st: State, st': State, r: int)
    requires RingEnv(e) && Shape(e, st) && Shape(e, st') && 0 <= r < e.ranks
    requires forall q :: 0 <= q < e.ranks && q != r ==> st'.ranks[q] == st.ranks[q]
    requires Work(e, r, st.ranks[r]) + 1 <= Work(e, r, st'.ranks[r])
    ensures TotalWork(e, st, e.ranks) + 1 <= TotalWork(e, st', e.ranks)
  {
    TotalMore(WorkOf(e, st), WorkOf(e, st'), r, e.ranks);
  }

  lemma {:induction false} TotalBound(e: Env, st: State)
    requires RingEnv(e) && Shape(e, st)
    requires forall q :: 0 <= q < e.ranks ==> 0 <= Work(e, q, st.ranks[q]) <= WorkLimit(e)
    ensures 0 <= TotalWork(e, st, e.ranks) <= Earlier(WorkLimit(e), e.ranks)
  {
    TotalWithin(WorkOf(e, st), e.ranks, WorkLimit(e));
  }

  lemma {:induction false} AllBounded(w: World, st: State)
    requires RingWorld(w) && Inv(w, st)
    ensures 0 <= TotalWork(w.e, st, w.e.ranks) <= Earlier(WorkLimit(w.e), w.e.ranks)
  {
    forall q | 0 <= q < w.e.ranks ensures 0 <= Work(w.e, q, st.ranks[q]) <= WorkLimit(w.e) {
      WorkBound(w, q, st.ranks[q]);
    }
    TotalBound(w.e, st);
  }

  lemma {:induction false} StepWorks(w: World, st: State, r: int, c: Sorting, st': State)
    requires RingWorld(w) && Inv(w, st) && Inv(w, st') && Step(w.e, st, r, c, st')
    ensures TotalWork(w.e, st, w.e.ranks) + 1 <= TotalWork(w.e, st', w.e.ranks)
  {
    WorkGrows(w, r, st.ranks[r], st.links[Up(w.e.ranks, r)], c, st'.ranks[r]);
    TotalGrows(w.e, st, st', r);
  }

  /** The invariant, after at least i transitions. */
  ghost predicate Progress(w: World, st: State, i: nat)
    requires RingWorld(w)
  {
    Inv(w, st) && TotalWork(w.e, st, w.e.ranks) >= i
  }

  lemma {:induction false} ProgressStep(w: World, st: State, st': State, i: nat)
    requires RingWorld(w) && Progress(w, st, i) && Steps(w.e, st, st')
    ensures Progress(w, st', i + 1)
  {
    var r: int, c: Sorting :| Step(w.e, st, r, c, st');
    StepInv(w, st, r, c, st');
    StepWorks(w, st, r, c, st');
  }

  lemma {:induction false} ProgressStart(w: World, st: State)
    requires RingWorld(w) && Init(w.e, st)
    ensures Progress(w, st, 0)
  {
    InitInv(w, st);
    AllBounded(w, st);
  }

  lemma {:induction false} RunWorks(w: World, run: seq<State>, i: nat)
    requires RingWorld(w) && Run(w.e, run) && i < |run|
    ensures Progress(w, run[i], i)
  {
    if i == 0 {
      ProgressStart(w, run[0]);
    } else {
      RunWorks(w, run, i - 1);
      assert Steps(w.e, run[i - 1], run[i - 1 + 1]);
      ProgressStep(w, run[i - 1], run[i], i - 1);
    }
  }

  lemma {:induction false} RunBound(w: World, run: seq<State>)
    requires RingWorld(w) && Run(w.e, run)
    ensures |run| - 1 <= Earlier(WorkLimit(w.e), w.e.ranks)
  {
    RunWorks(w, run, |run| - 1);
    AllBounded(w, run[|run| - 1]);
  }

  /** Every run ends: its length is bounded by the size of the simulation. */
  lemma {:induction false} RunsEnd(e: Env, run: seq<State>)
    requires RingEnv(e) && Run(e, run)
    ensures |run| - 1 <= e.ranks * ((e.maxStep + e.ranks + 1) * (e.K() + 15))
  {
    SerialWorldValid(e);
    RunBound(SerialWorld(e), run);
    EarlierIsProduct(Width(e), e.maxStep + e.ranks + 1);
    EarlierIsProduct(WorkLimit(e), e.ranks);
  }

  // ---------------------------------------------------------------- the end

  predicate AllDrained(lk: Link) {
    lk.time.Drained() && lk.count.Drained() && lk.parts.Drained() && lk.ghostCount.Drained() && lk.ghostParts.Drained()
  }

  /** A link between two finished ranks. */
  lemma {:induction false} DrainedLink(w: World, u: int, up: Rank, d: int, down: Rank, lk: Link)
    requires RingWorld(w) && Position(w.e, u, up) && Position(w.e, d, down) && Up(w.e.ranks, d) == u
    requires Finished(w.e, u, up) && Finished(w.e, d, down) && SendInv(w, u, up, lk) && TakeInv(w.e, d, down, lk)
    ensures AllDrained(lk)
  {
    FinishedTook(w.e, u, d, down, up.t);
    PartsDrained(lk.parts, lk.fullLog, FullSent(w.e.ranks, w.e.maxStep, u, up.t), PartsTaken(w.e, d, down));
    PartsDrained(lk.ghostParts, lk.ghostLog, GhostPartsCount(w.e, u, up), GhostPartsTaken(w.e, d, down));
  }

  /** When all ranks are finished, every message sent has been received. */
  lemma {:induction false} NothingLeftOnTheWire(e: Env, st: State, l: int)
    requires RingEnv(e) && Reachable(e, st) && Shape(e, st) && 0 <= l < e.ranks
    requires forall q :: 0 <= q < e.ranks ==> Finished(e, q, st.ranks[q])
    ensures AllDrained(st.links[l])
  {
    ReachableInv(e, st);
    EndDrained(SerialWorld(e), st, l);
  }

  lemma {:induction false} EndDrained(w: World, st: State, l: int)
    requires RingWorld(w) && Inv(w, st) && 0 <= l < w.e.ranks
    requires forall q :: 0 <= q < w.e.ranks ==> Finished(w.e, q, st.ranks[q])
    ensures AllDrained(st.links[l])
  {
    var d := Down(w.e.ranks, l);
    DrainedLink(w, l, st.ranks[l], d, st.ranks[d], st.links[l]);
  }
}
