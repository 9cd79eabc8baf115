/** What the ring guarantees, over every reachable state of every run. */
module RingTheorems {
  import opened Beam
  import opened Serial
  import opened Schedule
  import opened Ring
  import opened RingData
  import opened RingTail
  import opened RingInv
  import opened RingStep
  import opened RingLinks
  import opened RingRun
  import opened RingLive

  // ---------------------------------------------------------------- pipelining refines the serial loop

  /** What the serial loop nest shows the solver on slice k of step s: the valid particles of the slice and of the
      slice behind it, each once. */
  ghost function SerialView(e: Env, s: nat, k: int): Seen
    requires e.Valid()
  {
    Seen(s, k, multiset(Particles(e, BeamAt(e, s), k)), multiset(Particles(e, BeamAt(e, s), k - 1)))
  }

  /** An entry of the log after the slices k, ..., last is one of these slices, or was there before. */
  lemma {:induction false} DownEntry(w: World, s: nat, k: int, last: int, done: Log, x: Seen)
    requires Occurrences(SeesDown(w, s, k, last, done), x) > 0
    ensures Occurrences(done, x) > 0 || (last <= x.slice <= k && x == SerialSees(w, s, x.slice))
    decreases k - last
  {
    if k >= last && x != SerialSees(w, s, last) { DownEntry(w, s, k, last + 1, done, x); }
  }

  /** An entry of the log of a rank: a serial view, of a step that belongs to the rank. */
  ghost predicate GoodView(w: World, r: int, x: Seen)
    requires RingWorld(w) && 0 <= r < w.e.ranks
  {
    && x.step <= w.e.maxStep && Owner(w.e.ranks, x.step) == r && 0 <= x.slice < w.e.K()
    && x == SerialSees(w, x.step, x.slice)
  }

  lemma {:induction false} BlockViews(w: World, r: int, t: int, last: int, done: Log, x: Seen)
    requires RingWorld(w) && 0 <= r < w.e.ranks && t >= w.e.ranks - 1 - r && BlockOf(w.e.ranks, r, t).step <= w.e.maxStep
    requires last >= Lo(w.e, BlockOf(w.e.ranks, r, t).box)
    requires Occurrences(SeesDown(w, BlockOf(w.e.ranks, r, t).step, Hi(w.e, BlockOf(w.e.ranks, r, t).box), last, done), x) > 0
    ensures Occurrences(done, x) > 0 || GoodView(w, r, x)
  {
    var b := BlockOf(w.e.ranks, r, t);
    DownEntry(w, b.step, Hi(w.e, b.box), last, done, x);
    StepOfRank(w.e.ranks, r, t);
    SliceRange(w, b.box);
  }

  lemma {:induction false} PastViews(w: World, r: int, t: int, x: Seen)
    requires RingWorld(w) && 0 <= r < w.e.ranks && Occurrences(SeenBefore(w, r, t), x) > 0
    requires t > w.e.ranks - 1 - r ==> BlockOf(w.e.ranks, r, t - 1).step <= w.e.maxStep
    ensures GoodView(w, r, x)
    decreases t
  {
    if t > w.e.ranks - 1 - r {
      BlockViews(w, r, t - 1, Lo(w.e, BlockOf(w.e.ranks, r, t - 1).box), SeenBefore(w, r, t - 1), x);
      if Occurrences(SeenBefore(w, r, t - 1), x) > 0 { PastViews(w, r, t - 1, x); }
    }
  }

  lemma {:induction false} RankViews(w: World, r: int, rk: Rank, x: Seen)
    requires RingWorld(w) && RankInv(w, r, rk) && Occurrences(rk.seen, x) > 0
    ensures GoodView(w, r, x)
  {
    if Finished(w.e, r, rk) {
      FinishedSeen(w, r, rk);
      PastViews(w, r, rk.t, x);
    } else {
      var last := RankLog(w, r, rk);
      LogViews(w, r, rk.t, last, rk.seen, x);
    }
  }

  /** The log of an unfinished rank: up to slice `last` of its block. */
  lemma {:induction false} RankLog(w: World, r: int, rk: Rank) returns (last: int)
    requires RingWorld(w) && RankInv(w, r, rk) && !Finished(w.e, r, rk)
    ensures SeenDownTo(w, r, rk.t, last, rk.seen)
  {
    last := Cursor(w.e, Cur(w.e, r, rk), rk);
    CursorAbove(w, Cur(w.e, r, rk), rk);
  }

  ghost predicate SeenDownTo(w: World, r: int, t: int, last: int, log: Log)
    requires RingWorld(w)
  {
    && 0 <= r < w.e.ranks && t >= w.e.ranks - 1 - r && (t > w.e.ranks - 1 - r ==> BlockOf(w.e.ranks, r, t - 1).step <= w.e.maxStep)
    && var b := BlockOf(w.e.ranks, r, t);
       b.step <= w.e.maxStep && last >= Lo(w.e, b.box) && log == SeesDown(w, b.step, Hi(w.e, b.box), last, SeenBefore(w, r, t))
  }

  lemma {:induction false} LogViews(w: World, r: int, t: int, last: int, log: Log, x: Seen)
    requires RingWorld(w) && SeenDownTo(w, r, t, last, log) && Occurrences(log, x) > 0
    ensures GoodView(w, r, x)
  {
    BlockViews(w, r, t, last, SeenBefore(w, r, t), x);
    if Occurrences(SeenBefore(w, r, t), x) > 0 { PastViews(w, r, t, x); }
  }

  lemma CursorAbove(w: World, b: Block, rk: Rank)
    requires RingWorld(w) && 0 <= b.box < w.e.ranks && StateOk(w, b, rk)
    ensures Lo(w.e, b.box) <= Cursor(w.e, b, rk) <= Hi(w.e, b.box) + 1
  {
    SliceRange(w, b.box);
  }

  /** Pipelining refines the serial loop: for every interleaving, whatever a rank has solved it solved on exactly the
      valid particles the serial loop nest has on that slice and on the next one in that step. */
  lemma {:induction false} PipelineRefinesSerial(e: Env, st: State, r: int, x: Seen)
    requires RingEnv(e) && Reachable(e, st) && Shape(e, st) && 0 <= r < e.ranks && Occurrences(st.ranks[r].seen, x) > 0
    ensures x.step <= e.maxStep && Owner(e.ranks, x.step) == r && 0 <= x.slice < e.K()
    ensures x == SerialView(e, x.step, x.slice)
  {
    ReachableInv(e, st);
    RankViews(SerialWorld(e), r, st.ranks[r], x);
  }

  lemma {:induction false} DownCount(w: World, s: nat, k: int, last: int, done: Log, u: nat, q: int)
    ensures Occurrences(SeesDown(w, s, k, last, done), SerialSees(w, u, q)) ==
            Occurrences(done, SerialSees(w, u, q)) + One(u == s && last <= q <= k)
    decreases k - last
  {
    if k >= last {
      DownCount(w, s, k, last + 1, done, u, q);
      assert SerialSees(w, s, last) == SerialSees(w, u, q) <==> s == u && last == q;
    }
  }

  /** Which block of a rank holds slice q of step s. */
  lemma {:induction false} WhichBlock(w: World, r: int, t: int, s: nat, q: int, box: int)
    requires RingWorld(w) && 0 <= r < w.e.ranks && t >= w.e.ranks - 1 - r && 0 <= box < w.e.ranks && Lo(w.e, box) <= q <= Hi(w.e, box)
    ensures var b := BlockOf(w.e.ranks, r, t);
            s == b.step && Lo(w.e, b.box) <= q <= Hi(w.e, b.box) <==> t == s + w.e.ranks - 1 - box && Owner(w.e.ranks, s) == r
  {
    var b := BlockOf(w.e.ranks, r, t);
    StepOfRank(w.e.ranks, r, t);
    if t == s + w.e.ranks - 1 - box && Owner(w.e.ranks, s) == r { OwnerBlock(w.e.ranks, s, box); }
    if b.box < box { EdgeOrder(w.e.g, b.box + 1, box); }
    if box < b.box { EdgeOrder(w.e.g, box + 1, b.box); }
  }

  lemma BlockCount(w: World, r: int, t: int, done: Log, s: nat, q: int, box: int)
    requires RingWorld(w) && 0 <= r < w.e.ranks && t >= w.e.ranks - 1 - r && 0 <= box < w.e.ranks && Lo(w.e, box) <= q <= Hi(w.e, box)
    ensures var b := BlockOf(w.e.ranks, r, t);
            Occurrences(SeesDown(w, b.step, Hi(w.e, b.box), Lo(w.e, b.box), done), SerialSees(w, s, q)) ==
            Occurrences(done, SerialSees(w, s, q)) + One(t == s + w.e.ranks - 1 - box && Owner(w.e.ranks, s) == r)
  {
    var b := BlockOf(w.e.ranks, r, t);
    DownCount(w, b.step, Hi(w.e, b.box), Lo(w.e, b.box), done, s, q);
    WhichBlock(w, r, t, s, q, box);
  }

  lemma {:induction false} PastCount(w: World, r: int, t: int, s: nat, q: int, box: int)
    requires RingWorld(w) && 0 <= r < w.e.ranks && 0 <= box < w.e.ranks && Lo(w.e, box) <= q <= Hi(w.e, box) && t >= w.e.ranks - 1 - r
    ensures Occurrences(SeenBefore(w, r, t), SerialSees(w, s, q)) ==
            One(w.e.ranks - 1 - r <= s + w.e.ranks - 1 - box < t && Owner(w.e.ranks, s) == r)
    decreases t
  {
    if t > w.e.ranks - 1 - r {
      PastCount(w, r, t - 1, s, q, box);
      CountNext(w, r, t - 1, SeenBefore(w, r, t - 1), s, q, box);
    }
  }

  lemma CountNext(w: World, r: int, t: int, done: Log, s: nat, q: int, box: int)
    requires RingWorld(w) && 0 <= r < w.e.ranks && 0 <= box < w.e.ranks && Lo(w.e, box) <= q <= Hi(w.e, box) && t >= w.e.ranks - 1 - r
    requires Occurrences(done, SerialSees(w, s, q)) == One(w.e.ranks - 1 - r <= s + w.e.ranks - 1 - box < t && Owner(w.e.ranks, s) == r)
    ensures var b := BlockOf(w.e.ranks, r, t);
            Occurrences(SeesDown(w, b.step, Hi(w.e, b.box), Lo(w.e, b.box), done), SerialSees(w, s, q)) ==
            One(w.e.ranks - 1 - r <= s + w.e.ranks - 1 - box < t + 1 && Owner(w.e.ranks, s) == r)
  {
    BlockCount(w, r, t, done, s, q, box);
  }

  /** At the end every slice of every step has been solved exactly once, by the rank the step belongs to. */
  lemma {:induction false} EverySliceOnce(e: Env, st: State, r: int, s: nat, k: int)
    requires RingEnv(e) && Reachable(e, st) && Shape(e, st) && 0 <= r < e.ranks && Finished(e, r, st.ranks[r])
    requires s <= e.maxStep && 0 <= k < e.K()
    ensures Occurrences(st.ranks[r].seen, SerialView(e, s, k)) == if Owner(e.ranks, s) == r then 1 else 0
  {
    ReachableInv(e, st);
    FinishedCount(SerialWorld(e), r, st.ranks[r], s, k);
  }

  lemma {:induction false} FinishedCount(w: World, r: int, rk: Rank, s: nat, k: int)
    requires RingWorld(w) && RankInv(w, r, rk) && Finished(w.e, r, rk) && s <= w.e.maxStep && 0 <= k < w.e.K()
    ensures Occurrences(rk.seen, SerialSees(w, s, k)) == One(Owner(w.e.ranks, s) == r)
  {
    var box := FindBox(w.e.g.edges, k, 0);
    PastCount(w, r, rk.t, s, k, box);
    FinishedSeen(w, r, rk);
    if Owner(w.e.ranks, s) == r { StepsDone(w.e, r, rk, s, box); }
  }

  lemma FinishedSeen(w: World, r: int, rk: Rank)
    requires RingWorld(w) && RankInv(w, r, rk) && Finished(w.e, r, rk)
    ensures rk.seen == SeenBefore(w, r, rk.t)
  {
    var b := Cur(w.e, r, rk);
    assert SeesDown(w, b.step, Hi(w.e, b.box), Hi(w.e, b.box) + 1, SeenBefore(w, r, rk.t)) == SeenBefore(w, r, rk.t);
  }

  /** A finished rank is past every block of its steps. */
  lemma StepsDone(e: Env, r: int, rk: Rank, s: nat, box: int)
    requires Position(e, r, rk) && Finished(e, r, rk) && s <= e.maxStep && 0 <= box < e.ranks
    requires Owner(e.ranks, s) == r
    ensures e.ranks - 1 - r <= s + e.ranks - 1 - box < rk.t
  {
    OwnerBlock(e.ranks, s, box);
    FinishedPast(e, r, rk, s + e.ranks - 1 - box);
  }

  /** Where every plasma reset is one at the time of its step, the ring sees what a single rank sees. */
  lemma {:induction false} RingSeesOneRank(e: Env, st: State, r: int, x: Seen)
    requires RingEnv(e) && Reachable(e, st) && Shape(e, st) && 0 <= r < e.ranks && Occurrences(st.ranks[r].seen, x) > 0
    requires ResetAgrees(e, e.maxStep)
    ensures OneRank(e).Valid()
    ensures x == SerialView(OneRank(e), x.step, x.slice)
  {
    PipelineRefinesSerial(e, st, r, x);
    OneRankValid(e);
    SameBeam(e, x.step);
    SameParticles(e, BeamAt(e, x.step), x.slice);
    SameParticles(e, BeamAt(e, x.step), x.slice - 1);
  }

  // ---------------------------------------------------------------- every particle is pushed once

  lemma {:induction false} ReachedArray(e: Env, st: State, r: int)
    requires RingEnv(e) && Reachable(e, st) && Shape(e, st) && 0 <= r < e.ranks
    ensures RingWorld(SerialWorld(e)) && ArrayOk(SerialWorld(e), Cur(e, r, st.ranks[r]), st.ranks[r])
  {
    ReachableInv(e, st);
    assert RankInv(SerialWorld(e), r, st.ranks[r]);
  }

  /** While a box is solved: an entry of the array is its particle as sorted until its slice is reached, and that
      particle pushed once, with the fields of its slice, from then on: it has the position and the attributes of the push,
      and its id has changed sign exactly if the push has lost it. The valid particles of the box each occur once. */
  lemma {:induction false} PushedOnce(e: Env, st: State, r: int, i: int, p: Particle)
    requires RingEnv(e) && Reachable(e, st) && Shape(e, st) && 0 <= r < e.ranks && Ord(st.ranks[r].ph) >= 4
    requires 0 <= i < st.ranks[r].nreal
    ensures var rk, b := st.ranks[r], Cur(e, r, st.ranks[r]);
            && |rk.bin| == |rk.orig| == rk.nreal <= |rk.arr|
            && var o, k := rk.orig[i], rk.bin[i];
            rk.arr[i] == if o.id >= 0 && k >= 0 && Cursor(e, b, rk) <= k < e.K() then
                           var q := e.push(FieldsAt(e, b.step, k), o);
                           o.(z := q.z, attr := q.attr, id := if q.lost then -o.id else o.id)
                         else o
    ensures var rk, b := st.ranks[r], Cur(e, r, st.ranks[r]);
            Live(e.g, p) && BoxOf(e.g, p) == b.box ==> multiset(rk.orig)[p] == if p in BeamAt(e, b.step) then 1 else 0
  {
    ReachedArray(e, st, r);
    var w, rk := SerialWorld(e), st.ranks[r];
    var b := Cur(e, r, rk);
    PushedEntryOnce(w, b, rk, i);
    if Live(e.g, p) && BoxOf(e.g, p) == b.box { BoxCountOnce(w, b, rk, p); }
  }

  lemma PushedEntryOnce(w: World, b: Block, rk: Rank, i: int)
    requires RingWorld(w) && 0 <= b.box < w.e.ranks && ArrayOk(w, b, rk) && Ord(rk.ph) >= 4 && 0 <= i < rk.nreal
    ensures |rk.bin| == |rk.orig| == rk.nreal <= |rk.arr|
    ensures rk.arr[i] == if rk.bin[i] >= 0 && Cursor(w.e, b, rk) <= rk.bin[i] < w.e.K()
                         then PushOne(w.e, w.fields(b.step, rk.bin[i]), rk.orig[i]) else rk.orig[i]
  {
  }

  lemma BoxCountOnce(w: World, b: Block, rk: Rank, p: Particle)
    requires RingWorld(w) && 0 <= b.box < w.e.ranks && ArrayOk(w, b, rk) && Ord(rk.ph) >= 4
    requires Live(w.e.g, p) && BoxOf(w.e.g, p) == b.box
    ensures multiset(rk.orig)[p] == One(p in w.beam(b.step))
  {
    if p in w.beam(b.step) {
      var j :| 0 <= j < |w.beam(b.step)| && w.beam(b.step)[j] == p;
      assert w.OnBeam(b.step, p);
      BoxHasArrived(w, b, p);
    }
  }

  /** What Notify logs for box `it` of step s: every valid particle of that box, pushed once, and nothing else valid. */
  lemma {:induction false} FullMessagesAreTheBox(e: Env, st: State, u: int, d: int, p: Particle)
    requires RingEnv(e) && Reachable(e, st) && Shape(e, st) && 0 <= u < e.ranks && d >= e.ranks - 1 - u
    requires SendsFull(e, BlockOf(e.ranks, u, d)) && FullSent(e.ranks, e.maxStep, u, d) < |st.links[u].fullLog|
    requires p.id >= 0
    ensures multiset(st.links[u].fullLog[FullSent(e.ranks, e.maxStep, u, d)])[p] ==
            if FromBox(e, BlockOf(e.ranks, u, d), p) then 1 else 0
  {
    ReachableInv(e, st);
    FullLogged(SerialWorld(e), u, st.ranks[u], st.links[u], d);
    FromBoxIs(e, BlockOf(e.ranks, u, d), p);
  }

  /** p is a valid particle of box b.box in step b.step, one push later. */
  ghost predicate FromBox(e: Env, b: Block, p: Particle)
    requires e.Valid()
  {
    && 0 <= p.tag < |e.init| && p == BeamAt(e, b.step + 1)[p.tag]
    && Live(e.g, BeamAt(e, b.step)[p.tag]) && BoxOf(e.g, BeamAt(e, b.step)[p.tag]) == b.box
  }

  lemma FromBoxIs(e: Env, b: Block, p: Particle)
    requires RingEnv(e) && RingWorld(SerialWorld(e)) && p.id >= 0
    ensures InFull(SerialWorld(e), b, p) == FromBox(e, b, p)
  {
    assert SerialWorld(e).beam(b.step + 1) == BeamAt(e, b.step + 1);
  }

  lemma FullLogged(w: World, u: int, rk: Rank, lk: Link, d: int)
    requires RingWorld(w) && Position(w.e, u, rk) && SendInv(w, u, rk, lk) && d >= w.e.ranks - 1 - u
    requires SendsFull(w.e, BlockOf(w.e.ranks, u, d)) && FullSent(w.e.ranks, w.e.maxStep, u, d) < |lk.fullLog|
    ensures FullPayloadOk(w, BlockOf(w.e.ranks, u, d), lk.fullLog[FullSent(w.e.ranks, w.e.maxStep, u, d)])
  {
    assert FullAt(w, u, lk.fullLog, d);
  }

  // ---------------------------------------------------------------- ghosts

  /** Ghost correctness: when a rank reaches the tail slice of box it > 0, the ghosts surviving the check are exactly
      the valid particles of the slice below, which box it-1 has as its head slice in the same step. */
  lemma {:induction false} GhostsAreTheNextSlice(e: Env, st: State, r: int)
    requires RingEnv(e) && Reachable(e, st) && Shape(e, st) && 0 <= r < e.ranks && st.ranks[r].ph == SolveTail
    requires Cur(e, r, st.ranks[r]).box > 0
    ensures var rk, b := st.ranks[r], Cur(e, r, st.ranks[r]);
            && rk.nreal <= |rk.arr| && Lo(e, b.box) - 1 == Hi(e, b.box - 1)
            && multiset(Valids(CheckGhosts(e.g, Lo(e, b.box), rk.arr[rk.nreal..])))
               == multiset(Particles(e, BeamAt(e, b.step), Hi(e, b.box - 1)))
  {
    ReachedGhosts(e, st, r);
    var b := Cur(e, r, st.ranks[r]);
    assert Lo(e, b.box) - 1 == Hi(e, b.box - 1);
  }

  /** The ghosts of rank rk in block b that survive the check are the particles of the slice below the box. */
  ghost predicate GhostsBelow(e: Env, b: Block, rk: Rank)
    requires RingEnv(e) && 0 <= b.box < e.ranks
  {
    && rk.nreal <= |rk.arr|
    && multiset(Valids(CheckGhosts(e.g, Lo(e, b.box), rk.arr[rk.nreal..]))) == multiset(Particles(e, BeamAt(e, b.step), Lo(e, b.box) - 1))
  }

  lemma {:induction false} ReachedGhosts(e: Env, st: State, r: int)
    requires RingEnv(e) && Reachable(e, st) && Shape(e, st) && 0 <= r < e.ranks && st.ranks[r].ph == SolveTail
    requires Cur(e, r, st.ranks[r]).box > 0
    ensures GhostsBelow(e, Cur(e, r, st.ranks[r]), st.ranks[r])
  {
    ReachedArray(e, st, r);
    SerialGhosts(e, Cur(e, r, st.ranks[r]), st.ranks[r]);
  }

  lemma {:induction false} SerialGhosts(e: Env, b: Block, rk: Rank)
    requires RingEnv(e) && RingWorld(SerialWorld(e)) && 0 < b.box < e.ranks && ArrayOk(SerialWorld(e), b, rk) && rk.ph == SolveTail
    ensures GhostsBelow(e, b, rk)
  {
    OnSerial(e, b.step, Lo(e, b.box) - 1);
    TailGhosts(SerialWorld(e), b, rk);
  }

  lemma OnSerial(e: Env, s: nat, k: int)
    requires e.Valid()
    ensures SerialWorld(e).On(s, k) == Particles(e, BeamAt(e, s), k)
  {
  }

  lemma {:induction false} TailGhosts(w: World, b: Block, rk: Rank)
    requires RingWorld(w) && 0 < b.box < w.e.ranks && ArrayOk(w, b, rk) && rk.ph == SolveTail
    ensures rk.nreal <= |rk.arr|
    ensures multiset(Valids(CheckGhosts(w.e.g, Lo(w.e, b.box), rk.arr[rk.nreal..]))) == multiset(w.On(b.step, Lo(w.e, b.box) - 1))
  {
    var recv :| GhostTail(w, b, rk, recv);
    GhostsCorrect(w, b, rk, recv);
  }

  // ---------------------------------------------------------------- message matching

  /** The particles due on a channel are payload i of the log, np of them; none are due for an empty payload. */
  predicate Carries(parts: Chan<seq<Particle>>, log: seq<seq<Particle>>, i: nat, np: nat) {
    i < |log| && np == |log[i]| && (np > 0 && parts.Ready() ==> parts.Front() == log[i])
  }

  lemma FrontIs(parts: Chan<seq<Particle>>, log: seq<seq<Particle>>, x: nat, i: nat)
    requires Packed(parts.sent, log, x) && i < |log| && parts.taken == NonEmpty(log, i)
    ensures Carries(parts, log, i, |log[i]|)
  {
    if |log[i]| > 0 && parts.Ready() {
      if i < x { assert PackedAt(parts.sent, log, i); } else { NonEmptyMonotone(log, x, i); }
    }
  }

  lemma {:induction false} FullFront(w: World, r: int, rk: Rank, lk: Link, up: Rank)
    requires RingWorld(w) && Position(w.e, r, rk) && Position(w.e, Up(w.e.ranks, r), up) && rk.ph == RecvParts
    requires FullIn(w.e, r, rk, lk) && FullOut(w, Up(w.e.ranks, r), up, lk) && TakesFull(w.e, Cur(w.e, r, rk))
    ensures Carries(lk.parts, lk.fullLog, FullTaken(w.e.ranks, r, rk.t), rk.np)
  {
    FrontIs(lk.parts, lk.fullLog, FullSent(w.e.ranks, w.e.maxStep, Up(w.e.ranks, r), up.t), FullTaken(w.e.ranks, r, rk.t));
  }

  lemma {:induction false} GhostFront(w: World, r: int, rk: Rank, lk: Link, up: Rank)
    requires RingWorld(w) && Position(w.e, r, rk) && Position(w.e, Up(w.e.ranks, r), up) && rk.ph == RecvGhostParts
    requires GhostIn(w.e, r, rk, lk) && GhostOut(w, Up(w.e.ranks, r), up, lk) && TakesGhost(w.e, Cur(w.e, r, rk))
    ensures Carries(lk.ghostParts, lk.ghostLog, GhostTaken(w.e.ranks, r, rk.t), rk.np)
  {
    FrontIs(lk.ghostParts, lk.ghostLog, GhostPartsCount(w.e, Up(w.e.ranks, r), up), GhostTaken(w.e.ranks, r, rk.t));
  }

  /** A rank, the rank upstream, and the link between them. */
  ghost predicate Pair(w: World, r: int, rk: Rank, lk: Link, up: Rank) {
    && RingWorld(w) && Position(w.e, r, rk) && Position(w.e, Up(w.e.ranks, r), up)
    && TakeInv(w.e, r, rk, lk) && SendInv(w, Up(w.e.ranks, r), up, lk)
  }

  lemma {:induction false} InvPair(w: World, st: State, r: int)
    requires RingWorld(w) && Inv(w, st) && 0 <= r < w.e.ranks
    ensures Pair(w, r, st.ranks[r], st.links[Up(w.e.ranks, r)], st.ranks[Up(w.e.ranks, r)])
  {
  }

  lemma {:induction false} ReachablePair(e: Env, st: State, r: int)
    requires RingEnv(e) && Reachable(e, st) && Shape(e, st) && 0 <= r < e.ranks
    ensures Pair(SerialWorld(e), r, st.ranks[r], st.links[Up(e.ranks, r)], st.ranks[Up(e.ranks, r)])
    ensures Position(e, r, st.ranks[r])
  {
    ReachableInv(e, st);
    InvPair(SerialWorld(e), st, r);
  }

  /** The next full message of rank r is the one that its upstream rank sends for (s-1, it), its block one diagonal
      earlier: as many were sent before that block as rank r has taken. */
  ghost predicate FullFrom(e: Env, r: int, rk: Rank)
    requires Position(e, r, rk)
  {
    var u, b := Up(e.ranks, r), Cur(e, r, rk);
    && b.step > 0 && rk.t - 1 >= e.ranks - 1 - u && BlockOf(e.ranks, u, rk.t - 1) == Block(b.step - 1, b.box)
    && FullTaken(e.ranks, r, rk.t) == FullSent(e.ranks, e.maxStep, u, rk.t - 1)
  }

  /** The next ghost message is the one sent for (s-1, it-1), on the same diagonal. */
  ghost predicate GhostFrom(e: Env, r: int, rk: Rank)
    requires Position(e, r, rk)
  {
    var u, b := Up(e.ranks, r), Cur(e, r, rk);
    && b.step > 0 && rk.t >= e.ranks - 1 - u && BlockOf(e.ranks, u, rk.t) == Block(b.step - 1, b.box - 1)
    && GhostTaken(e.ranks, r, rk.t) == GhostSent(e.ranks, e.maxStep, u, rk.t)
  }

  lemma FullFromUpstream(e: Env, r: int, rk: Rank)
    requires Position(e, r, rk) && TakesFull(e, Cur(e, r, rk))
    ensures FullFrom(e, r, rk)
  {
    UpstreamFull(e.ranks, e.maxStep, r, rk.t);
  }

  lemma GhostFromUpstream(e: Env, r: int, rk: Rank)
    requires Position(e, r, rk) && TakesGhost(e, Cur(e, r, rk))
    ensures GhostFrom(e, r, rk)
  {
    UpstreamGhost(e.ranks, e.maxStep, r, rk.t);
  }

  /** The full message Wait(s, it) takes is the one Notify(s-1, it) logged, and its length is the announced count. */
  lemma {:induction false} FullMessageMatches(e: Env, st: State, r: int)
    requires RingEnv(e) && Reachable(e, st) && Shape(e, st) && 0 <= r < e.ranks && st.ranks[r].ph == RecvParts
    requires TakesFull(e, Cur(e, r, st.ranks[r]))
    ensures Carries(st.links[Up(e.ranks, r)].parts, st.links[Up(e.ranks, r)].fullLog, FullTaken(e.ranks, r, st.ranks[r].t), st.ranks[r].np)
    ensures Position(e, r, st.ranks[r]) && FullFrom(e, r, st.ranks[r])
  {
    var u := Up(e.ranks, r);
    ReachablePair(e, st, r);
    FullFront(SerialWorld(e), r, st.ranks[r], st.links[u], st.ranks[u]);
    FullFromUpstream(e, r, st.ranks[r]);
  }

  /** The ghost message Wait(s, it) takes is the one Notify(s-1, it-1) logged. */
  lemma {:induction false} GhostMessageMatches(e: Env, st: State, r: int)
    requires RingEnv(e) && Reachable(e, st) && Shape(e, st) && 0 <= r < e.ranks && st.ranks[r].ph == RecvGhostParts
    requires TakesGhost(e, Cur(e, r, st.ranks[r]))
    ensures Carries(st.links[Up(e.ranks, r)].ghostParts, st.links[Up(e.ranks, r)].ghostLog, GhostTaken(e.ranks, r, st.ranks[r].t), st.ranks[r].np)
    ensures Position(e, r, st.ranks[r]) && GhostFrom(e, r, st.ranks[r])
  {
    var u := Up(e.ranks, r);
    ReachablePair(e, st, r);
    GhostFront(SerialWorld(e), r, st.ranks[r], st.links[u], st.ranks[u]);
    GhostFromUpstream(e, r, st.ranks[r]);
  }

  /** The physical time a rank holds is the time of its step, from the moment it is received. */
  lemma {:induction false} TimeIsStepTime(e: Env, st: State, r: int)
    requires RingEnv(e) && Reachable(e, st) && Shape(e, st) && 0 <= r < e.ranks
    requires st.ranks[r].ph != RecvTime || Cur(e, r, st.ranks[r]).box < e.ranks - 1
    ensures st.ranks[r].time == TimeAt(e, Cur(e, r, st.ranks[r]).step)
  {
    ReachableInv(e, st);
    TimeOfBlock(SerialWorld(e), Cur(e, r, st.ranks[r]), st.ranks[r]);
  }

  lemma TimeOfBlock(w: World, b: Block, rk: Rank)
    requires RingWorld(w) && 0 <= b.box < w.e.ranks && StateOk(w, b, rk) && (rk.ph != RecvTime || b.box < w.e.ranks - 1)
    ensures rk.time == TimeAt(w.e, b.step)
  {
  }
}
