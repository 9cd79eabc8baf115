/** The invariant of the ring: a rank's local state is the serial state at its position in the schedule, and a
    channel holds the serial messages between the receiver's and the sender's position. */
module RingInv {
  import opened Beam
  import opened Serial
  import opened Schedule
  import opened Ring
  import opened RingData
  import opened RingTail

  // ---------------------------------------------------------------- ranks

  /** The slice solved last in the current block (one above its head slice when none has been). */
  function Cursor(e: Env, b: Block, rk: Rank): int
    requires 0 <= b.box < e.g.Boxes()
  {
    if Ord(rk.ph) <= 3 then Hi(e, b.box) + 1 else if Ord(rk.ph) <= 7 then rk.k + 1
    else if Ord(rk.ph) <= 10 then Lo(e, b.box) + 1 else Lo(e, b.box)
  }

  /** The log of the serial loop nest over the blocks of rank r before diagonal t. */
  ghost function SeenBefore(w: World, r: int, t: int): Log
    requires w.e.g.Boxes() == w.e.ranks && 0 <= r < w.e.ranks
    decreases t
  {
    if t <= w.e.ranks - 1 - r then Silent
    else
      var b := BlockOf(w.e.ranks, r, t - 1);
      SeesDown(w, b.step, Hi(w.e, b.box), Lo(w.e, b.box), SeenBefore(w, r, t - 1))
  }

  ghost predicate Position(e: Env, r: int, rk: Rank) {
    && 0 <= r < e.ranks && rk.t >= e.ranks - 1 - r
    && (rk.t > e.ranks - 1 - r ==> BlockOf(e.ranks, r, rk.t - 1).step <= e.maxStep)
    && (Finished(e, r, rk) ==> rk.ph == RecvTime)
  }

  ghost predicate StateOk(w: World, b: Block, rk: Rank)
    requires RingWorld(w) && 0 <= b.box < w.e.ranks
  {
    var start := rk.ph == RecvTime && b.box == w.e.ranks - 1;
    && (4 <= Ord(rk.ph) <= 6 ==> rk.k == Hi(w.e, b.box) - 1) && (Ord(rk.ph) == 7 ==> Lo(w.e, b.box) <= rk.k < Hi(w.e, b.box))
    && rk.time == (if start then ResetTime(w.e, b.step) else TimeAt(w.e, b.step))
    && (!start ==> rk.w == w.fields(b.step, Cursor(w.e, b, rk)))
  }

  ghost predicate ArrayOk(w: World, b: Block, rk: Rank)
    requires RingWorld(w) && 0 <= b.box < w.e.ranks
  {
    if Ord(rk.ph) <= 2 then HoldsLeft(w, b, rk.arr)
    else if Ord(rk.ph) == 3 then HoldsArrived(w, b, rk.arr)
    else
      && Sorted(w, b, rk) && PushedFrom(w, b.step, rk, Cursor(w.e, b, rk))
      && (Ord(rk.ph) <= 9 ==> rk.arr[rk.nreal..] == LocalGhosts(rk.orig, rk.off, b.box))
      && (Ord(rk.ph) == 10 ==> exists recv :: GhostTail(w, b, rk, recv))
      && (Ord(rk.ph) >= 11 ==> |rk.arr| == rk.nreal)
  }

  /** A rank inside block b, with `done` what it had seen when the block began. */
  ghost predicate BlockInv(w: World, b: Block, rk: Rank, done: Log)
    requires RingWorld(w) && 0 <= b.box < w.e.ranks
  {
    && StateOk(w, b, rk) && ArrayOk(w, b, rk)
    && rk.seen == SeesDown(w, b.step, Hi(w.e, b.box), Cursor(w.e, b, rk), done)
  }

  ghost predicate RankInv(w: World, r: int, rk: Rank)
    requires RingWorld(w)
  {
    Position(w.e, r, rk) && BlockInv(w, Cur(w.e, r, rk), rk, SeenBefore(w, r, rk.t))
  }

  // ---------------------------------------------------------------- links

  /** Number of nonempty payloads among the first x. */
  function NonEmpty(log: seq<seq<Particle>>, x: int): nat
    requires x <= |log|
  {
    if x <= 0 then 0 else NonEmpty(log, x - 1) + (if |log[x - 1]| > 0 then 1 else 0)
  }

  lemma NonEmptyNext(log: seq<seq<Particle>>, i: nat)
    requires i < |log|
    ensures NonEmpty(log, i + 1) == NonEmpty(log, i) + if |log[i]| > 0 then 1 else 0
  {
  }

  lemma {:induction false} NonEmptyMonotone(log: seq<seq<Particle>>, x: int, y: int)
    requires 0 <= x <= y <= |log|
    ensures NonEmpty(log, x) <= NonEmpty(log, y)
    decreases y
  {
    if x < y { NonEmptyMonotone(log, x, y - 1); }
  }

  lemma {:induction false} NonEmptyPrefix(log: seq<seq<Particle>>, ext: seq<seq<Particle>>, x: int)
    requires x <= |log| <= |ext| && ext[..|log|] == log
    ensures NonEmpty(ext, x) == NonEmpty(log, x)
  {
    if x > 0 {
      NonEmptyPrefix(log, ext, x - 1);
      assert ext[..|log|][x - 1] == ext[x - 1];
    }
  }

  /** Payload i of the log, if not empty, is among those sent, behind the nonempty ones before it. */
  ghost predicate PackedAt(sent: seq<seq<Particle>>, log: seq<seq<Particle>>, i: nat)
    requires i < |log|
  {
    |log[i]| > 0 ==> NonEmpty(log, i) < |sent| && sent[NonEmpty(log, i)] == log[i]
  }

  /** `sent` is the first x payloads of the log without the empty ones, in order. */
  ghost predicate Packed(sent: seq<seq<Particle>>, log: seq<seq<Particle>>, x: nat) {
    && x <= |log| && |sent| == NonEmpty(log, x)
    && forall i: nat :: i < x ==> PackedAt(sent, log, i)
  }

  lemma PackedMore(sent: seq<seq<Particle>>, log: seq<seq<Particle>>, x: nat)
    requires Packed(sent, log, x) && x < |log|
    ensures Packed(if |log[x]| > 0 then sent + [log[x]] else sent, log, x + 1)
  {
    var more := if |log[x]| > 0 then sent + [log[x]] else sent;
    forall i: nat | i < x + 1 ensures PackedAt(more, log, i) {
      if i < x { assert PackedAt(sent, log, i); }
    }
    assert NonEmpty(log, x + 1) == |more|;
  }

  lemma PackedExtend(sent: seq<seq<Particle>>, log: seq<seq<Particle>>, x: nat, y: seq<Particle>)
    requires Packed(sent, log, x)
    ensures Packed(sent, log + [y], x)
  {
    NonEmptyPrefix(log, log + [y], x);
    forall i: nat | i < x ensures PackedAt(sent, log + [y], i) {
      NonEmptyPrefix(log, log + [y], i);
      assert PackedAt(sent, log, i);
    }
  }

  /** The payload logged for diagonal d of rank u is the serial one. */
  ghost predicate FullAt(w: World, u: int, log: seq<seq<Particle>>, d: int)
    requires RingWorld(w) && 0 <= u < w.e.ranks
  {
    d >= w.e.ranks - 1 - u && SendsFull(w.e, BlockOf(w.e.ranks, u, d)) && FullSent(w.e.ranks, w.e.maxStep, u, d) < |log| ==>
      FullPayloadOk(w, BlockOf(w.e.ranks, u, d), log[FullSent(w.e.ranks, w.e.maxStep, u, d)])
  }

  ghost predicate FullContent(w: World, u: int, log: seq<seq<Particle>>)
    requires RingWorld(w) && 0 <= u < w.e.ranks
  {
    forall d :: FullAt(w, u, log, d)
  }

  ghost predicate GhostAt(w: World, u: int, log: seq<seq<Particle>>, d: int)
    requires RingWorld(w) && 0 <= u < w.e.ranks
  {
    d >= w.e.ranks - 1 - u && SendsGhost(w.e, BlockOf(w.e.ranks, u, d)) && GhostSent(w.e.ranks, w.e.maxStep, u, d) < |log| ==>
      GhostPayloadOk(w, BlockOf(w.e.ranks, u, d), log[GhostSent(w.e.ranks, w.e.maxStep, u, d)])
  }

  ghost predicate GhostContent(w: World, u: int, log: seq<seq<Particle>>)
    requires RingWorld(w) && 0 <= u < w.e.ranks
  {
    forall d :: GhostAt(w, u, log, d)
  }

  ghost predicate TimeSentAt(w: World, u: int, sent: seq<real>, d: int)
    requires 0 <= u < w.e.ranks
  {
    d >= w.e.ranks - 1 - u && SendsTime(w.e, BlockOf(w.e.ranks, u, d)) && TimeSent(w.e.ranks, w.e.maxStep, u, d) < |sent| ==>
      sent[TimeSent(w.e.ranks, w.e.maxStep, u, d)] == TimeAt(w.e, BlockOf(w.e.ranks, u, d).step + 1)
  }

  ghost predicate TimeContent(w: World, u: int, sent: seq<real>)
    requires 0 <= u < w.e.ranks
  {
    forall d :: TimeSentAt(w, u, sent, d)
  }

  /** Different diagonals have different messages. */
  lemma FullIndexUnique(e: Env, u: int, t: int, d: int)
    requires 0 <= u < e.ranks && t >= e.ranks - 1 - u && d >= e.ranks - 1 - u && t != d
    requires SendsFull(e, BlockOf(e.ranks, u, t)) && SendsFull(e, BlockOf(e.ranks, u, d))
    ensures FullSent(e.ranks, e.maxStep, u, t) != FullSent(e.ranks, e.maxStep, u, d)
  {
    if t < d { SentMonotone(e.ranks, e.maxStep, u, t + 1, d); } else { SentMonotone(e.ranks, e.maxStep, u, d + 1, t); }
  }

  lemma TimeIndexUnique(e: Env, u: int, t: int, d: int)
    requires 0 <= u < e.ranks && t >= e.ranks - 1 - u && d >= e.ranks - 1 - u && t != d
    requires SendsTime(e, BlockOf(e.ranks, u, t)) && SendsTime(e, BlockOf(e.ranks, u, d))
    ensures TimeSent(e.ranks, e.maxStep, u, t) != TimeSent(e.ranks, e.maxStep, u, d)
  {
    if t < d { SentMonotone(e.ranks, e.maxStep, u, t + 1, d); } else { SentMonotone(e.ranks, e.maxStep, u, d + 1, t); }
  }

  lemma {:induction false} GhostIndexUnique(e: Env, u: int, t: int, d: int)
    requires 0 <= u < e.ranks && t >= e.ranks - 1 - u && d >= e.ranks - 1 - u && t != d
    requires SendsGhost(e, BlockOf(e.ranks, u, t)) && SendsGhost(e, BlockOf(e.ranks, u, d))
    ensures GhostSent(e.ranks, e.maxStep, u, t) != GhostSent(e.ranks, e.maxStep, u, d)
  {
    if t < d { SentMonotone(e.ranks, e.maxStep, u, t + 1, d); } else { SentMonotone(e.ranks, e.maxStep, u, d + 1, t); }
  }

  function FullCount(e: Env, u: int, rk: Rank): nat
    requires 0 <= u < e.ranks && rk.t >= e.ranks - 1 - u
  {
    FullSent(e.ranks, e.maxStep, u, rk.t) + One(SendsFull(e, Cur(e, u, rk)) && Ord(rk.ph) > 13)
  }

  function TimeCount(e: Env, u: int, rk: Rank): nat
    requires 0 <= u < e.ranks && rk.t >= e.ranks - 1 - u
  {
    TimeSent(e.ranks, e.maxStep, u, rk.t) + One(SendsTime(e, Cur(e, u, rk)) && Ord(rk.ph) > 12)
  }

  function GhostCount(e: Env, u: int, rk: Rank): nat
    requires 0 <= u < e.ranks && rk.t >= e.ranks - 1 - u
  {
    GhostSent(e.ranks, e.maxStep, u, rk.t) + One(SendsGhost(e, Cur(e, u, rk)) && Ord(rk.ph) > 5)
  }

  function GhostPartsCount(e: Env, u: int, rk: Rank): nat
    requires 0 <= u < e.ranks && rk.t >= e.ranks - 1 - u
  {
    GhostSent(e.ranks, e.maxStep, u, rk.t) + One(SendsGhost(e, Cur(e, u, rk)) && Ord(rk.ph) > 6)
  }

  ghost predicate Counts(count: seq<nat>, log: seq<seq<Particle>>) {
    |count| == |log| && forall i :: 0 <= i < |log| ==> count[i] == |log[i]|
  }

  /** The channels for full boxes as seen by their sender u. */
  ghost predicate FullOut(w: World, u: int, rk: Rank, lk: Link)
    requires RingWorld(w) && Position(w.e, u, rk)
  {
    && |lk.fullLog| == FullCount(w.e, u, rk) && Counts(lk.count.sent, lk.fullLog)
    && Packed(lk.parts.sent, lk.fullLog, FullSent(w.e.ranks, w.e.maxStep, u, rk.t)) && FullContent(w, u, lk.fullLog)
    && (rk.ph == SendParts && SendsFull(w.e, Cur(w.e, u, rk)) ==>
          OffsetsOk(rk, Cur(w.e, u, rk).box) && lk.fullLog[|lk.fullLog| - 1] == FullPayload(Cur(w.e, u, rk), rk))
  }

  ghost predicate TimeOut(w: World, u: int, rk: Rank, lk: Link)
    requires Position(w.e, u, rk)
  {
    |lk.time.sent| == TimeCount(w.e, u, rk) && TimeContent(w, u, lk.time.sent)
  }

  ghost predicate GhostOut(w: World, u: int, rk: Rank, lk: Link)
    requires RingWorld(w) && Position(w.e, u, rk)
  {
    && |lk.ghostLog| == GhostCount(w.e, u, rk) && Counts(lk.ghostCount.sent, lk.ghostLog)
    && Packed(lk.ghostParts.sent, lk.ghostLog, GhostPartsCount(w.e, u, rk)) && GhostContent(w, u, lk.ghostLog)
    && (rk.ph == SendGhostParts && SendsGhost(w.e, Cur(w.e, u, rk)) ==>
          Split(rk) && lk.ghostLog[|lk.ghostLog| - 1] == GhostPayload(w.e, Cur(w.e, u, rk), rk))
  }

  /** The link as seen by its sender u. */
  ghost predicate SendInv(w: World, u: int, rk: Rank, lk: Link)
    requires RingWorld(w) && Position(w.e, u, rk)
  {
    FullOut(w, u, rk, lk) && TimeOut(w, u, rk, lk) && GhostOut(w, u, rk, lk)
  }

  function CountTaken(e: Env, r: int, rk: Rank): nat
    requires 0 <= r < e.ranks && rk.t >= e.ranks - 1 - r
  {
    FullTaken(e.ranks, r, rk.t) + One(TakesFull(e, Cur(e, r, rk)) && Ord(rk.ph) > 1)
  }

  function PartsTaken(e: Env, r: int, rk: Rank): nat
    requires 0 <= r < e.ranks && rk.t >= e.ranks - 1 - r
  {
    FullTaken(e.ranks, r, rk.t) + One(TakesFull(e, Cur(e, r, rk)) && Ord(rk.ph) > 2)
  }

  function TimesTaken(e: Env, r: int, rk: Rank): nat
    requires 0 <= r < e.ranks && rk.t >= e.ranks - 1 - r
  {
    TimeTaken(e.ranks, r, rk.t) + One(TakesTime(e, Cur(e, r, rk)) && Ord(rk.ph) > 0)
  }

  function GhostCountTaken(e: Env, r: int, rk: Rank): nat
    requires 0 <= r < e.ranks && rk.t >= e.ranks - 1 - r
  {
    GhostTaken(e.ranks, r, rk.t) + One(TakesGhost(e, Cur(e, r, rk)) && Ord(rk.ph) > 8)
  }

  function GhostPartsTaken(e: Env, r: int, rk: Rank): nat
    requires 0 <= r < e.ranks && rk.t >= e.ranks - 1 - r
  {
    GhostTaken(e.ranks, r, rk.t) + One(TakesGhost(e, Cur(e, r, rk)) && Ord(rk.ph) > 9)
  }

  /** The channels for full boxes as seen by their receiver r. */
  ghost predicate FullIn(e: Env, r: int, rk: Rank, lk: Link)
    requires Position(e, r, rk)
  {
    && lk.count.taken == CountTaken(e, r, rk) <= |lk.count.sent| && |lk.count.sent| == |lk.fullLog|
    && lk.parts.taken == NonEmpty(lk.fullLog, PartsTaken(e, r, rk))
    && (rk.ph == RecvParts ==> rk.np == if TakesFull(e, Cur(e, r, rk)) then lk.count.sent[lk.count.taken - 1] else 0)
  }

  ghost predicate TimeIn(e: Env, r: int, rk: Rank, lk: Link)
    requires Position(e, r, rk)
  {
    lk.time.taken == TimesTaken(e, r, rk) <= |lk.time.sent|
  }

  ghost predicate GhostIn(e: Env, r: int, rk: Rank, lk: Link)
    requires Position(e, r, rk)
  {
    && lk.ghostCount.taken == GhostCountTaken(e, r, rk) <= |lk.ghostCount.sent| && |lk.ghostCount.sent| == |lk.ghostLog|
    && lk.ghostParts.taken == NonEmpty(lk.ghostLog, GhostPartsTaken(e, r, rk))
    && (rk.ph == RecvGhostParts ==> rk.np == if TakesGhost(e, Cur(e, r, rk)) then lk.ghostCount.sent[lk.ghostCount.taken - 1] else 0)
  }

  /** The same link as seen by its receiver r. */
  ghost predicate TakeInv(e: Env, r: int, rk: Rank, lk: Link)
    requires Position(e, r, rk)
  {
    FullIn(e, r, rk, lk) && TimeIn(e, r, rk, lk) && GhostIn(e, r, rk, lk)
  }

  ghost predicate Inv(w: World, st: State)
    requires RingWorld(w)
  {
    && Shape(w.e, st)
    && (forall r :: 0 <= r < w.e.ranks ==> RankInv(w, r, st.ranks[r]))
    && (forall r :: 0 <= r < w.e.ranks ==> SendInv(w, r, st.ranks[r], st.links[r]))
    && (forall r :: 0 <= r < w.e.ranks ==> TakeInv(w.e, r, st.ranks[r], st.links[Up(w.e.ranks, r)]))
  }

  // ---------------------------------------------------------------- start

  lemma {:induction false} InitInv(w: World, st: State)
    requires RingWorld(w) && Init(w.e, st)
    ensures Inv(w, st)
  {
    forall r | 0 <= r < w.e.ranks ensures RankInv(w, r, st.ranks[r]) {
      InitRank(w, r, st.ranks[r]);
    }
    forall r | 0 <= r < w.e.ranks ensures SendInv(w, r, st.ranks[r], st.links[r]) {
      InitLink(w, r, st.ranks[r]);
    }
    forall r | 0 <= r < w.e.ranks ensures TakeInv(w.e, r, st.ranks[r], st.links[Up(w.e.ranks, r)]) {
      InitLink(w, r, st.ranks[r]);
    }
  }

  lemma {:induction false} InitLink(w: World, r: int, rk: Rank)
    requires RingWorld(w) && 0 <= r < w.e.ranks && rk.t == w.e.ranks - 1 - r && rk.ph == RecvTime && Position(w.e, r, rk)
    ensures SendInv(w, r, rk, EmptyLink) && TakeInv(w.e, r, rk, EmptyLink)
  {
  }

  lemma InitRank(w: World, r: int, rk: Rank)
    requires RingWorld(w) && 0 <= r < w.e.ranks
    requires rk.t == w.e.ranks - 1 - r && rk.ph == RecvTime && rk.time == w.e.t0 && rk.seen == Silent
    requires rk.arr == (if r == w.e.ranks - 1 then w.e.init else [])
    ensures RankInv(w, r, rk)
  {
    var b := Cur(w.e, r, rk);
    assert b == Block(w.e.ranks - 1 - r, w.e.ranks - 1);
    forall p | Live(w.e.g, p) ensures multiset(rk.arr)[p] == One(Left(w, b, p)) {
      InitCount(w, r, b, rk.arr, p);
    }
  }

  lemma InitCount(w: World, r: int, b: Block, a: seq<Particle>, p: Particle)
    requires RingWorld(w) && 0 <= r < w.e.ranks && Live(w.e.g, p) && b == Block(w.e.ranks - 1 - r, w.e.ranks - 1)
    requires a == (if r == w.e.ranks - 1 then w.e.init else [])
    ensures multiset(a)[p] == One(Left(w, b, p))
  {
    SliceInDomain(w.e.g, p);
    if r == w.e.ranks - 1 {
      if w.OnBeam(0, p) {
        CountTagged(w, a, p);
      } else {
        forall i | 0 <= i < |a| ensures a[i] != p { assert w.beam(0)[i].tag == i; }
      }
    } else if Left(w, b, p) {
      Before(w, b.step, p);
      assert false;
    }
  }

  lemma {:induction false} CountTagged(w: World, a: seq<Particle>, p: Particle)
    requires RingWorld(w) && w.OnBeam(0, p) && a == w.e.init
    ensures multiset(a)[p] == 1
  {
    var i := p.tag;
    assert a == a[..i] + [a[i]] + a[i + 1..];
    forall j | 0 <= j < |a| && j != i ensures a[j] != p { assert w.beam(0)[j].tag == j; }
    assert p !in a[..i] && p !in a[i + 1..];
  }
}
