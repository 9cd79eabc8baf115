/** The ring pipeline as a state machine: one transition per MPI call, per slice and per other piece of local work.

    Channels are FIFO per sender, receiver and tag (section 3.5 of MPI 3.1): a log of everything sent on the
    tag and the number of messages already taken. Receives block. A send never blocks, but the two transitions
    that stand for NotifyFinish complete the previous send on the tag; how long that takes is up to the
    implementation (section 3.7.4 of MPI 3.1), so `CanStep` lets it complete at any time, while `Unblocked` makes it
    wait until the message has been taken. */
module Ring {
  import opened Beam
  import opened Serial
  import opened Schedule

  datatype Chan<T> = Chan(sent: seq<T>, taken: nat) {
    predicate Ready() { taken < |sent| }
    predicate Drained() { taken >= |sent| }
    function Front(): T requires Ready() { sent[taken] }
    function Take(): Chan<T> { Chan(sent, taken + 1) }
    function Send(x: T): Chan<T> { Chan(sent + [x], taken) }
  }

  /** The five tags between a rank and the rank downstream: physical time, and particle counts and particles
      for full boxes and for ghost slices. `fullLog` and `ghostLog` are auxiliary: what every Notify had to send,
      including the empty payloads for which no particle message is sent. */
  datatype Link = Link(
    time: Chan<real>,
    count: Chan<nat>, parts: Chan<seq<Particle>>,
    ghostCount: Chan<nat>, ghostParts: Chan<seq<Particle>>,
    fullLog: seq<seq<Particle>>, ghostLog: seq<seq<Particle>>)

  /** What one call of SolveOneSlice saw. */
  datatype Seen = Seen(step: nat, slice: int, here: multiset<Particle>, next: multiset<Particle>)

  /** The calls so far, the last one outermost. */
  datatype Log = Silent | Then(before: Log, last: Seen)

  function Occurrences(l: Log, x: Seen): nat {
    match l
    case Silent => 0
    case Then(before, last) => Occurrences(before, x) + if last == x then 1 else 0
  }

  datatype Phase =
    RecvTime | RecvCount | RecvParts | SolveHead
  | AwaitGhost | SendGhostCount | SendGhostParts | SolveCentral
  | RecvGhostCount | RecvGhostParts | SolveTail
  | AwaitFull | SendTime | SendCount | SendParts

  function Ord(p: Phase): nat {
    match p
    case RecvTime => 0 case RecvCount => 1 case RecvParts => 2 case SolveHead => 3
    case AwaitGhost => 4 case SendGhostCount => 5 case SendGhostParts => 6 case SolveCentral => 7
    case RecvGhostCount => 8 case RecvGhostParts => 9 case SolveTail => 10
    case AwaitFull => 11 case SendTime => 12 case SendCount => 13 case SendParts => 14
  }

  function Succ(p: Phase): Phase {
    match p
    case RecvTime => RecvCount case RecvCount => RecvParts case RecvParts => SolveHead case SolveHead => AwaitGhost
    case AwaitGhost => SendGhostCount case SendGhostCount => SendGhostParts case SendGhostParts => SolveCentral
    case SolveCentral => RecvGhostCount case RecvGhostCount => RecvGhostParts case RecvGhostParts => SolveTail
    case SolveTail => AwaitFull case AwaitFull => SendTime case SendTime => SendCount case SendCount => SendParts
    case SendParts => RecvTime
  }

  /** Local state of a rank. `arr` is its beam array; from SolveHead on its first `nreal` entries are real
      particles sorted by box with offsets `off`, the rest are ghosts, and `bin` holds the slice every particle of
      the current box was binned to (-1 for the other boxes). `k` is the next central slice to solve. `orig` (the real particles as sorted, before any push) and
      `seen` are auxiliary. */
  datatype Rank = Rank(
    t: int, ph: Phase, arr: seq<Particle>, np: nat, nreal: nat, off: seq<nat>, bin: seq<int>, k: int,
    orig: seq<Particle>, w: Fields, time: real, seen: Log)

  datatype State = State(ranks: seq<Rank>, links: seq<Link>)

  /** The one nondeterministic choice: the order the box sorter leaves particles of a box in. */
  datatype Sorting = Sorting(arr: seq<Particle>, off: seq<nat>)

  ghost predicate RingEnv(e: Env) {
    e.Valid() && e.g.Boxes() == e.ranks
  }

  ghost predicate Shape(e: Env, st: State) {
    |st.ranks| == |st.links| == e.ranks && (forall r :: 0 <= r < e.ranks ==> st.ranks[r].t >= e.ranks - 1 - r)
  }

  function Cur(e: Env, r: int, rk: Rank): Block
    requires 0 <= r < e.ranks && rk.t >= e.ranks - 1 - r
  {
    BlockOf(e.ranks, r, rk.t)
  }

  predicate Finished(e: Env, r: int, rk: Rank)
    requires 0 <= r < e.ranks && rk.t >= e.ranks - 1 - r
  {
    Cur(e, r, rk).step > e.maxStep
  }

  function Lo(e: Env, b: int): int requires 0 <= b < e.g.Boxes() { e.g.edges[b] }

  function Hi(e: Env, b: int): int requires 0 <= b < e.g.Boxes() { e.g.edges[b + 1] - 1 }

  // ---------------------------------------------------------------- local work

  /** From SolveHead on the array splits into real and ghost particles. */
  predicate Split(rk: Rank) { rk.nreal <= |rk.arr| && |rk.bin| == rk.nreal }

  function PushBin(e: Env, w: Fields, a: seq<Particle>, bin: seq<int>, k: int): (r: seq<Particle>)
    requires |bin| <= |a|
    ensures |r| == |a|
    ensures forall i :: 0 <= i < |a| ==> r[i] == if i < |bin| && bin[i] == k then PushOne(e, w, a[i]) else a[i]
  {
    seq(|a|, i requires 0 <= i < |a| => if i < |bin| && bin[i] == k then PushOne(e, w, a[i]) else a[i])
  }

  function Here(rk: Rank, k: int): multiset<Particle>
    requires Split(rk)
  {
    multiset(Valids(InBin(rk.arr[..rk.nreal], rk.bin, k)))
  }

  /** The particles of the next slice: the next bin, or the ghosts when k is the tail slice `lo` of the box. */
  function Beyond(rk: Rank, k: int, lo: int): multiset<Particle>
    requires Split(rk)
  {
    if k > lo then Here(rk, k - 1) else multiset(Valids(rk.arr[rk.nreal..]))
  }

  function SolveSlice(e: Env, s: nat, rk: Rank, k: int, lo: int): (r: Rank)
    requires Split(rk)
    ensures Split(r) && r.nreal == rk.nreal && r.bin == rk.bin
  {
    var here := Here(rk, k);
    var next := Beyond(rk, k, lo);
    var w := e.solve(rk.w, here, next);
    rk.(w := w, arr := PushBin(e, w, rk.arr, rk.bin, k), seen := Then(rk.seen, Seen(s, k, here, next)))
  }

  /** findParticlesInEachSlice: the particles of the box, from `from` to `to`, are binned by slice. */
  function Bins(g: Geometry, a: seq<Particle>, from: nat, to: nat): (bin: seq<int>)
    ensures |bin| == |a|
    ensures forall i :: 0 <= i < |a| ==> bin[i] == if from <= i < to then g.slice(a[i].z) else -1
  {
    seq(|a|, i requires 0 <= i < |a| => if from <= i < to then g.slice(a[i].z) else -1)
  }

  /** Particles of box it-1 that are already on this rank: the local ghosts of box it. */
  function LocalGhosts(a: seq<Particle>, off: seq<nat>, it: int): seq<Particle>
    requires it > 0 ==> it < |off| && off[it - 1] <= off[it] <= |a|
  {
    if it > 0 then a[off[it - 1]..off[it]] else []
  }

  ghost predicate GoodSorting(e: Env, rk: Rank, c: Sorting)
    requires e.Valid()
  {
    BoxSorted(e.g, rk.arr, c.arr, c.off)
  }

  /** Sort by box, store the number of real particles, append the local ghosts, bin, solve the head slice. */
  ghost function HeadWork(e: Env, b: Block, rk: Rank, c: Sorting): (r: Rank)
    requires RingEnv(e) && 0 <= b.box < e.ranks && GoodSorting(e, rk, c)
    ensures Split(r)
  {
    var rk1 := rk.(arr := c.arr + LocalGhosts(c.arr, c.off, b.box), nreal := |c.arr|, off := c.off,
                   orig := c.arr, bin := Bins(e.g, c.arr, c.off[b.box], c.off[b.box + 1]), k := Hi(e, b.box) - 1);
    SolveSlice(e, b.step, rk1, Hi(e, b.box), Lo(e, b.box))
  }

  /** Invalidate the ghosts outside the ghost slice, solve the tail slice, remove the ghosts. */
  function TailWork(e: Env, b: Block, rk: Rank): Rank
    requires 0 <= b.box < e.g.Boxes() && Split(rk)
  {
    var lo := Lo(e, b.box);
    var rk1 := if b.box == 0 then rk else
                 rk.(arr := rk.arr[..rk.nreal] + CheckGhosts(e.g, lo, rk.arr[rk.nreal..]));
    var rk2 := SolveSlice(e, b.step, rk1, lo, lo);
    rk2.(arr := rk2.arr[..rk2.nreal])
  }

  /** The ghost payload: the particles binned to the head slice of the box. */
  function GhostPayload(e: Env, b: Block, rk: Rank): seq<Particle>
    requires 0 <= b.box < e.g.Boxes() && Split(rk)
  {
    InBin(rk.arr[..rk.nreal], rk.bin, Hi(e, b.box))
  }

  predicate OffsetsOk(rk: Rank, it: int) {
    0 <= it && it + 1 < |rk.off| && rk.off[it] <= rk.off[it + 1] <= |rk.arr|
  }

  /** The full payload: the particles sorted into the box. */
  function FullPayload(b: Block, rk: Rank): seq<Particle>
    requires OffsetsOk(rk, b.box)
  {
    rk.arr[rk.off[b.box]..rk.off[b.box + 1]]
  }

  // ---------------------------------------------------------------- transitions

  predicate TakesFull(e: Env, b: Block) { b.step > 0 }
  predicate TakesTime(e: Env, b: Block) { b.step > 0 && b.box == e.ranks - 1 }
  predicate TakesGhost(e: Env, b: Block) { b.step > 0 && b.box > 0 }
  predicate SendsFull(e: Env, b: Block) { b.step < e.maxStep }
  predicate SendsTime(e: Env, b: Block) { b.step < e.maxStep && b.box == e.ranks - 1 }
  predicate SendsGhost(e: Env, b: Block) { b.step < e.maxStep && b.box < e.ranks - 1 }

  /** If the next transition of rank r is a receive, the message is there on its incoming link `inc`. */
  ghost predicate CanMove(e: Env, b: Block, rk: Rank, inc: Link, c: Sorting)
    requires RingEnv(e) && 0 <= b.box < e.ranks
  {
    match rk.ph
    case RecvTime => TakesTime(e, b) ==> inc.time.Ready()
    case RecvCount => TakesFull(e, b) ==> inc.count.Ready()
    case RecvParts => TakesFull(e, b) && rk.np > 0 ==> inc.parts.Ready()
    case SolveHead => GoodSorting(e, rk, c)
    case RecvGhostCount => TakesGhost(e, b) ==> inc.ghostCount.Ready()
    case RecvGhostParts => TakesGhost(e, b) && rk.np > 0 ==> inc.ghostParts.Ready()
    case SendGhostCount => Split(rk)
    case SendGhostParts => Split(rk)
    case SolveCentral => Split(rk)
    case SolveTail => Split(rk)
    case SendCount => OffsetsOk(rk, b.box)
    case SendParts => OffsetsOk(rk, b.box)
    case _ => true
  }

  /** Rank r has work left and its next transition is not waiting for a message. */
  ghost predicate CanStep(e: Env, st: State, r: int, c: Sorting)
    requires RingEnv(e) && Shape(e, st)
  {
    && 0 <= r < e.ranks && !Finished(e, r, st.ranks[r])
    && CanMove(e, Cur(e, r, st.ranks[r]), st.ranks[r], st.links[Up(e.ranks, r)], c)
  }

  /** NotifyFinish has nothing left to wait for on the outgoing link. */
  predicate Unblocked(e: Env, b: Block, rk: Rank, out: Link) {
    && (rk.ph == AwaitGhost && b.box < e.ranks - 1 ==> out.ghostCount.Drained() && out.ghostParts.Drained())
    && (rk.ph == AwaitFull ==> out.count.Drained() && out.parts.Drained())
    && (rk.ph == AwaitFull && b.box == e.ranks - 1 ==> out.time.Drained())
  }

  /** The rank's own new state. */
  ghost function NextRank(e: Env, b: Block, rk: Rank, inc: Link, c: Sorting): Rank
    requires RingEnv(e) && 0 <= b.box < e.ranks && CanMove(e, b, rk, inc, c)
  {
    match rk.ph
    case RecvTime =>
      // a new step resets the plasma before the time arrives
      rk.(ph := RecvCount, w := if b.box == e.ranks - 1 then e.reset(rk.time) else rk.w,
          time := if TakesTime(e, b) then inc.time.Front() else rk.time)
    case RecvCount => rk.(ph := RecvParts, np := if TakesFull(e, b) then inc.count.Front() else 0)
    case RecvParts => rk.(ph := SolveHead, arr := if TakesFull(e, b) && rk.np > 0 then rk.arr + inc.parts.Front() else rk.arr)
    case SolveHead => HeadWork(e, b, rk, c).(ph := AwaitGhost)
    case SolveCentral =>
      if rk.k > Lo(e, b.box) then SolveSlice(e, b.step, rk, rk.k, Lo(e, b.box)).(k := rk.k - 1) else rk.(ph := RecvGhostCount)
    case RecvGhostCount => rk.(ph := RecvGhostParts, np := if TakesGhost(e, b) then inc.ghostCount.Front() else 0)
    case RecvGhostParts =>
      rk.(ph := SolveTail, arr := if TakesGhost(e, b) && rk.np > 0 then rk.arr + inc.ghostParts.Front() else rk.arr)
    case SolveTail => TailWork(e, b, rk).(ph := AwaitFull)
    case SendParts =>
      // the particles just sent leave the array (it is not cut when there was nothing to send); the last box of a
      // step advances the time
      var cut := !SendsFull(e, b) || |FullPayload(b, rk)| > 0;
      rk.(t := rk.t + 1, ph := RecvTime, arr := if cut then rk.arr[..rk.off[b.box]] else rk.arr,
          time := if b.box == 0 then rk.time + e.dt else rk.time)
    case ph => rk.(ph := Succ(ph))
  }

  /** What a receiving transition does to the incoming link. */
  function TakeFrom(e: Env, b: Block, rk: Rank, lk: Link): Link {
    if rk.ph == RecvTime && TakesTime(e, b) then lk.(time := lk.time.Take())
    else if rk.ph == RecvCount && TakesFull(e, b) then lk.(count := lk.count.Take())
    else if rk.ph == RecvParts && TakesFull(e, b) && rk.np > 0 then lk.(parts := lk.parts.Take())
    else if rk.ph == RecvGhostCount && TakesGhost(e, b) then lk.(ghostCount := lk.ghostCount.Take())
    else if rk.ph == RecvGhostParts && TakesGhost(e, b) && rk.np > 0 then lk.(ghostParts := lk.ghostParts.Take())
    else lk
  }

  /** What a sending transition does to the outgoing link. */
  function SendOn(e: Env, b: Block, rk: Rank, lk: Link): Link
    requires 0 <= b.box < e.g.Boxes()
    requires rk.ph in {SendGhostCount, SendGhostParts} ==> Split(rk)
    requires rk.ph in {SendCount, SendParts} ==> OffsetsOk(rk, b.box)
  {
    if rk.ph == SendGhostCount && SendsGhost(e, b) then
      var x := GhostPayload(e, b, rk); lk.(ghostCount := lk.ghostCount.Send(|x|), ghostLog := lk.ghostLog + [x])
    else if rk.ph == SendGhostParts && SendsGhost(e, b) then
      var x := GhostPayload(e, b, rk); if |x| > 0 then lk.(ghostParts := lk.ghostParts.Send(x)) else lk
    else if rk.ph == SendTime && SendsTime(e, b) then lk.(time := lk.time.Send(rk.time + e.dt))
    else if rk.ph == SendCount && SendsFull(e, b) then
      var x := FullPayload(b, rk); lk.(count := lk.count.Send(|x|), fullLog := lk.fullLog + [x])
    else if rk.ph == SendParts && SendsFull(e, b) then
      var x := FullPayload(b, rk); if |x| > 0 then lk.(parts := lk.parts.Send(x)) else lk
    else lk
  }

  /** Link l after a transition of rank r: r receives on the link of its upstream rank and sends on its own (with
      one rank these are the same link). */
  ghost function NextLink(e: Env, b: Block, r: int, rk: Rank, inc: Link, c: Sorting, l: int, lk: Link): Link
    requires RingEnv(e) && 0 <= b.box < e.ranks && 0 <= r < e.ranks && CanMove(e, b, rk, inc, c)
  {
    var taken := if l == Up(e.ranks, r) then TakeFrom(e, b, rk, lk) else lk;
    if l == r then SendOn(e, b, rk, taken) else taken
  }

  ghost predicate Step(e: Env, st: State, r: int, c: Sorting, st': State) {
    && RingEnv(e) && Shape(e, st) && CanStep(e, st, r, c)
    && |st'.ranks| == |st'.links| == e.ranks
    && var rk, b, inc := st.ranks[r], Cur(e, r, st.ranks[r]), st.links[Up(e.ranks, r)];
    && st'.ranks[r] == NextRank(e, b, rk, inc, c)
    && (forall q :: 0 <= q < e.ranks && q != r ==> st'.ranks[q] == st.ranks[q])
    && (forall l :: 0 <= l < e.ranks ==> st'.links[l] == NextLink(e, b, r, rk, inc, c, l, st.links[l]))
  }

  const EmptyLink := Link(Chan([], 0), Chan([], 0), Chan([], 0), Chan([], 0), Chan([], 0), [], [])

  /** The head rank holds the whole beam; nothing has been sent. */
  ghost predicate Init(e: Env, st: State) {
    && RingEnv(e) && Shape(e, st)
    && (forall r :: 0 <= r < e.ranks ==>
          var rk := st.ranks[r];
          && rk.t == e.ranks - 1 - r && rk.ph == RecvTime && rk.time == e.t0 && rk.seen == Silent
          && rk.arr == (if r == e.ranks - 1 then e.init else []))
    && (forall l :: 0 <= l < e.ranks ==> st.links[l] == EmptyLink)
  }

  /** A run: a start state and the states after each transition. */
  ghost predicate Run(e: Env, run: seq<State>) {
    && |run| > 0 && Init(e, run[0])
    && forall i :: 0 <= i < |run| - 1 ==> Steps(e, run[i], run[i + 1])
  }

  ghost predicate Steps(e: Env, st: State, st': State) {
    exists r: int, c: Sorting :: Step(e, st, r, c, st')
  }

  ghost predicate Reachable(e: Env, st: State) {
    exists run :: Run(e, run) && run[|run| - 1] == st
  }
}
