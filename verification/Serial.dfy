/** The serial reference: one loop nest over steps and slices, from the head of the beam to its tail.

    A beam of N injected particles is described by the trajectory of every particle, and a step by the plasma
    and field state on every slice. The pipeline is proved against these definitions. */
module Serial {
  import opened Beam

  /** Plasma particles and field slices: the state carried from one slice to the next. */
  type Fields(!new)

  /** Result of pushing one beam particle: its new position, its other attributes, and whether the boundary
      condition invalidated it. */
  datatype Pushed = Pushed(z: real, attr: Attr, lost: bool)

  /** `ranks` is the number of ranks in the ring; it enters the reference only through `ResetTime`. */
  datatype Env = Env(
    g: Geometry, ranks: int, maxStep: nat, init: seq<Particle>, t0: real, dt: real,
    reset: real -> Fields,
    solve: (Fields, multiset<Particle>, multiset<Particle>) -> Fields,
    push: (Fields, Particle) -> Pushed)
  {
    ghost predicate Valid() {
      && g.Valid() && ranks >= 1
      && (forall i :: 0 <= i < |init| ==> init[i].tag == i)
      && (forall w: Fields, p: Particle {:trigger push(w, p)} :: push(w, p).z <= p.z)
    }

    /** Number of slices. */
    function K(): int
      requires g.Valid()
      ensures K() >= 3
    {
      assert Apart(g.edges, 0, g.Boxes());
      g.edges[g.Boxes()]
    }
  }

  /** The physical time of step s. */
  function TimeAt(e: Env, s: nat): real {
    if s == 0 then e.t0 else TimeAt(e, s - 1) + e.dt
  }

  /** The value of the physical time when step s resets the plasma. The reset runs before the time is received
      from upstream, so a rank still holds the time left by its own previous step, s - ranks. */
  function ResetTime(e: Env, s: nat): real
    requires e.ranks >= 1
  {
    if s < e.ranks then e.t0 else TimeAt(e, s - e.ranks + 1)
  }

  /** Push one particle: invalid particles are skipped, lost ones get a negative id. */
  function PushOne(e: Env, w: Fields, p: Particle): (r: Particle)
    ensures r.tag == p.tag && (p.id < 0 ==> r == p)
  {
    if p.id < 0 then p else
      var q := e.push(w, p);
      p.(z := q.z, attr := q.attr, id := if q.lost then -Abs(p.id) else p.id)
  }

  /** The beam when step s starts: entry i is the injected particle i. */
  ghost function BeamAt(e: Env, s: nat): (r: seq<Particle>)
    requires e.Valid()
    ensures |r| == |e.init| && forall i :: 0 <= i < |r| ==> r[i].tag == i
    decreases s
  {
    if s == 0 then e.init else PushBeam(e, s - 1, BeamAt(e, s - 1))
  }

  /** One serial step: every live particle is pushed once, with the state of the slice it was in. */
  ghost function PushBeam(e: Env, s: nat, beam: seq<Particle>): (r: seq<Particle>)
    requires e.Valid()
    ensures |r| == |beam| && forall i :: 0 <= i < |r| ==> r[i] == PushIn(e, s, beam, beam[i])
  {
    seq(|beam|, i requires 0 <= i < |beam| => PushIn(e, s, beam, beam[i]))
  }

  ghost function PushIn(e: Env, s: nat, beam: seq<Particle>, p: Particle): (r: Particle)
    requires e.Valid()
    ensures r.tag == p.tag
  {
    if Live(e.g, p) then
      assert 0 <= e.g.slice(p.z) < e.K() by { SliceInDomain(e.g, p); }
      PushOne(e, Slice(e, s, beam, e.g.slice(p.z)), p)
    else p
  }

  /** The valid particles of slice k. */
  ghost function Particles(e: Env, beam: seq<Particle>, k: int): set<Particle> {
    set p | p in beam && Live(e.g, p) && e.g.slice(p.z) == k
  }

  /** Plasma and fields after slice k of step s has been solved. Slice k sees its own particles and, for the
      current on the next slice, those of slice k-1. */
  ghost function Slice(e: Env, s: nat, beam: seq<Particle>, k: int): Fields
    requires e.Valid() && 0 <= k <= e.K()
    decreases e.K() - k
  {
    if k == e.K() then e.reset(ResetTime(e, s))
    else e.solve(Slice(e, s, beam, k + 1), multiset(Particles(e, beam, k)), multiset(Particles(e, beam, k - 1)))
  }

  ghost function FieldsAt(e: Env, s: nat, k: int): Fields
    requires e.Valid() && 0 <= k <= e.K()
  {
    Slice(e, s, BeamAt(e, s), k)
  }

  /** What a step does to particle i, in terms of the push alone: a live particle takes the position and the attributes
      that the push gives it in the fields of its slice, and the sign of its id turns exactly if the push loses it. */
  lemma StepLaw(e: Env, s: nat, i: int)
    requires e.Valid() && 0 <= i < |e.init|
    ensures var p, b := BeamAt(e, s)[i], BeamAt(e, s + 1)[i];
            if Live(e.g, p) then
              && 0 <= e.g.slice(p.z) < e.K()
              && var q := e.push(FieldsAt(e, s, e.g.slice(p.z)), p);
              && b.z == q.z && b.attr == q.attr && b.id == (if q.lost then -p.id else p.id) && b.inside == p.inside && b.tag == p.tag == i
            else b == p
  {
    var p := BeamAt(e, s)[i];
    if Live(e.g, p) { SliceInDomain(e.g, p); }
  }

  /** What a slice does to plasma and fields, in terms of the solver and the reset alone. */
  lemma {:induction false} SliceLaw(e: Env, s: nat, k: int)
    requires e.Valid() && 0 <= k <= e.K()
    ensures var beam := BeamAt(e, s);
            FieldsAt(e, s, k) ==
            if k == e.K() then e.reset(if s < e.ranks then e.t0 else e.t0 + (s - e.ranks + 1) as real * e.dt)
            else e.solve(FieldsAt(e, s, k + 1),
                         multiset(set p | p in beam && p.id >= 0 && e.g.assign(p.inside, p.z) >= 0 && e.g.slice(p.z) == k),
                         multiset(set p | p in beam && p.id >= 0 && e.g.assign(p.inside, p.z) >= 0 && e.g.slice(p.z) == k - 1))
  {
    if k == e.K() {
      ResetLaw(e, s);
    } else {
      ParticlesAre(e, BeamAt(e, s), k);
      ParticlesAre(e, BeamAt(e, s), k - 1);
    }
  }

  lemma ResetLaw(e: Env, s: nat)
    requires e.ranks >= 1
    ensures ResetTime(e, s) == if s < e.ranks then e.t0 else e.t0 + (s - e.ranks + 1) as real * e.dt
  {
    if s >= e.ranks { TimeIs(e, s - e.ranks + 1, (s - e.ranks + 1) as real); }
  }

  lemma ParticlesAre(e: Env, beam: seq<Particle>, k: int)
    ensures Particles(e, beam, k) == set p | p in beam && p.id >= 0 && e.g.assign(p.inside, p.z) >= 0 && e.g.slice(p.z) == k
  {
  }

  /** The time of step s is the initial time plus s time steps. */
  lemma {:induction false} TimeIs(e: Env, s: nat, n: real)
    requires n == s as real
    ensures TimeAt(e, s) == e.t0 + n * e.dt
  {
    if s > 0 {
      var m := n - 1.0;
      TimeIs(e, s - 1, m);
      OneStepMore(TimeAt(e, s - 1), e.t0, e.dt, m, n);
    }
  }

  lemma OneStepMore(was: real, t0: real, d: real, m: real, n: real)
    requires was == t0 + m * d && n == m + 1.0
    ensures was + d == t0 + n * d
  {
  }

  /** A whole serial run as data: the beam at the start of every step and the state after every slice. */
  datatype World = World(e: Env, beam: nat -> seq<Particle>, fields: (nat, int) -> Fields)
  {
    /** Step s of the run: every live particle is pushed once, with the state of the slice it was in. */
    ghost predicate IsStep(s: nat) {
      && |beam(s + 1)| == |beam(s)|
      && forall i :: 0 <= i < |beam(s)| ==>
           beam(s + 1)[i] == if Live(e.g, beam(s)[i]) then PushOne(e, fields(s, e.g.slice(beam(s)[i].z)), beam(s)[i]) else beam(s)[i]
    }

    ghost predicate IsSlice(s: nat, k: int) {
      fields(s, k) == e.solve(fields(s, k + 1), multiset(On(s, k)), multiset(On(s, k - 1)))
    }

    ghost predicate Valid() {
      && e.Valid()
      && (forall s: nat {:trigger beam(s)} :: |beam(s)| == |e.init|)
      && (forall s: nat, i {:trigger beam(s)[i]} :: 0 <= i < |e.init| ==> beam(s)[i].tag == i)
      && beam(0) == e.init
      && (forall s: nat {:trigger IsStep(s)} :: IsStep(s))
      && (forall s: nat, k: int {:trigger IsSlice(s, k)} :: 0 <= k < e.K() ==> IsSlice(s, k))
      && (forall s: nat :: fields(s, e.K()) == e.reset(ResetTime(e, s)))
    }

    /** The valid particles of slice k in step s. */
    ghost function On(s: nat, k: int): set<Particle> { Particles(e, beam(s), k) }

    /** p is a live particle of the beam of step s. */
    ghost predicate OnBeam(s: nat, p: Particle) {
      Live(e.g, p) && 0 <= p.tag < |beam(s)| && p == beam(s)[p.tag]
    }

    lemma OnSlice(s: nat, k: int, p: Particle)
      requires Valid()
      ensures p in On(s, k) <==> OnBeam(s, p) && e.g.slice(p.z) == k
    {
    }

    /** Pushes never move a particle towards the head, and a particle once dead stays dead. */
    lemma TrajStep(i: int, s: nat)
      requires Valid() && 0 <= i < |e.init|
      ensures var p, q := beam(s)[i], beam(s + 1)[i];
              && q.z <= p.z
              && (Live(e.g, q) ==> Live(e.g, p) && BoxOf(e.g, q) <= BoxOf(e.g, p) && e.g.slice(q.z) <= e.g.slice(p.z))
              && (Live(e.g, p) ==> 0 <= e.g.slice(p.z) < e.K() && q == PushOne(e, fields(s, e.g.slice(p.z)), p))
    {
      assert IsStep(s);
      var p, q := beam(s)[i], beam(s + 1)[i];
      if Live(e.g, p) { SliceInDomain(e.g, p); }
      if Live(e.g, q) && Live(e.g, p) {
        BoxMonotone(e.g, q, p);
      }
    }
  }

  /** The run of the serial loop nest. */
  ghost function SerialWorld(e: Env): (w: World)
    requires e.Valid()
    ensures w.e == e
    ensures forall s: nat :: w.beam(s) == BeamAt(e, s)
    ensures forall s: nat, k: int :: 0 <= k <= e.K() ==> w.fields(s, k) == FieldsAt(e, s, k)
  {
    World(e, (s: nat) => BeamAt(e, s), (s: nat, k: int) => if 0 <= k <= e.K() then FieldsAt(e, s, k) else e.reset(0.0))
  }

  lemma SerialWorldValid(e: Env)
    requires e.Valid()
    ensures SerialWorld(e).Valid()
  {
    var w := SerialWorld(e);
    forall s: nat ensures w.IsStep(s) {
      assert w.beam(s + 1) == PushBeam(e, s, BeamAt(e, s));
      forall i | 0 <= i < |w.beam(s)| ensures w.beam(s + 1)[i] ==
          if Live(e.g, w.beam(s)[i]) then PushOne(e, w.fields(s, e.g.slice(w.beam(s)[i].z)), w.beam(s)[i]) else w.beam(s)[i] {
        if Live(e.g, w.beam(s)[i]) { SliceInDomain(e.g, w.beam(s)[i]); }
      }
    }
    forall s: nat, k: int | 0 <= k < e.K() ensures w.IsSlice(s, k) {
      assert FieldsAt(e, s, k) == e.solve(FieldsAt(e, s, k + 1), multiset(Particles(e, BeamAt(e, s), k)), multiset(Particles(e, BeamAt(e, s), k - 1)));
    }
    forall s: nat ensures w.fields(s, e.K()) == e.reset(ResetTime(e, s)) {
      assert w.fields(s, e.K()) == FieldsAt(e, s, e.K());
    }
  }

  // ---------------------------------------------------------------- the number of ranks

  /** The same simulation on one rank: one box over the whole domain. */
  function OneRank(e: Env): (r: Env)
    requires e.g.Valid()
  {
    e.(ranks := 1, g := e.g.(edges := [0, e.K()], assign := (i, z) => if e.g.assign(i, z) >= 0 then 0 else -1))
  }

  lemma OneRankValid(e: Env)
    requires e.Valid()
    ensures OneRank(e).Valid() && OneRank(e).K() == e.K()
    ensures forall p :: Live(OneRank(e).g, p) == Live(e.g, p)
  {
    var r := OneRank(e);
    assert r.g.Valid() by {
      forall z: real, k: int ensures r.g.face(k) <= z <==> k <= r.g.slice(z) {
        assert e.g.face(k) <= z <==> k <= e.g.slice(z);
      }
    }
  }

  /** On one rank the plasma is always reset at the time of the step. */
  lemma OneRankResetTime(e: Env, s: nat)
    requires e.g.Valid()
    ensures ResetTime(OneRank(e), s) == TimeAt(e, s)
  {
    SameTime(e, OneRank(e), s);
  }

  lemma {:induction false} SameTime(e: Env, f: Env, s: nat)
    requires e.t0 == f.t0 && e.dt == f.dt
    ensures TimeAt(e, s) == TimeAt(f, s)
  {
    if s > 0 { SameTime(e, f, s - 1); }
  }

  lemma {:induction false} TimeMonotone(e: Env, s: nat, u: nat)
    requires s <= u && e.dt >= 0.0
    ensures TimeAt(e, s) <= TimeAt(e, u)
    ensures s < u && e.dt > 0.0 ==> TimeAt(e, s) < TimeAt(e, u)
    decreases u
  {
    if s < u { TimeMonotone(e, s, u - 1); }
  }

  /** The ring resets the plasma of step s at the time of that step exactly when it has one rank, at the very
      first step, or when time does not advance. */
  lemma StaleResetTime(e: Env, s: nat)
    requires e.ranks >= 1 && e.dt >= 0.0
    ensures ResetTime(e, s) == TimeAt(e, s) <==> e.ranks == 1 || s == 0 || e.dt == 0.0
  {
    var u := if s < e.ranks then 0 else s - e.ranks + 1;
    assert ResetTime(e, s) == TimeAt(e, u);
    if u != s {
      TimeMonotone(e, u, s);
      if e.dt == 0.0 { TimeConstant(e, u, s); }
    }
  }

  lemma {:induction false} TimeConstant(e: Env, s: nat, u: nat)
    requires s <= u && e.dt == 0.0
    ensures TimeAt(e, s) == TimeAt(e, u)
    decreases u
  {
    if s < u { TimeConstant(e, s, u - 1); }
  }

  /** Where every reset up to step s gives the same plasma as a reset at the time of the step, the reference of
      the ring and the reference of one rank are the same trajectories. */
  ghost predicate ResetAgrees(e: Env, s: nat)
    requires e.ranks >= 1
  {
    forall u: nat :: u <= s ==> e.reset(ResetTime(e, u)) == e.reset(TimeAt(e, u))
  }

  lemma {:induction false} SamePushBeam(e: Env, s: nat, beam: seq<Particle>)
    requires e.Valid() && OneRank(e).Valid() && ResetAgrees(e, s)
    ensures PushBeam(OneRank(e), s, beam) == PushBeam(e, s, beam)
  {
    var f := OneRank(e);
    forall i | 0 <= i < |beam| ensures PushIn(f, s, beam, beam[i]) == PushIn(e, s, beam, beam[i]) { SamePush(e, s, beam, beam[i]); }
  }

  lemma {:induction false} SameBeam(e: Env, s: nat)
    requires e.Valid() && OneRank(e).Valid() && (s > 0 ==> ResetAgrees(e, s - 1))
    ensures BeamAt(OneRank(e), s) == BeamAt(e, s)
    decreases s
  {
    if s > 0 {
      SameBeam(e, s - 1);
      SamePushBeam(e, s - 1, BeamAt(e, s - 1));
    }
  }

  lemma SamePush(e: Env, s: nat, beam: seq<Particle>, p: Particle)
    requires e.Valid() && OneRank(e).Valid() && ResetAgrees(e, s)
    ensures PushIn(OneRank(e), s, beam, p) == PushIn(e, s, beam, p)
  {
    OneRankValid(e);
    if Live(e.g, p) {
      SliceInDomain(e.g, p);
      SameSlice(e, s, beam, e.g.slice(p.z));
    }
  }

  lemma SameParticles(e: Env, beam: seq<Particle>, k: int)
    requires e.Valid()
    ensures Particles(OneRank(e), beam, k) == Particles(e, beam, k)
  {
    OneRankValid(e);
  }

  lemma {:induction false} SameSlice(e: Env, s: nat, beam: seq<Particle>, k: int)
    requires e.Valid() && OneRank(e).Valid() && 0 <= k <= e.K() && OneRank(e).K() == e.K() && ResetAgrees(e, s)
    ensures Slice(OneRank(e), s, beam, k) == Slice(e, s, beam, k)
    decreases e.K() - k
  {
    if k == e.K() {
      OneRankResetTime(e, s);
    } else {
      SameSlice(e, s, beam, k + 1);
      SameParticles(e, beam, k);
      SameParticles(e, beam, k - 1);
      SameSolve(e, OneRank(e), s, beam, k);
    }
  }

  lemma SameSolve(e: Env, f: Env, s: nat, beam: seq<Particle>, k: int)
    requires e.Valid() && f.Valid() && f.solve == e.solve && 0 <= k < e.K() == f.K()
    requires Slice(f, s, beam, k + 1) == Slice(e, s, beam, k + 1)
    requires Particles(f, beam, k) == Particles(e, beam, k) && Particles(f, beam, k - 1) == Particles(e, beam, k - 1)
    ensures Slice(f, s, beam, k) == Slice(e, s, beam, k)
  {
  }

  /** Up to step s both loop nests have the same plasma and fields on every slice. */
  ghost predicate SameFields(e: Env, s: nat)
    requires e.Valid() && OneRank(e).Valid() && OneRank(e).K() == e.K()
  {
    forall u: nat, k: int :: u <= s && 0 <= k <= e.K() ==>
      FieldsAt(OneRank(e), u, k) == FieldsAt(e, u, k)
  }

  /** The ring reproduces the serial loop on one rank up to step s exactly when every reset up to then gives the
      plasma of a reset at the time of the step; in particular whenever the initial plasma does not depend on time. */
  lemma RingMatchesOneRank(e: Env, s: nat)
    requires e.Valid()
    ensures OneRank(e).Valid() && OneRank(e).K() == e.K()
    ensures SameFields(e, s) <==> ResetAgrees(e, s)
  {
    OneRankValid(e);
    var f := OneRank(e);
    if ResetAgrees(e, s) {
      forall u: nat, k: int | u <= s && 0 <= k <= e.K() ensures FieldsAt(f, u, k) == FieldsAt(e, u, k) {
        SameBeam(e, u);
        SameSlice(e, u, BeamAt(e, u), k);
      }
    }
    if SameFields(e, s) {
      forall u: nat | u <= s ensures e.reset(ResetTime(e, u)) == e.reset(TimeAt(e, u)) {
        assert FieldsAt(f, u, e.K()) == FieldsAt(e, u, e.K());
        OneRankResetTime(e, u);
      }
    }
  }
}
