/** The plasma pusher: force history, real and trial pushes, the predictor-corrector loop and its reset. */
module PlasmaPush {
  datatype Force = Force(x: real, y: real, ux: real, uy: real, psi: real)

  /** `x0`, `y0` are the previous position (x_prev, y_prev), `uxt`, `uyt`, `psit` the temporary momenta. */
  datatype Particle = Particle(id: int, x: real, y: real, ux: real, uy: real, psi: real, c: real, w: real,
                               x0: real, y0: real, uxt: real, uyt: real, psit: real)

  /** Force terms of a particle from its position, momenta and constant of motion, with the fields of the moment. */
  type ForceFn = (real, real, real, real, real, real) -> Force

  /** enforceBC on a position: where it is wrapped to, and whether the particle is lost. */
  datatype Bound = Bound(x: real, y: real, lost: bool)

  type BoundFn = (real, real) -> Bound

  function Abs(x: int): int { if x < 0 then -x else x }

  /** The fifth-order Adams-Bashforth increment. */
  function Increment(dz: real, f1: real, f2: real, f3: real, f4: real, f5: real): real {
    1901.0 / 720.0 * dz * f1 + -1387.0 / 360.0 * dz * f2 + 109.0 / 30.0 * dz * f3 + -637.0 / 360.0 * dz * f4 + 251.0 / 720.0 * dz * f5
  }

  /** The force history of one particle. */
  datatype History = History(f1: Force, f2: Force, f3: Force, f4: Force, f5: Force)
  {
    function Dx(dz: real): real { Increment(dz, f1.x, f2.x, f3.x, f4.x, f5.x) }
    function Dy(dz: real): real { Increment(dz, f1.y, f2.y, f3.y, f4.y, f5.y) }
    function Dux(dz: real): real { Increment(dz, f1.ux, f2.ux, f3.ux, f4.ux, f5.ux) }
    function Duy(dz: real): real { Increment(dz, f1.uy, f2.uy, f3.uy, f4.uy, f5.uy) }
    function Dpsi(dz: real): real { Increment(dz, f1.psi, f2.psi, f3.psi, f4.psi, f5.psi) }
  }

  /** Storing a position: it is wrapped; a lost particle is invalidated and loses its weight. */
  function Place(p: Particle, b: Bound): Particle {
    if b.lost then p.(x := b.x, y := b.y, id := -Abs(p.id), w := 0.0) else p.(x := b.x, y := b.y)
  }

  function RealPush(p: Particle, h: History, dz: real, bc: BoundFn): Particle {
    var x, y := p.x - h.Dx(dz), p.y - h.Dy(dz);
    var q := Place(p, bc(x, y));
    if bc(x, y).lost then q else q.(x0 := x, y0 := y, ux := p.ux - h.Dux(dz), uy := p.uy - h.Duy(dz), psi := p.psi - h.Dpsi(dz))
  }

  function TrialPush(p: Particle, h: History, dz: real, bc: BoundFn): Particle {
    var x, y := p.x0 - h.Dx(dz), p.y0 - h.Dy(dz);
    var q := Place(p, bc(x, y));
    if bc(x, y).lost then q else q.(uxt := p.ux - h.Dux(dz), uyt := p.uy - h.Duy(dz), psit := p.psi - h.Dpsi(dz))
  }

  function Reset(p: Particle): Particle { p.(x := p.x0, y := p.y0) }

  /** A trial push yields the momenta and the position of a real push with the same forces. */
  lemma TrialIsReal(p: Particle, h: History, dz: real, bc: BoundFn)
    requires p.x == p.x0 && p.y == p.y0
    ensures var t, r := TrialPush(p, h, dz, bc), RealPush(p, h, dz, bc);
            && t.x == r.x && t.y == r.y && t.id == r.id && t.w == r.w
            && (!bc(p.x - h.Dx(dz), p.y - h.Dy(dz)).lost ==> t.uxt == r.ux && t.uyt == r.uy && t.psit == r.psi)
  {
  }

  /** A trial push commits nothing: undoing it gives back every particle that is not lost, up to the temporaries. */
  lemma TrialUndone(p: Particle, h: History, dz: real, bc: BoundFn)
    requires !bc(p.x0 - h.Dx(dz), p.y0 - h.Dy(dz)).lost
    ensures var t := TrialPush(p, h, dz, bc); Reset(t) == Reset(p).(uxt := t.uxt, uyt := t.uyt, psit := t.psit)
  {
  }

  /** After a real push the reset gives the stored position back exactly when the boundary condition did not wrap it:
      the previous position is kept unwrapped. */
  lemma ResetKeepsPosition(p: Particle, h: History, dz: real, bc: BoundFn)
    requires !bc(p.x - h.Dx(dz), p.y - h.Dy(dz)).lost
    ensures var r, x, y := RealPush(p, h, dz, bc), p.x - h.Dx(dz), p.y - h.Dy(dz);
            Reset(r) == r <==> bc(x, y).x == x && bc(x, y).y == y
  {
  }

  /** What a push does to a particle: it is lost exactly if the boundary condition says so; then it keeps its momenta and
      previous position, its weight becomes zero and its id changes sign. The stored position is the one of the boundary
      condition in any case. */
  lemma PushLaw(p: Particle, h: History, dz: real, bc: BoundFn, temp: bool)
    requires p.id > 0
    ensures var x0, y0 := if temp then p.x0 else p.x, if temp then p.y0 else p.y;
            var b := bc(x0 - Increment(dz, h.f1.x, h.f2.x, h.f3.x, h.f4.x, h.f5.x), y0 - Increment(dz, h.f1.y, h.f2.y, h.f3.y, h.f4.y, h.f5.y));
            var r := if temp then TrialPush(p, h, dz, bc) else RealPush(p, h, dz, bc);
            && r.x == b.x && r.y == b.y && (r.id > 0 <==> !b.lost) && r.c == p.c
            && (b.lost ==> r.id == -p.id && r.w == 0.0 && r.ux == p.ux && r.uy == p.uy && r.psi == p.psi && r.x0 == p.x0 && r.y0 == p.y0)
            && (!b.lost ==> r.id == p.id && r.w == p.w)
  {
  }

  /** A particle at 3 that moves by 2 in a domain that is periodic at 4: the push puts it at 1, the reset at 5. */
  lemma WrapIsUndone(p: Particle, h: History, bc: BoundFn)
    requires p.x == 3.0 && h.f1.x == -2.0 && h.f2.x == -2.0 && h.f3.x == -2.0 && h.f4.x == -2.0 && h.f5.x == -2.0
    requires forall x, y :: bc(x, y) == Bound(if x >= 4.0 then x - 4.0 else x, y, false)
    ensures RealPush(p, h, 1.0, bc).x == 1.0 && Reset(RealPush(p, h, 1.0, bc)).x == 5.0
  {
  }

  method Step(dz: real, f1: real, f2: real, f3: real, f4: real, f5: real) returns (d: real)
    ensures d == Increment(dz, f1, f2, f3, f4, f5)
  {
    var a1, a2, a3, a4, a5 := 1901.0 / 720.0 * dz, -1387.0 / 360.0 * dz, 109.0 / 30.0 * dz, -637.0 / 360.0 * dz, 251.0 / 720.0 * dz;
    d := a1 * f1 + a2 * f2 + a3 * f3 + a4 * f4 + a5 * f5;
  }

  // ---------------------------------------------------------------- the container

  /** What AdvancePlasmaParticles does to particle p whose history, after a possible shift, is h. */
  function Updated(p: Particle, h: History, update: bool, force: ForceFn): History {
    if p.id >= 0 && update then h.(f1 := force(p.x, p.y, p.ux, p.uy, p.psi, p.c)) else h
  }

  function Pushed(p: Particle, h: History, temp: bool, push: bool, dz: real, bc: BoundFn): Particle {
    if p.id < 0 || !push then p else if temp then TrialPush(p, h, dz, bc) else RealPush(p, h, dz, bc)
  }

  class Plasma {
    var p: seq<Particle>
    var f1: seq<Force>
    var f2: seq<Force>
    var f3: seq<Force>
    var f4: seq<Force>
    var f5: seq<Force>

    ghost predicate Valid()
      reads this
    {
      |f1| == |f2| == |f3| == |f4| == |f5| == |p|
    }

    ghost function Past(i: int): History
      requires Valid() && 0 <= i < |p|
      reads this
    {
      History(f1[i], f2[i], f3[i], f4[i], f5[i])
    }

    /** The histories after a shift. */
    ghost function ShiftedPast(): (h: seq<History>)
      requires Valid()
      reads this
      ensures |h| == |p| && forall i :: 0 <= i < |p| ==> h[i] == History(f5[i], f1[i], f2[i], f3[i], f4[i])
    {
      seq(|p|, i requires 0 <= i < |p| && Valid() reads this => History(f5[i], f1[i], f2[i], f3[i], f4[i]))
    }

    constructor (particles: seq<Particle>)
      ensures Valid() && p == particles
      ensures forall i :: 0 <= i < |p| ==> f1[i] == f2[i] == f3[i] == f4[i] == f5[i] == Force(0.0, 0.0, 0.0, 0.0, 0.0)
    {
      p := particles;
      var zero := seq(|particles|, _ => Force(0.0, 0.0, 0.0, 0.0, 0.0));
      f1, f2, f3, f4, f5 := zero, zero, zero, zero, zero;
    }

    /** The chain of swaps: every term moves one slice into the past, the oldest is left in F1 to be overwritten. */
    method ShiftForceTerms()
      requires Valid()
      modifies `f1, `f2, `f3, `f4, `f5
      ensures Valid() && f1 == old(f5) && f2 == old(f1) && f3 == old(f2) && f4 == old(f3) && f5 == old(f4)
    {
      f5, f4 := f4, f5;
      f4, f3 := f3, f4;
      f3, f2 := f2, f3;
      f2, f1 := f1, f2;
    }

    /** AdvancePlasmaParticles. */
    method Advance(temp: bool, push: bool, update: bool, shift: bool, force: ForceFn, dz: real, bc: BoundFn)
      requires Valid()
      modifies this
      ensures Valid() && |p| == old(|p|)
      ensures if shift then f2 == old(f1) && f3 == old(f2) && f4 == old(f3) && f5 == old(f4)
              else f2 == old(f2) && f3 == old(f3) && f4 == old(f4) && f5 == old(f5)
      ensures forall i :: 0 <= i < |p| ==>
                f1[i] == Updated(old(p[i]), Past(i).(f1 := old(if shift then f5[i] else f1[i])), update, force).f1
      ensures forall i :: 0 <= i < |p| ==> p[i] == Pushed(old(p[i]), Past(i), temp, push, dz, bc)
    {
      if shift { ShiftForceTerms(); }
      for ip := 0 to |p|
        invariant Valid() && |p| == old(|p|)
        invariant if shift then f2 == old(f1) && f3 == old(f2) && f4 == old(f3) && f5 == old(f4)
                  else f2 == old(f2) && f3 == old(f3) && f4 == old(f4) && f5 == old(f5)
        invariant forall i :: ip <= i < |p| ==> p[i] == old(p[i]) && f1[i] == old(if shift then f5[i] else f1[i])
        invariant forall i :: 0 <= i < ip ==>
          f1[i] == Updated(old(p[i]), Past(i).(f1 := old(if shift then f5[i] else f1[i])), update, force).f1
        invariant forall i :: 0 <= i < ip ==> p[i] == Pushed(old(p[i]), Past(i), temp, push, dz, bc)
      {
        AdvanceOne(ip, temp, push, update, force, dz, bc);
      }
    }

    /** The body of the particle loop. */
    method AdvanceOne(ip: nat, temp: bool, push: bool, update: bool, force: ForceFn, dz: real, bc: BoundFn)
      requires Valid() && ip < |p|
      modifies `p, `f1
      ensures Valid() && f1 == old(f1)[ip := Updated(old(p[ip]), old(Past(ip)), update, force).f1]
      ensures p == old(p)[ip := Pushed(old(p[ip]), Past(ip), temp, push, dz, bc)]
    {
      if p[ip].id >= 0 {
        if update {
          var q := p[ip];
          f1 := f1[ip := force(q.x, q.y, q.ux, q.uy, q.psi, q.c)];
        }
        if push { PushOne(ip, temp, dz, bc); }
      }
    }

    /** PlasmaParticlePush. */
    method PushOne(ip: nat, temp: bool, dz: real, bc: BoundFn)
      requires Valid() && ip < |p|
      modifies `p
      ensures Valid() && p == old(p)[ip := if temp then TrialPush(old(p[ip]), Past(ip), dz, bc) else RealPush(old(p[ip]), Past(ip), dz, bc)]
    {
      var q := p[ip];
      var dx := Step(dz, f1[ip].x, f2[ip].x, f3[ip].x, f4[ip].x, f5[ip].x);
      var dy := Step(dz, f1[ip].y, f2[ip].y, f3[ip].y, f4[ip].y, f5[ip].y);
      var xp, yp := if temp then q.x0 - dx else q.x - dx, if temp then q.y0 - dy else q.y - dy;
      // set the position, then enforce the boundary condition on it
      var b := bc(xp, yp);
      q := q.(x := b.x, y := b.y);
      if b.lost {
        p := p[ip := q.(w := 0.0, id := -Abs(q.id))];
        return;
      }
      var dux := Step(dz, f1[ip].ux, f2[ip].ux, f3[ip].ux, f4[ip].ux, f5[ip].ux);
      var duy := Step(dz, f1[ip].uy, f2[ip].uy, f3[ip].uy, f4[ip].uy, f5[ip].uy);
      var dpsi := Step(dz, f1[ip].psi, f2[ip].psi, f3[ip].psi, f4[ip].psi, f5[ip].psi);
      if temp {
        q := q.(uxt := q.ux - dux, uyt := q.uy - duy, psit := q.psi - dpsi);
      } else {
        q := q.(x0 := xp, y0 := yp, ux := q.ux - dux, uy := q.uy - duy, psi := q.psi - dpsi);
      }
      p := p[ip := q];
    }

    /** ResetPlasmaParticles, within a step. */
    method ResetParticles()
      modifies `p
      ensures |p| == old(|p|) && forall i :: 0 <= i < |p| ==> p[i] == Reset(old(p[i]))
    {
      for ip := 0 to |p|
        invariant |p| == old(|p|)
        invariant forall i :: 0 <= i < |p| ==> p[i] == if i < ip then Reset(old(p[i])) else old(p[i])
      {
        p := p[ip := p[ip].(x := p[ip].x0, y := p[ip].y0)];
      }
    }

    /** Particle i after n iterations of the loop, in terms of the particle was[i] and the past forces h[i] before it. */
    ghost predicate InLoop(was: seq<Particle>, h: seq<History>, guess: ForceFn, next: nat -> ForceFn, dz: real, bc: BoundFn, n: nat)
      reads this
    {
      && Valid() && |p| == |was| == |h|
      && forall i :: 0 <= i < |p| ==> Tracks(was[i], h[i], p[i], Past(i), guess, next, dz, bc, n)
    }

    /** One iteration: trial push, then new forces; deposition, field solve and mixing are not part of the plasma. */
    method Iterate(ghost was: seq<Particle>, ghost h: seq<History>, guess: ForceFn, next: nat -> ForceFn, dz: real, bc: BoundFn, n: nat)
      requires InLoop(was, h, guess, next, dz, bc, n)
      modifies this
      ensures InLoop(was, h, guess, next, dz, bc, n + 1)
    {
      label Start:
      Advance(true, true, false, false, guess, dz, bc);
      label Pushed:
      Advance(false, false, true, false, next(n + 1), dz, bc);
      forall i | 0 <= i < |p| ensures Tracks(was[i], h[i], p[i], Past(i), guess, next, dz, bc, n + 1) {
        TracksNext(was[i], h[i], old@Start(p[i]), old@Start(Past(i)), p[i], Past(i), guess, next, dz, bc, n);
      }
    }

    /** The predictor-corrector loop on the plasma. `guess` gives the forces in the guessed magnetic field, `next(k)`
        those in the field of iteration k, `error(k)` its error; `error(0)` is the value the loop starts from. */
    method PredictorCorrector(guess: ForceFn, next: nat -> ForceFn, error: nat -> real, tolerance: real, max: nat, dz: real, bc: BoundFn)
        returns (n: nat)
      requires Valid()
      modifies this
      ensures Valid() && |p| == old(|p|) && n <= max && (n < max ==> error(n) <= tolerance)
      ensures f2 == old(f1) && f3 == old(f2) && f4 == old(f3) && f5 == old(f4)
      ensures forall i :: 0 <= i < |p| ==> Committed(old(p[i]), p[i])
      ensures forall i :: 0 <= i < |p| && p[i].id >= 0 ==>
                f1[i] == Corrected(old(p[i]), History(old(f5[i]), f2[i], f3[i], f4[i], f5[i]), guess, next, dz, bc, n)
    {
      ghost var was := p;
      ghost var h := ShiftedPast();
      Advance(false, false, true, true, guess, dz, bc);
      n := 0;
      while error(n) > tolerance && n < max
        invariant n <= max && InLoop(was, h, guess, next, dz, bc, n)
        decreases max - n
      {
        Iterate(was, h, guess, next, dz, bc, n);
        n := n + 1;
      }
      assert forall i :: 0 <= i < |p| ==> Past(i) == h[i].(f1 := f1[i]);
      assert f2 == old(f1) && f3 == old(f2) && f4 == old(f3) && f5 == old(f4);
      ResetParticles();
    }

    /** The terms hold the last five entries of the log, the last one in F1. */
    ghost predicate HoldsLast(log: seq<seq<Force>>)
      reads this
    {
      var n := |log|;
      n >= 5 && f1 == log[n - 1] && f2 == log[n - 2] && f3 == log[n - 3] && f4 == log[n - 4] && f5 == log[n - 5]
    }

    /** The plasma part of SolveOneSlice without the explicit solver: the real push, then the loop. */
    method SolveSlice(guess: ForceFn, next: nat -> ForceFn, error: nat -> real, tolerance: real, max: nat, dz: real, bc: BoundFn)
        returns (n: nat)
      requires Valid()
      modifies this
      ensures Valid() && |p| == old(|p|) && n <= max && (n < max ==> error(n) <= tolerance)
      ensures f2 == old(f1) && f3 == old(f2) && f4 == old(f3) && f5 == old(f4)
      ensures forall i :: 0 <= i < |p| ==>
                Solved(old(p[i]), old(Past(i)), p[i], f1[i], guess, next, dz, bc, n)
    {
      Advance(false, true, false, false, guess, dz, bc);
      assert f1 == old(f1);
      n := PredictorCorrector(guess, next, error, tolerance, max, dz, bc);
    }

    /** A whole step. Its trace starts with the particles and force terms before the step. */
    method SolveStep(slices: nat, guess: nat -> ForceFn, next: nat -> nat -> ForceFn, error: nat -> nat -> real, tolerance: real, max: nat,
                     dz: real, bc: BoundFn) returns (ghost tr: Trace)
      requires Valid()
      modifies this
      ensures Valid() && |p| == old(|p|) && IsTrace(tr, |p|, slices, guess, next, dz, bc)
      ensures tr.states[0] == old(p) && tr.states[slices] == p
      ensures tr.log[..5] == old([f5, f4, f3, f2, f1]) && HoldsLast(tr.log)
      ensures forall k :: 0 <= k < slices ==> Stopped(error(k), tolerance, max, tr.iters[k])
    {
      tr := Trace([f5, f4, f3, f2, f1], [p], []);
      for k := 0 to slices
        invariant Valid() && |p| == old(|p|) && IsTrace(tr, |p|, k, guess, next, dz, bc)
        invariant tr.states[0] == old(p) && tr.states[k] == p && tr.log[..5] == old([f5, f4, f3, f2, f1]) && HoldsLast(tr.log)
        invariant forall j :: 0 <= j < k ==> Stopped(error(j), tolerance, max, tr.iters[j])
      {
        ghost var was := tr;
        var n := SolveSlice(guess(k), next(k), error(k), tolerance, max, dz, bc);
        tr := Trace(was.log + [f1], was.states + [p], was.iters + [n]);
        TraceNext(was, tr, |p|, k, guess, next, dz, bc);
      }
    }
  }

  // ---------------------------------------------------------------- a step

  /** A slice solved: particle p with past forces h is pushed, the loop leaves it as `now` with the new forces f. */
  predicate Solved(p: Particle, h: History, now: Particle, f: Force, guess: ForceFn, next: nat -> ForceFn, dz: real, bc: BoundFn, n: nat) {
    var q := Pushed(p, h, false, true, dz, bc);
    Committed(q, now) && (now.id >= 0 ==> f == Corrected(q, History(h.f5, h.f1, h.f2, h.f3, h.f4), guess, next, dz, bc, n))
  }

  /** The loop of a slice ran at most `max` times, and fewer times only if the error came down to the tolerance. */
  predicate Stopped(error: nat -> real, tolerance: real, max: nat, n: nat) { n <= max && (n < max ==> error(n) <= tolerance) }

  /** A step, slice by slice: the force terms F5 to F1 before it and the ones every slice leaves, the particles before and
      after every slice, and the number of iterations of every slice. */
  datatype Trace = Trace(log: seq<seq<Force>>, states: seq<seq<Particle>>, iters: seq<nat>)

  /** The log has the five force terms of particle i before slice k. */
  predicate HasPast(log: seq<seq<Force>>, k: nat, i: nat) {
    k + 5 <= |log| && i < |log[k]| && i < |log[k + 1]| && i < |log[k + 2]| && i < |log[k + 3]| && i < |log[k + 4]|
  }

  /** The past forces of particle i before slice k. */
  function PastOf(log: seq<seq<Force>>, k: nat, i: nat): History
    requires HasPast(log, k, i)
  {
    History(log[k + 4][i], log[k + 3][i], log[k + 2][i], log[k + 1][i], log[k][i])
  }

  ghost predicate Shaped(tr: Trace, size: nat, n: nat) {
    && |tr.log| == n + 5 && |tr.states| == n + 1 && |tr.iters| == n
    && (forall j :: 0 <= j < n + 5 ==> |tr.log[j]| == size) && (forall j :: 0 <= j < n + 1 ==> |tr.states[j]| == size)
  }

  /** Slice k of the trace has been solved for particle i. */
  ghost predicate SolvedAt(tr: Trace, k: nat, i: nat, guess: ForceFn, next: nat -> ForceFn, dz: real, bc: BoundFn)
    requires k + 5 < |tr.log| && HasPast(tr.log, k, i) && i < |tr.log[k + 5]| && k + 1 < |tr.states| && k < |tr.iters|
    requires i < |tr.states[k]| && i < |tr.states[k + 1]|
  {
    Solved(tr.states[k][i], PastOf(tr.log, k, i), tr.states[k + 1][i], tr.log[k + 5][i], guess, next, dz, bc, tr.iters[k])
  }

  ghost predicate IsTrace(tr: Trace, size: nat, n: nat, guess: nat -> ForceFn, next: nat -> nat -> ForceFn, dz: real, bc: BoundFn) {
    Shaped(tr, size, n) && forall k: nat, i: nat :: k < n && i < size ==> SolvedAt(tr, k, i, guess(k), next(k), dz, bc)
  }

  lemma {:induction false} TraceNext(was: Trace, tr: Trace, size: nat, n: nat, guess: nat -> ForceFn, next: nat -> nat -> ForceFn, dz: real, bc: BoundFn)
    requires IsTrace(was, size, n, guess, next, dz, bc) && Shaped(tr, size, n + 1)
    requires tr.log[..n + 5] == was.log && tr.states[..n + 1] == was.states && tr.iters[..n] == was.iters
    requires forall i: nat :: i < size ==> SolvedAt(tr, n, i, guess(n), next(n), dz, bc)
    ensures IsTrace(tr, size, n + 1, guess, next, dz, bc)
  {
    forall k: nat, i: nat | k < n + 1 && i < size ensures SolvedAt(tr, k, i, guess(k), next(k), dz, bc) {
      if k < n {
        assert SolvedAt(was, k, i, guess(k), next(k), dz, bc);
        SameSlice(was, tr, n, k, i);
      }
    }
  }

  lemma SameSlice(was: Trace, tr: Trace, n: nat, k: nat, i: nat)
    requires k < n && |was.log| == n + 5 && |was.states| == n + 1 && |was.iters| == n
    requires |tr.log| > n + 5 && |tr.states| > n + 1 && |tr.iters| > n
    requires tr.log[..n + 5] == was.log && tr.states[..n + 1] == was.states && tr.iters[..n] == was.iters
    ensures tr.states[k] == was.states[k] && tr.states[k + 1] == was.states[k + 1] && tr.iters[k] == was.iters[k]
    ensures forall j :: k <= j <= k + 5 ==> tr.log[j] == was.log[j]
  {
    assert tr.states[..n + 1][k] == tr.states[k] && tr.states[..n + 1][k + 1] == tr.states[k + 1] && tr.iters[..n][k] == tr.iters[k];
    forall j | k <= j <= k + 5 ensures tr.log[j] == was.log[j] { assert tr.log[..n + 5][j] == tr.log[j]; }
  }

  /** A particle `now` with forces g, n iterations after it was `was` with past forces h. */
  predicate Tracks(was: Particle, h: History, now: Particle, g: History, guess: ForceFn, next: nat -> ForceFn, dz: real, bc: BoundFn, n: nat) {
    && g == h.(f1 := g.f1) && Undoes(was, now)
    && (now.id >= 0 ==> g.f1 == Corrected(was, h, guess, next, dz, bc, n))
  }

  lemma TracksNext(was: Particle, h: History, p: Particle, g: History, q: Particle, g': History, guess: ForceFn, next: nat -> ForceFn,
                   dz: real, bc: BoundFn, n: nat)
    requires Tracks(was, h, p, g, guess, next, dz, bc, n)
    requires q == Pushed(p, g, true, true, dz, bc) && g' == Updated(q, g, true, next(n + 1))
    ensures Tracks(was, h, q, g', guess, next, dz, bc, n + 1)
  {
  }

  /** Nothing but the stored position, the temporaries and (when lost) the weight and the sign of the id differs. */
  predicate Undoes(was: Particle, now: Particle) {
    && now == was.(x := now.x, y := now.y, uxt := now.uxt, uyt := now.uyt, psit := now.psit, id := now.id, w := now.w)
    && ((now.id == was.id && now.w == was.w) || (now.id == -Abs(was.id) && now.w == 0.0))
  }

  /** After the loop: the committed momenta, potential and previous position of every particle are those from before the
      loop, the stored position is the previous position, and a particle is as it was or lost in a trial push. */
  predicate Committed(was: Particle, now: Particle) {
    Undoes(was, now) && now.x == was.x0 && now.y == was.y0
  }

  /** The force of a particle after n iterations; h holds the forces of the past slices. */
  function Corrected(p: Particle, h: History, guess: ForceFn, next: nat -> ForceFn, dz: real, bc: BoundFn, n: nat): Force {
    if n == 0 then guess(p.x, p.y, p.ux, p.uy, p.psi, p.c)
    else
      var t := TrialPush(p, h.(f1 := Corrected(p, h, guess, next, dz, bc, n - 1)), dz, bc);
      next(n)(t.x, t.y, p.ux, p.uy, p.psi, p.c)
  }

  /** What the loop iterates: the forces of iteration n are gathered where a real push with the forces of the iteration
      before would put the particle. */
  lemma CorrectedLaw(p: Particle, h: History, guess: ForceFn, next: nat -> ForceFn, dz: real, bc: BoundFn, n: nat)
    requires p.x == p.x0 && p.y == p.y0
    ensures Corrected(p, h, guess, next, dz, bc, 0) == guess(p.x, p.y, p.ux, p.uy, p.psi, p.c)
    ensures n > 0 ==>
              var r := RealPush(p, h.(f1 := Corrected(p, h, guess, next, dz, bc, n - 1)), dz, bc);
              Corrected(p, h, guess, next, dz, bc, n) == next(n)(r.x, r.y, p.ux, p.uy, p.psi, p.c)
  {
    if n > 0 { TrialIsReal(p, h.(f1 := Corrected(p, h, guess, next, dz, bc, n - 1)), dz, bc); }
  }

  /** When an iteration gives the forces of the one before, the real push of the next slice is implicit: its force is the one
      at the position that it leads to. */
  lemma ConvergedIsImplicit(p: Particle, h: History, guess: ForceFn, next: nat -> ForceFn, dz: real, bc: BoundFn, n: nat, f: Force)
    requires p.x == p.x0 && p.y == p.y0 && n > 0
    requires f == Corrected(p, h, guess, next, dz, bc, n) == Corrected(p, h, guess, next, dz, bc, n - 1)
    ensures var r := RealPush(p, h.(f1 := f), dz, bc); f == next(n)(r.x, r.y, p.ux, p.uy, p.psi, p.c)
  {
    CorrectedLaw(p, h, guess, next, dz, bc, n);
  }
}
