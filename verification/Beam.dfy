/** Beam particles and the longitudinal geometry they are sorted by.

    A particle carries an auxiliary `tag`, the index it had in the injected beam. The program never looks at
    it; it only makes two particles with equal attributes distinguishable, so that sets of tagged particles
    stand for multisets of particles. */
module Beam {
  /** Transverse position, momentum and weight: never inspected by the pipeline. */
  type Attr(==, !new)

  datatype Particle = Particle(tag: int, id: int, z: real, inside: bool, attr: Attr)

  /** `edges[b]` is the first slice of box b, `edges[|edges|-1]` the number of slices; `slice` maps a position
      to its slice index and `face(k)` is the position of the lower face of slice k. `assign` is the particle
      locator: from whether a particle is inside transversely and its position to its box, or to -1. */
  datatype Geometry = Geometry(edges: seq<int>, slice: real -> int, face: int -> real, assign: (bool, real) -> int)
  {
    function Boxes(): int { |edges| - 1 }

    ghost predicate Valid() {
      && |edges| >= 2 && edges[0] == 0
      && (forall b, c :: 0 <= b < c < |edges| ==> Apart(edges, b, c))
      && (forall z: real, k: int {:trigger face(k), slice(z)} :: face(k) <= z <==> k <= slice(z))
      && (forall i: bool, z: real {:trigger assign(i, z)} ::
            var b := assign(i, z);
            if i && 0 <= slice(z) < edges[|edges| - 1] then 0 <= b < |edges| - 1 && edges[b] <= slice(z) < edges[b + 1]
            else b == -1)
    }
  }

  /** A box has at least three slices. */
  predicate Apart(edges: seq<int>, b: int, c: int)
    requires 0 <= b < c < |edges|
  {
    edges[b] + 3 <= edges[c]
  }

  function Abs(x: int): int { if x < 0 then -x else x }

  /** The grid assignor: index of the box holding p, or -1 when p has left the domain. */
  function BoxOf(g: Geometry, p: Particle): int { g.assign(p.inside, p.z) }

  predicate Live(g: Geometry, p: Particle) { p.id >= 0 && BoxOf(g, p) >= 0 }

  lemma BoxOfSlice(g: Geometry, p: Particle, b: int)
    requires g.Valid() && 0 <= b < g.Boxes() && p.inside
    requires g.edges[b] <= g.slice(p.z) < g.edges[b + 1]
    ensures BoxOf(g, p) == b
  {
    EdgeOrder(g, 0, b);
    EdgeOrder(g, b + 1, g.Boxes());
    var c := BoxOf(g, p);
    if c < b { EdgeOrder(g, c + 1, b); } else { EdgeOrder(g, b + 1, c + 1); }
    if b < c { EdgeOrder(g, b + 1, c); }
  }

  lemma EdgeOrder(g: Geometry, b: int, c: int)
    requires g.Valid() && 0 <= b <= c < |g.edges|
    ensures g.edges[b] <= g.edges[c]
  {
    if b < c { assert Apart(g.edges, b, c); }
  }

  lemma SliceInDomain(g: Geometry, p: Particle)
    requires g.Valid() && BoxOf(g, p) >= 0
    ensures p.inside && 0 <= g.slice(p.z) < g.edges[g.Boxes()] && BoxOf(g, p) < g.Boxes()
    ensures g.edges[BoxOf(g, p)] <= g.slice(p.z) < g.edges[BoxOf(g, p) + 1]
  {
  }

  lemma SliceMonotone(g: Geometry, y: real, z: real)
    requires g.Valid() && y <= z
    ensures g.slice(y) <= g.slice(z)
  {
    assert g.face(g.slice(y)) <= y;
  }

  /** Two in-domain particles: the one that is not ahead is not in a higher box. */
  lemma BoxMonotone(g: Geometry, p: Particle, q: Particle)
    requires g.Valid() && p.z <= q.z && BoxOf(g, p) >= 0 && BoxOf(g, q) >= 0
    ensures BoxOf(g, p) <= BoxOf(g, q)
    ensures g.slice(p.z) <= g.slice(q.z)
  {
    SliceMonotone(g, p.z, q.z);
    BoxBySlice(g, p, q);
  }

  lemma BoxBySlice(g: Geometry, p: Particle, q: Particle)
    requires g.Valid() && g.slice(p.z) <= g.slice(q.z) && BoxOf(g, p) >= 0 && BoxOf(g, q) >= 0
    ensures BoxOf(g, p) <= BoxOf(g, q)
  {
    if BoxOf(g, q) < BoxOf(g, p) { EdgeOrder(g, BoxOf(g, q) + 1, BoxOf(g, p)); }
  }

  /** The uniform grid the program uses: slice k starts at plo + k*dz, every box has `len` slices. */
  function UniformEdges(n: nat, len: int): (e: seq<int>)
    ensures |e| == n + 1 && e[0] == 0
    ensures forall b :: 0 <= b < n ==> e[b + 1] == e[b] + len
    ensures len >= 0 ==> forall b, c :: 0 <= b < c <= n ==> e[b] + len <= e[c]
  {
    if n == 0 then [0] else var e := UniformEdges(n - 1, len); e + [e[n - 1] + len]
  }

  lemma UniformFace(plo: real, dz: real, z: real, k: int)
    requires dz > 0.0
    ensures plo + dz * (k as real) <= z <==> k <= UniformSlice(plo, dz, z)
  {
    var q := (z - plo) / dz;
    assert q * dz == z - plo;
    if (k as real) <= q {
      assert (k as real) * dz <= q * dz;
    } else {
      assert (k as real) * dz > q * dz;
    }
  }

  function FindBox(edges: seq<int>, k: int, b: int): (r: int)
    requires 0 <= b < |edges| - 1 && edges[b] <= k < edges[|edges| - 1]
    ensures b <= r < |edges| - 1 && edges[r] <= k < edges[r + 1]
    decreases |edges| - b
  {
    if k < edges[b + 1] then b else FindBox(edges, k, b + 1)
  }

  /** The locator of a grid with these edges. */
  function Locate(edges: seq<int>, inside: bool, k: int): (r: int)
    requires |edges| >= 2 && edges[0] == 0
    ensures if inside && 0 <= k < edges[|edges| - 1] then 0 <= r < |edges| - 1 && edges[r] <= k < edges[r + 1] else r == -1
  {
    if inside && 0 <= k < edges[|edges| - 1] then FindBox(edges, k, 0) else -1
  }

  function UniformSlice(plo: real, dz: real, z: real): int requires dz > 0.0 { ((z - plo) / dz).Floor }

  /** The uniform grid as a geometry: n boxes of len slices. */
  function UniformGrid(plo: real, dz: real, n: nat, len: int): Geometry
    requires dz > 0.0 && n >= 1
  {
    Geometry(UniformEdges(n, len), (z: real) => UniformSlice(plo, dz, z), (k: int) => plo + dz * (k as real),
             (i: bool, z: real) => Locate(UniformEdges(n, len), i, UniformSlice(plo, dz, z)))
  }

  lemma {:induction false} UniformFaces(g: Geometry, plo: real, dz: real)
    requires dz > 0.0 && (forall z :: g.slice(z) == UniformSlice(plo, dz, z)) && forall k :: g.face(k) == plo + dz * (k as real)
    ensures forall z: real, k: int {:trigger g.face(k), g.slice(z)} :: g.face(k) <= z <==> k <= g.slice(z)
  {
    forall z: real, k: int ensures g.face(k) <= z <==> k <= g.slice(z) { UniformFace(plo, dz, z, k); }
  }

  lemma {:induction false} UniformAssign(g: Geometry, plo: real, dz: real)
    requires dz > 0.0 && |g.edges| >= 2 && g.edges[0] == 0 && forall b, c :: 0 <= b < c < |g.edges| ==> g.edges[b] + 3 <= g.edges[c]
    requires forall i, z :: g.assign(i, z) == Locate(g.edges, i, g.slice(z))
    ensures forall i: bool, z: real {:trigger g.assign(i, z)} ::
              var b := g.assign(i, z);
              if i && 0 <= g.slice(z) < g.edges[|g.edges| - 1] then 0 <= b < |g.edges| - 1 && g.edges[b] <= g.slice(z) < g.edges[b + 1]
              else b == -1
  {
  }

  /** It satisfies what the model asks of a geometry. */
  lemma {:induction false} UniformGeometry(plo: real, dz: real, n: nat, len: int)
    requires dz > 0.0 && n >= 1 && len >= 3
    ensures UniformGrid(plo, dz, n, len).Valid()
  {
    var g := UniformGrid(plo, dz, n, len);
    UniformFaces(g, plo, dz);
    UniformAssign(g, plo, dz);
  }

  /** Slice k of it starts at plo + k*dz, and box b with slice b*len. */
  lemma {:induction false} UniformGridIs(plo: real, dz: real, n: nat, len: int, k: int, b: nat)
    requires dz > 0.0 && n >= 1 && b <= n
    ensures UniformGrid(plo, dz, n, len).face(k) == plo + dz * (k as real)
    ensures |UniformGrid(plo, dz, n, len).edges| == n + 1 && UniformGrid(plo, dz, n, len).edges[b] == b * len
  {
    if b > 0 {
      UniformGridIs(plo, dz, n, len, k, b - 1);
      assert (b - 1) * len + len == b * len;
    }
  }

  // ---------------------------------------------------------------- sorting by box

  /** The box sorter invalidates a particle that no box holds and leaves every other particle alone. */
  function Mark(g: Geometry, p: Particle): Particle {
    if BoxOf(g, p) < 0 then p.(id := -Abs(p.id)) else p
  }

  function MarkAll(g: Geometry, a: seq<Particle>): (r: seq<Particle>)
    ensures |r| == |a|
    ensures forall i :: 0 <= i < |a| ==> r[i] == Mark(g, a[i])
  {
    seq(|a|, i requires 0 <= i < |a| => Mark(g, a[i]))
  }

  /** `off[b]` is the number of particles in boxes below b; the particles no box holds come last. */
  ghost predicate Grouped(g: Geometry, a: seq<Particle>, off: seq<nat>)
    requires g.Valid()
  {
    && |off| == g.Boxes() + 1 && off[0] == 0 && off[g.Boxes()] <= |a|
    && (forall b, c :: 0 <= b <= c < |off| ==> off[b] <= off[c])
    && (forall i :: 0 <= i < |a| ==>
          var b := BoxOf(g, a[i]);
          if i < off[g.Boxes()] then b >= 0 && off[b] <= i < off[b + 1] else b == -1)
  }

  lemma GroupedRange(g: Geometry, a: seq<Particle>, off: seq<nat>, b: int, i: int)
    requires g.Valid() && Grouped(g, a, off) && 0 <= b < g.Boxes() && off[b] <= i < off[b + 1]
    ensures i < |a| && BoxOf(g, a[i]) == b
  {
    assert off[b + 1] <= off[g.Boxes()];
  }

  ghost predicate BoxSorted(g: Geometry, a: seq<Particle>, s: seq<Particle>, off: seq<nat>)
    requires g.Valid()
  {
    Grouped(g, s, off) && multiset(s) == multiset(MarkAll(g, a))
  }

  lemma {:induction false} CountPointwise<X, Y>(a: seq<X>, x: X, b: seq<Y>, y: Y)
    requires |a| == |b| && forall i :: 0 <= i < |a| ==> (a[i] == x <==> b[i] == y)
    ensures multiset(a)[x] == multiset(b)[y]
  {
    if |a| > 0 {
      assert a == [a[0]] + a[1..] && b == [b[0]] + b[1..];
      CountPointwise(a[1..], x, b[1..], y);
    }
  }

  /** Sorting keeps every live particle, with its multiplicity. */
  lemma SortKeepsLive(g: Geometry, a: seq<Particle>, s: seq<Particle>, off: seq<nat>, p: Particle)
    requires g.Valid() && BoxSorted(g, a, s, off) && Live(g, p)
    ensures multiset(s)[p] == multiset(a)[p]
  {
    var m := MarkAll(g, a);
    forall i | 0 <= i < |a| ensures a[i] == p <==> m[i] == p {
      assert BoxOf(g, Mark(g, a[i])) == BoxOf(g, a[i]);
    }
    CountPointwise(a, p, m, p);
  }

  /** An entry behind the last box is an escaped particle, and invalid: only the sign of its id has changed. */
  lemma EscapedEntry(g: Geometry, a: seq<Particle>, s: seq<Particle>, off: seq<nat>, i: nat) returns (j: nat)
    requires g.Valid() && BoxSorted(g, a, s, off) && off[g.Boxes()] <= i < |s|
    ensures j < |a| && g.assign(a[j].inside, a[j].z) < 0 && s[i].id <= 0
    ensures s[i] == a[j].(id := if a[j].id > 0 then -a[j].id else a[j].id)
  {
    assert BoxOf(g, s[i]) == -1;
    j := MarkedEntry(g, a, s, i);
  }

  /** An entry in front of it is a particle of a box, as it was. */
  lemma BoxedEntry(g: Geometry, a: seq<Particle>, s: seq<Particle>, off: seq<nat>, i: nat) returns (j: nat)
    requires g.Valid() && BoxSorted(g, a, s, off) && i < off[g.Boxes()]
    ensures j < |a| && i < |s| && g.assign(a[j].inside, a[j].z) >= 0 && s[i] == a[j]
  {
    assert BoxOf(g, s[i]) >= 0;
    j := MarkedEntry(g, a, s, i);
  }

  lemma MarkedEntry(g: Geometry, a: seq<Particle>, s: seq<Particle>, i: nat) returns (j: nat)
    requires multiset(s) == multiset(MarkAll(g, a)) && i < |s|
    ensures j < |a| && s[i] == Mark(g, a[j])
  {
    assert s[i] in multiset(s);
    assert s[i] in MarkAll(g, a);
    j :| 0 <= j < |a| && MarkAll(g, a)[j] == s[i];
  }

  // ---------------------------------------------------------------- ghost particles

  /** Ghost particles outside slice ilo-1 are invalidated (both faces of that slice are accepted). */
  function CheckGhost(g: Geometry, ilo: int, p: Particle): Particle {
    if p.z < g.face(ilo - 1) || p.z > g.face(ilo) then p.(id := -1) else p
  }

  function CheckGhosts(g: Geometry, ilo: int, a: seq<Particle>): (r: seq<Particle>)
    ensures |r| == |a|
    ensures forall i :: 0 <= i < |a| ==> r[i] == CheckGhost(g, ilo, a[i])
  {
    seq(|a|, i requires 0 <= i < |a| => CheckGhost(g, ilo, a[i]))
  }

  /** Exactly which ghosts survive: those of slice ilo-1, and those exactly on its upper face. */
  lemma CheckGhostWindow(g: Geometry, ilo: int, p: Particle)
    requires g.Valid() && p.id >= 0
    ensures CheckGhost(g, ilo, p).id >= 0 <==> g.slice(p.z) == ilo - 1 || p.z == g.face(ilo)
  {
    assert g.face(ilo - 1) <= p.z <==> ilo - 1 <= g.slice(p.z);
    assert g.face(ilo) <= p.z <==> ilo <= g.slice(p.z);
    if p.z == g.face(ilo) {
      assert g.slice(p.z) >= ilo;
    }
  }

  // ---------------------------------------------------------------- selections

  function Valids(a: seq<Particle>): (r: seq<Particle>)
    ensures forall p :: p in r ==> p in a && p.id >= 0
  {
    if a == [] then [] else if a[0].id >= 0 then [a[0]] + Valids(a[1..]) else Valids(a[1..])
  }

  /** The particles of a whose bin is k, in array order. */
  function InBin(a: seq<Particle>, bin: seq<int>, k: int): (r: seq<Particle>)
    requires |a| == |bin|
    ensures forall p :: p in r ==> exists i :: 0 <= i < |a| && a[i] == p && bin[i] == k
  {
    if a == [] then [] else
      var t := InBin(a[1..], bin[1..], k);
      assert forall p :: p in t ==> exists i :: 0 <= i < |a| && a[i] == p && bin[i] == k by {
        forall p | p in t ensures exists i :: 0 <= i < |a| && a[i] == p && bin[i] == k {
          var i :| 0 <= i < |a[1..]| && a[1..][i] == p && bin[1..][i] == k;
          assert a[i + 1] == p && bin[i + 1] == k;
        }
      }
      if bin[0] == k then [a[0]] + t else t
  }

  lemma {:induction false} CountValids(a: seq<Particle>, p: Particle)
    requires p.id >= 0
    ensures multiset(Valids(a))[p] == multiset(a)[p]
  {
    if a != [] {
      assert a == [a[0]] + a[1..];
      CountValids(a[1..], p);
    }
  }

  lemma {:induction false} CountInBin(a: seq<Particle>, bin: seq<int>, k: int, p: Particle)
    requires |a| == |bin| && forall i :: 0 <= i < |a| && a[i] == p ==> bin[i] == k
    ensures multiset(InBin(a, bin, k))[p] == multiset(a)[p]
  {
    if a != [] {
      assert a == [a[0]] + a[1..];
      CountInBin(a[1..], bin[1..], k, p);
    }
  }
}
