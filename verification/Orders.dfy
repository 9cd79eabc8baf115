/** Orders in which a parallel kernel may visit its items, and the bins that AMReX sorts items into. */
module Orders {
  function Identity(n: nat): (r: seq<nat>)
    ensures |r| == n && forall i :: 0 <= i < n ==> r[i] == i
  {
    seq(n, i requires 0 <= i < n => i)
  }

  /** An order in which a kernel may visit n particles. */
  ghost predicate Order(order: seq<nat>, n: nat) {
    |order| == n && multiset(order) == multiset(Identity(n))
  }

  lemma CountIdentity(n: nat, x: nat)
    ensures multiset(Identity(n))[x] == if x < n then 1 else 0
  {
    var s := Identity(n);
    if x < n {
      assert s == s[..x] + [s[x]] + s[x + 1..];
      assert x !in s[..x] && x !in s[x + 1..];
    } else {
      assert x !in s;
    }
  }

  lemma Twice(s: seq<nat>, j: nat, k: nat)
    requires j < k < |s| && s[j] == s[k]
    ensures multiset(s)[s[j]] >= 2
  {
    assert s == s[..j] + [s[j]] + s[j + 1..k] + [s[k]] + s[k + 1..];
  }

  lemma OrderIndex(order: seq<nat>, n: nat, j: nat, k: nat)
    requires Order(order, n) && j < k < n
    ensures order[j] != order[k]
  {
    CountIdentity(n, order[j]);
    if order[j] == order[k] { Twice(order, j, k); }
  }

  lemma InRange(order: seq<nat>, n: nat)
    requires Order(order, n)
    ensures forall j :: 0 <= j < |order| ==> order[j] < n
  {
    forall j | 0 <= j < |order| ensures order[j] < n {
      CountIdentity(n, order[j]);
      assert order[j] in multiset(order);
    }
  }

  lemma Distinct(order: seq<nat>, n: nat, j: nat)
    requires Order(order, n) && j < n
    ensures forall k :: 0 <= k < n && k != j ==> order[k] != order[j]
  {
    forall k | 0 <= k < n && k != j ensures order[k] != order[j] {
      OrderIndex(order, n, if k < j then k else j, if k < j then j else k);
    }
  }

  lemma Covers(order: seq<nat>, n: nat, i: nat) returns (k: nat)
    requires Order(order, n) && i < n
    ensures k < n && order[k] == i
  {
    CountIdentity(n, i);
    assert i in multiset(order);
    k :| 0 <= k < |order| && order[k] == i;
  }

  /** The entries in visiting order. */
  function Visit<T>(a: seq<T>, order: seq<nat>): (r: seq<T>)
    requires forall j :: 0 <= j < |order| ==> order[j] < |a|
    ensures |r| == |order| && forall j :: 0 <= j < |order| ==> r[j] == a[order[j]]
  {
    seq(|order|, j requires 0 <= j < |order| => a[order[j]])
  }

  lemma RemoveOne<T>(s: seq<T>, t: seq<T>, i: nat)
    requires s != [] && i < |t| && t[i] == s[0] && multiset(s) == multiset(t)
    ensures multiset(s[1..]) == multiset(t[..i] + t[i + 1..])
  {
    assert s == [s[0]] + s[1..] && t == t[..i] + [t[i]] + t[i + 1..];
    assert multiset(s[1..]) == multiset(s) - multiset{s[0]};
  }

  lemma VisitSplit<T>(a: seq<T>, t: seq<nat>, i: nat)
    requires i < |t| && forall j :: 0 <= j < |t| ==> t[j] < |a|
    ensures multiset(Visit(a, t)) == multiset{a[t[i]]} + multiset(Visit(a, t[..i] + t[i + 1..]))
  {
    assert Visit(a, t) == Visit(a, t[..i]) + [a[t[i]]] + Visit(a, t[i + 1..]);
    assert Visit(a, t[..i] + t[i + 1..]) == Visit(a, t[..i]) + Visit(a, t[i + 1..]);
  }

  lemma {:induction false} VisitSame<T>(a: seq<T>, s: seq<nat>, t: seq<nat>)
    requires forall j :: 0 <= j < |s| ==> s[j] < |a|
    requires forall j :: 0 <= j < |t| ==> t[j] < |a|
    requires multiset(s) == multiset(t)
    ensures multiset(Visit(a, s)) == multiset(Visit(a, t))
  {
    if s == [] {
      assert |multiset(t)| == 0;
    } else {
      assert s[0] in multiset(t);
      var i :| 0 <= i < |t| && t[i] == s[0];
      RemoveOne(s, t, i);
      VisitSame(a, s[1..], t[..i] + t[i + 1..]);
      VisitSplit(a, t, i);
      assert Visit(a, s) == [a[s[0]]] + Visit(a, s[1..]);
    }
  }

  lemma VisitAll<T>(a: seq<T>, order: seq<nat>)
    requires Order(order, |a|) && forall j :: 0 <= j < |order| ==> order[j] < |a|
    ensures multiset(Visit(a, order)) == multiset(a)
  {
    VisitSame(a, order, Identity(|a|));
    assert Visit(a, Identity(|a|)) == a;
  }

  // ---------------------------------------------------------------- counting

  /** How often x is in s: the multiplicity in its multiset, by recursion. */
  ghost function Times<T>(s: seq<T>, x: T): nat {
    if s == [] then 0 else Times(s[..|s| - 1], x) + if s[|s| - 1] == x then 1 else 0
  }

  lemma {:induction false} TimesIs<T>(s: seq<T>, x: T)
    ensures Times(s, x) == multiset(s)[x]
  {
    if s != [] {
      TimesIs(s[..|s| - 1], x);
      assert s == s[..|s| - 1] + [s[|s| - 1]];
    }
  }

  lemma TimesSnoc<T>(s: seq<T>, y: T, x: T)
    ensures Times(s + [y], x) == Times(s, x) + if y == x then 1 else 0
  {
    assert (s + [y])[..|s|] == s;
  }

  lemma {:induction false} TimesConcat<T>(s: seq<T>, t: seq<T>, x: T)
    ensures Times(s + t, x) == Times(s, x) + Times(t, x)
  {
    if t == [] {
      assert s + t == s;
    } else {
      var u := t[..|t| - 1];
      TimesConcat(s, u, x);
      TimesSnoc(s + u, t[|t| - 1], x);
      assert s + t == s + u + [t[|t| - 1]];
    }
  }

  // ---------------------------------------------------------------- bins

  /** C++ conversion from real to int: towards zero. */
  function Trunc(x: real): int { if x >= 0.0 then x.Floor else -((-x).Floor) }

  /** The integer next to x on the side of zero. */
  lemma TruncIs(x: real)
    ensures x >= 0.0 ==> 0.0 <= Trunc(x) as real <= x < Trunc(x) as real + 1.0
    ensures x <= 0.0 ==> Trunc(x) as real - 1.0 < x <= Trunc(x) as real <= 0.0
  {
  }

  /** Bin k takes up the places from offsets[k] to offsets[k+1]. */
  ghost predicate BinAt(perm: seq<nat>, offsets: seq<nat>, bin: seq<int>, k: nat) {
    && k + 1 < |offsets| && offsets[k] <= offsets[k + 1] <= |perm|
    && forall j :: 0 <= j < |perm| && perm[j] < |bin| ==> (bin[perm[j]] == k <==> offsets[k] <= j < offsets[k + 1])
  }

  /** What DenseBins::build leaves: a permutation of the particles, one bin after the other. */
  ghost predicate IsBins(perm: seq<nat>, offsets: seq<nat>, bin: seq<int>, n: nat) {
    Order(perm, |bin|) && |offsets| == n + 1 && forall k: nat :: k < n ==> BinAt(perm, offsets, bin, k)
  }

  /** What the items t[0], t[1], ... hold together. */
  ghost function Union<T>(f: nat -> multiset<T>, t: seq<nat>): multiset<T> {
    if t == [] then multiset{} else Union(f, t[..|t| - 1]) + f(t[|t| - 1])
  }

  lemma {:induction false} UnionSplit<T>(f: nat -> multiset<T>, t: seq<nat>, i: nat, u: seq<nat>)
    requires i < |t| && u == t[..i] + t[i + 1..]
    ensures Union(f, t) == Union(f, u) + f(t[i])
    decreases |t|
  {
    var last := |t| - 1;
    if i == last {
      assert u == t[..last];
    } else {
      var s := t[..last];
      UnionSplit(f, s, i, u[..last - 1]);
      assert u[last - 1] == t[last];
    }
  }

  lemma {:induction false} UnionSame<T>(f: nat -> multiset<T>, s: seq<nat>, t: seq<nat>)
    requires multiset(s) == multiset(t)
    ensures Union(f, s) == Union(f, t)
    decreases |s|
  {
    if s == [] {
      assert |multiset(t)| == 0;
    } else {
      assert s[0] in multiset(t);
      var i :| 0 <= i < |t| && t[i] == s[0];
      RemoveOne(s, t, i);
      UnionSame(f, s[1..], t[..i] + t[i + 1..]);
      UnionSplit(f, t, i, t[..i] + t[i + 1..]);
      UnionSplit(f, s, 0, s[1..]);
    }
  }

  /** What bin k of v holds. */
  ghost function BinSet<T>(v: seq<T>, offsets: seq<nat>): nat -> multiset<T> {
    (k: nat) => if k + 1 < |offsets| && offsets[k] <= offsets[k + 1] <= |v| then multiset(v[offsets[k]..offsets[k + 1]]) else multiset{}
  }

  ghost predicate BinBounds(offsets: seq<nat>, n: nat, k: nat) { k + 1 < |offsets| && offsets[k] <= offsets[k + 1] <= n }

  lemma {:induction false} UnionPrefix<T>(v: seq<T>, offsets: seq<nat>, n: nat)
    requires n < |offsets| && offsets[0] == 0 && forall k: nat :: k < n ==> BinBounds(offsets, |v|, k)
    ensures offsets[n] <= |v| && Union(BinSet(v, offsets), Identity(n)) == multiset(v[..offsets[n]])
  {
    if n > 0 {
      UnionPrefix(v, offsets, n - 1);
      assert BinBounds(offsets, |v|, n - 1);
      BinAdds(v, offsets, n - 1);
      IdentityLast(n);
    }
  }

  lemma IdentityLast(n: nat)
    requires n > 0
    ensures Identity(n)[..n - 1] == Identity(n - 1) && Identity(n)[n - 1] == n - 1
  {
  }

  lemma BinAdds<T>(v: seq<T>, offsets: seq<nat>, k: nat)
    requires BinBounds(offsets, |v|, k)
    ensures multiset(v[..offsets[k + 1]]) == multiset(v[..offsets[k]]) + BinSet(v, offsets)(k)
  {
    assert v[..offsets[k + 1]] == v[..offsets[k]] + v[offsets[k]..offsets[k + 1]];
  }

  /** All bins together, in any order, hold everything. */
  lemma UnionAll<T>(v: seq<T>, offsets: seq<nat>, tiles: seq<nat>, n: nat)
    requires |offsets| == n + 1 && offsets[0] == 0 && offsets[n] == |v| && Order(tiles, n)
    requires forall k: nat :: k < n ==> BinBounds(offsets, |v|, k)
    ensures Union(BinSet(v, offsets), tiles) == multiset(v)
  {
    UnionSame(BinSet(v, offsets), tiles, Identity(n));
    UnionPrefix(v, offsets, n);
    assert v[..|v|] == v;
  }
}
