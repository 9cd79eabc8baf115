/** The constants of input expressions: user constants may use each other, so a query recurses; values are cached and a
    set of the symbols under evaluation detects cycles. */
module Parser {
  import opened Orders

  /** A parsed expression: its symbols, and its value once all of them are bound. */
  datatype Expression = Expression(symbols: set<string>, value: map<string, real> -> real)

  datatype Option<T> = None | Some(value: T)

  /** The user's `my_constants` and the built-in constants. */
  datatype Inputs = Inputs(user: map<string, Expression>, builtin: map<string, real>)

  // ---------------------------------------------------------------- direct evaluation

  /** The value of symbol s by plain recursion, without a cache; `active` holds the symbols being evaluated. */
  function Direct(inp: Inputs, s: string, active: set<string>): Option<real>
    decreases inp.user.Keys - active, 1
  {
    if s in active then None
    else if s in inp.user then
      var e := inp.user[s];
      if AllDirect(inp, e.symbols, active + {s}) then Some(e.value(Bound(inp, e.symbols, active + {s}))) else None
    else if s in inp.builtin then Some(inp.builtin[s])
    else None
  }

  predicate AllDirect(inp: Inputs, symbols: set<string>, active: set<string>)
    decreases inp.user.Keys - active, 2
  {
    forall t | t in symbols :: Direct(inp, t, active).Some?
  }

  /** The symbols with their direct values. */
  function Bound(inp: Inputs, symbols: set<string>, active: set<string>): (r: map<string, real>)
    requires AllDirect(inp, symbols, active)
    ensures r.Keys == symbols && forall t :: t in symbols ==> r[t] == Direct(inp, t, active).value
    decreases inp.user.Keys - active, 3
  {
    map t | t in symbols :: Direct(inp, t, active).value
  }

  /** A value does not depend on what else is being evaluated. */
  lemma {:induction false} Independent(inp: Inputs, s: string, a: set<string>, b: set<string>)
    requires a <= b && Direct(inp, s, b).Some?
    ensures Direct(inp, s, a) == Direct(inp, s, b)
    decreases inp.user.Keys - a
  {
    if s in inp.user {
      forall t | t in inp.user[s].symbols ensures Direct(inp, t, a + {s}) == Direct(inp, t, b + {s}) {
        Independent(inp, t, a + {s}, b + {s});
      }
      assert Bound(inp, inp.user[s].symbols, a + {s}) == Bound(inp, inp.user[s].symbols, b + {s});
    }
  }

  /** The defining equation of a user constant: its expression at the values of its symbols. It overrides a built-in one. */
  lemma UserConstant(inp: Inputs, s: string)
    requires s in inp.user && Direct(inp, s, {}).Some?
    ensures AllDirect(inp, inp.user[s].symbols, {})
    ensures Direct(inp, s, {}).value == inp.user[s].value(Bound(inp, inp.user[s].symbols, {}))
  {
    assert {} + {s} == {s};
    forall t | t in inp.user[s].symbols ensures Direct(inp, t, {}) == Direct(inp, t, {s}) && Direct(inp, t, {s}).Some? {
      Independent(inp, t, {}, {s});
    }
    assert Bound(inp, inp.user[s].symbols, {}) == Bound(inp, inp.user[s].symbols, {s});
  }

  /** A built-in constant that the user has not redefined has its built-in value. */
  lemma BuiltinConstant(inp: Inputs, s: string, active: set<string>)
    requires s !in inp.user && s in inp.builtin && s !in active
    ensures Direct(inp, s, active) == Some(inp.builtin[s])
  {
  }

  // ---------------------------------------------------------------- unknown and cyclic symbols

  ghost predicate Uses(inp: Inputs, s: string, t: string) { s in inp.user && t in inp.user[s].symbols }

  predicate Known(inp: Inputs, s: string) { s in inp.user || s in inp.builtin }

  /** Each symbol of the path is used by the one before it. */
  ghost predicate Path(inp: Inputs, p: seq<string>) {
    p != [] && forall i :: 0 < i < |p| ==> Uses(inp, p[i - 1], p[i])
  }

  ghost predicate Repeats(p: seq<string>) { exists i, j :: 0 <= i < j < |p| && p[i] == p[j] }

  /** Symbol s leads to an unknown symbol or into a cycle. */
  ghost predicate Faulty(inp: Inputs, s: string) {
    exists p :: Path(inp, p) && p[0] == s && (!Known(inp, p[|p| - 1]) || Repeats(p))
  }

  function Elements(p: seq<string>): set<string> { set i | 0 <= i < |p| :: p[i] }

  /** The symbols along a path are evaluated one inside the other. */
  lemma {:induction false} AlongPath(inp: Inputs, p: seq<string>, k: nat)
    requires Path(inp, p) && Direct(inp, p[0], {}).Some? && k < |p|
    ensures Direct(inp, p[k], Elements(p[..k])).Some?
  {
    if k == 0 {
      assert Elements(p[..0]) == {};
    } else {
      AlongPath(inp, p, k - 1);
      assert Uses(inp, p[k - 1], p[k]);
      assert p[..k] == p[..k - 1] + [p[k - 1]];
      Snoc(p[..k - 1], p[k - 1]);
    }
  }

  lemma Snoc(p: seq<string>, s: string)
    ensures Elements(p + [s]) == Elements(p) + {s}
  {
    var q := p + [s];
    forall x | x in Elements(p) + {s} ensures x in Elements(q) {
      if x == s { assert q[|p|] == x; } else { var i :| 0 <= i < |p| && p[i] == x; assert q[i] == x; }
    }
  }

  /** A path from s to what stopped its evaluation: an unknown symbol, an active one, or one met before. */
  lemma {:induction false} Culprit(inp: Inputs, s: string, active: set<string>) returns (p: seq<string>)
    requires Direct(inp, s, active).None?
    ensures Path(inp, p) && p[0] == s
    ensures !Known(inp, p[|p| - 1]) || p[|p| - 1] in active || Repeats(p)
    decreases inp.user.Keys - active
  {
    p := [s];
    if s !in active && s in inp.user {
      var t :| t in inp.user[s].symbols && Direct(inp, t, active + {s}).None?;
      var q := Culprit(inp, t, active + {s});
      p := [s] + q;
      forall i | 0 < i < |p| ensures Uses(inp, p[i - 1], p[i]) {
        if i > 1 { assert p[i - 1] == q[i - 2] && p[i] == q[i - 1]; }
      }
      assert p[|p| - 1] == q[|q| - 1];
      if Repeats(q) {
        var i, j :| 0 <= i < j < |q| && q[i] == q[j];
        assert p[i + 1] == p[j + 1];
      } else if p[|p| - 1] == s {
        assert p[0] == p[|p| - 1];
      }
    }
  }

  /** A symbol has no value iff it leads to an unknown symbol or into a cycle. */
  lemma ValueIff(inp: Inputs, s: string)
    ensures Direct(inp, s, {}).None? <==> Faulty(inp, s)
  {
    if Direct(inp, s, {}).None? {
      var p := Culprit(inp, s, {});
      assert Path(inp, p) && p[0] == s;
    } else if Faulty(inp, s) {
      var p :| Path(inp, p) && p[0] == s && (!Known(inp, p[|p| - 1]) || Repeats(p));
      if Repeats(p) {
        var i, j :| 0 <= i < j < |p| && p[i] == p[j];
        assert p[j] in Elements(p[..j]) by { assert p[..j][i] == p[j]; }
        AlongPath(inp, p, j);
      } else {
        AlongPath(inp, p, |p| - 1);
      }
    }
  }

  /** A call from outside, with no symbol under evaluation, succeeds iff no symbol of the expression is faulty. */
  lemma AllIff(inp: Inputs, symbols: set<string>)
    ensures AllDirect(inp, symbols, {}) <==> forall s :: s in symbols ==> !Faulty(inp, s)
  {
    forall s ensures Direct(inp, s, {}).None? <==> Faulty(inp, s) { ValueIff(inp, s); }
  }

  // ---------------------------------------------------------------- the cache

  /** Cached values are direct values, and a cached constant's user constants are cached as well. */
  ghost predicate Sound(inp: Inputs, cache: map<string, real>) {
    forall s :: s in cache ==> CachedWell(inp, cache, s)
  }

  ghost predicate CachedWell(inp: Inputs, cache: map<string, real>, s: string)
    requires s in cache
  {
    s in inp.user && Direct(inp, s, {}) == Some(cache[s]) && forall t :: t in inp.user[s].symbols && t in inp.user ==> t in cache
  }

  /** A cached constant has its value whatever is being evaluated. */
  lemma CachedAnywhere(inp: Inputs, cache: map<string, real>, s: string, active: set<string>)
    requires Sound(inp, cache) && s in cache && cache.Keys !! active && active <= inp.user.Keys
    ensures Direct(inp, s, active) == Some(cache[s])
  {
    assert CachedWell(inp, cache, s);
    CachedSome(inp, cache, s, {}, active);
    Independent(inp, s, {}, active + {});
    assert active + {} == active;
  }

  lemma {:induction false} CachedSome(inp: Inputs, cache: map<string, real>, s: string, seen: set<string>, active: set<string>)
    requires Sound(inp, cache) && cache.Keys !! active && active <= inp.user.Keys
    requires s in cache || s !in inp.user
    requires Direct(inp, s, seen).Some?
    ensures Direct(inp, s, active + seen).Some?
    decreases inp.user.Keys - seen
  {
    if s in inp.user {
      assert CachedWell(inp, cache, s);
      forall t | t in inp.user[s].symbols ensures Direct(inp, t, active + seen + {s}).Some? {
        Regroup(active, seen, s);
        CachedSome(inp, cache, t, seen + {s}, active);
      }
    }
  }

  lemma Regroup(a: set<string>, b: set<string>, s: string)
    ensures a + b + {s} == a + (b + {s})
  {
  }

  lemma CacheOne(inp: Inputs, cache: map<string, real>, s: string, v: real)
    requires Sound(inp, cache) && s in inp.user && Direct(inp, s, {}) == Some(v)
    requires forall t :: t in inp.user[s].symbols && t in inp.user ==> t in cache
    ensures Sound(inp, cache[s := v])
  {
    forall t | t in cache.Keys + {s} ensures CachedWell(inp, cache[s := v], t) {
      if t != s { assert CachedWell(inp, cache, t); }
    }
  }

  /** What initParser has bound: exactly the given symbols, to their direct values. */
  ghost predicate Binds(inp: Inputs, symbols: set<string>, active: set<string>, bound: map<string, real>) {
    bound.Keys == symbols && forall t :: t in symbols ==> Direct(inp, t, active) == Some(bound[t]) == Direct(inp, t, {})
  }

  ghost predicate Extends(old_: map<string, real>, new_: map<string, real>) {
    forall s :: s in old_ ==> s in new_ && new_[s] == old_[s]
  }

  /** The user constants among the symbols are cached. */
  ghost predicate Cached(inp: Inputs, symbols: set<string>, cache: map<string, real>) {
    forall t :: t in symbols && t in inp.user ==> t in cache
  }

  lemma BindOne(inp: Inputs, symbols: set<string>, active: set<string>, bound: map<string, real>, s: string, v: real)
    requires Binds(inp, symbols, active, bound) && Direct(inp, s, active) == Some(v) == Direct(inp, s, {})
    ensures Binds(inp, symbols + {s}, active, bound[s := v])
  {
  }

  /** What FillWithParser returns for a user constant, from inside its own evaluation, is the constant's value. */
  lemma UserValue(inp: Inputs, s: string, active: set<string>, v: Option<real>)
    requires s in inp.user && s !in active && (v.Some? <==> AllDirect(inp, inp.user[s].symbols, active + {s}))
    requires v.Some? ==> Evaluates(inp, inp.user[s], v.value)
    ensures v == Direct(inp, s, active) && (v.Some? ==> v == Direct(inp, s, {}))
  {
    if v.Some? {
      forall t | t in inp.user[s].symbols ensures Direct(inp, t, {}) == Direct(inp, t, active + {s}) {
        Independent(inp, t, {}, active + {s});
      }
      assert Bound(inp, inp.user[s].symbols, {}) == Bound(inp, inp.user[s].symbols, active + {s});
      Independent(inp, s, {}, active);
    }
  }

  /** The value of an expression without variables. */
  ghost predicate Evaluates(inp: Inputs, e: Expression, v: real) {
    AllDirect(inp, e.symbols, {}) && v == e.value(Bound(inp, e.symbols, {}))
  }

  /** The evaluator's state: the cache and the symbols under evaluation. None as a result stands for the abort. */
  class Constants {
    const inp: Inputs
    var cache: map<string, real>
    var recursive: set<string>

    constructor (inp: Inputs)
      ensures this.inp == inp && cache == map[] && recursive == {} && Valid()
    {
      this.inp, cache, recursive := inp, map[], {};
    }

    ghost predicate Valid()
      reads this
    {
      Sound(inp, cache) && cache.Keys !! recursive && recursive <= inp.user.Keys
    }

    /** The loop over the symbols, in any order. It aborts iff some symbol has no value; otherwise every symbol that is not
        a variable is bound to its direct value and the set of symbols under evaluation is as before. */
    method InitParser(e: Expression, varnames: set<string>) returns (r: Option<map<string, real>>)
      requires Valid()
      modifies this
      ensures r.Some? <==> AllDirect(inp, e.symbols - varnames, old(recursive))
      ensures r.Some? ==> Valid() && recursive == old(recursive)
      ensures r.Some? ==> Binds(inp, e.symbols - varnames, recursive, r.value)
      ensures r.Some? ==> forall t :: t in e.symbols - varnames && t !in inp.user ==> t in inp.builtin && r.value[t] == inp.builtin[t]
      ensures r.Some? ==> Extends(old(cache), cache) && Cached(inp, e.symbols - varnames, cache)
      decreases inp.user.Keys - recursive, 1
    {
      var symbols := e.symbols - varnames;
      var bound, done, todo := map[], {}, symbols;
      while todo != {}
        invariant done + todo == symbols && done !! todo
        invariant Valid() && recursive == old(recursive) && Extends(old(cache), cache)
        invariant Binds(inp, done, recursive, bound) && Cached(inp, done, cache)
        decreases todo
      {
        var s :| s in todo;
        var v := Constant(s);
        if v.None? { return None; }
        BindOne(inp, done, recursive, bound, s, v.value);
        bound, done, todo := bound[s := v.value], done + {s}, todo - {s};
      }
      assert done == symbols;
      forall t | t in symbols && t !in inp.user ensures t in inp.builtin && bound[t] == inp.builtin[t] {
        assert Direct(inp, t, recursive) == Some(bound[t]);
      }
      r := Some(bound);
    }

    /** One turn of the loop: the value of one symbol. */
    method Constant(s: string) returns (r: Option<real>)
      requires Valid()
      modifies this
      ensures r == Direct(inp, s, old(recursive))
      ensures s !in inp.user && s !in old(recursive) ==> r == if s in inp.builtin then Some(inp.builtin[s]) else None
      ensures r.Some? ==> r == Direct(inp, s, {}) && Valid() && recursive == old(recursive)
      ensures r.Some? ==> Extends(old(cache), cache) && Cached(inp, {s}, cache)
      decreases inp.user.Keys - recursive, 0
    {
      if s in recursive { return None; }
      if s in cache {
        CachedAnywhere(inp, cache, s, recursive);
        assert CachedWell(inp, cache, s);
        return Some(cache[s]);
      }
      if s in inp.user {
        ghost var before := recursive;
        recursive := recursive + {s};
        var v := FillWithParser(inp.user[s]);
        UserValue(inp, s, before, v);
        if v.None? { return None; }
        recursive := recursive - {s};
        assert recursive == before;
        CacheOne(inp, cache, s, v.value);
        cache := cache[s := v.value];
        return v;
      }
      if s in inp.builtin { return Some(inp.builtin[s]); }
      return None;
    }

    /** The value of an expression without variables. */
    method FillWithParser(e: Expression) returns (r: Option<real>)
      requires Valid()
      modifies this
      ensures r.Some? <==> AllDirect(inp, e.symbols, old(recursive))
      ensures r.Some? ==> Evaluates(inp, e, r.value)
      ensures r.Some? ==> Valid() && recursive == old(recursive)
      ensures r.Some? ==> Extends(old(cache), cache) && Cached(inp, e.symbols, cache)
      decreases inp.user.Keys - recursive, 2
    {
      var bound := InitParser(e, {});
      assert e.symbols - {} == e.symbols;
      if bound.None? { return None; }
      assert bound.value == Bound(inp, e.symbols, {});
      r := Some(e.value(bound.value));
    }
  }

  // ---------------------------------------------------------------- integers

  const INT_MAX := 2147483647
  const INT_MIN := -2147483648

  /** Nearest integer, halves away from zero. */
  function Round(x: real): int { if x >= 0.0 then (x + 0.5).Floor else -((-x + 0.5).Floor) }

  function Ceil(x: real): int { -((-x).Floor) }

  /** The conversion succeeds iff the truncated value fits in a 32-bit int. */
  method SafeCastToInt(x: real) returns (r: Option<int>)
    ensures r.Some? <==> INT_MIN <= Trunc(x) <= INT_MAX
    ensures r.Some? ==> r.value == Trunc(x)
    ensures r.Some? ==> if x >= 0.0 then 0.0 <= r.value as real <= x < r.value as real + 1.0
                        else r.value as real - 1.0 < x <= r.value as real <= 0.0
  {
    TruncIs(x);
    r := None;
    if x < 2.0 * (INT_MAX / 2 + 1) as real {
      if Ceil(x) >= INT_MIN { r := Some(Trunc(x)); }
    }
  }

  lemma RoundNear(v: real)
    ensures Round(v) as real - 0.5 <= v <= Round(v) as real + 0.5
  {
  }

  lemma TruncOfInt(i: int, x: real)
    requires x == i as real
    ensures Trunc(x) == i
  {
  }

  /** What the int version of fillWithParser makes of a value: the nearest integer, or an error if that does not fit. */
  method CastRounded(v: real) returns (r: Option<int>)
    ensures r.Some? <==> INT_MIN <= Round(v) <= INT_MAX
    ensures r.Some? ==> r.value as real - 0.5 <= v <= r.value as real + 0.5
  {
    RoundNear(v);
    var i := Round(v);
    var x := i as real;
    TruncOfInt(i, x);
    r := SafeCastToInt(x);
  }
}
