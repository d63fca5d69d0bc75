/** Vocabulary shared by every protocol: optional values, results, sums over sets and id order. */
module Prelude {
  datatype Option<+T> = None | Some(value: T)

  datatype Result<+T, +E> = Ok(value: T) | Err(error: E)

  /** A UUID. Only equality and PostgreSQL's id order matter, so a natural number stands for it. */
  type Id = nat

  function GetOr<K, V>(m: map<K, V>, k: K, default: V): V {
    if k in m then m[k] else default
  }

  function Restrict<K, V>(m: map<K, V>, keys: set<K>): map<K, V> {
    map k | k in m && k in keys :: m[k]
  }

  lemma MergeNothing<K, V>(m: map<K, V>)
    ensures m + map[] == m
  {
  }

  lemma MergesTo<K, V>(m: map<K, V>, n: map<K, V>, merged: map<K, V>)
    requires n.Keys <= m.Keys && merged.Keys == m.Keys
    requires forall k :: k in m ==> merged[k] == if k in n then n[k] else m[k]
    ensures m + n == merged
  {
  }

  lemma OverwriteTwice<K, V>(m: map<K, V>, k: K, v: V, w: V)
    ensures m[k := v][k := w] == m[k := w]
  {
  }

  lemma NextPrefix<T>(q: seq<T>, i: nat)
    requires i < |q|
    ensures q[..i + 1] == q[..i] + [q[i]]
  {
  }

  // ---- Sums over a finite set -------------------------------------------------------------------

  ghost function SumOver<T(!new)>(s: set<T>, f: T -> int): int {
    if s == {} then 0 else
      var x :| x in s;
      f(x) + SumOver(s - {x}, f)
  }

  lemma {:induction false} SumOverPick<T(!new)>(s: set<T>, x: T, f: T -> int)
    requires x in s
    ensures SumOver(s, f) == f(x) + SumOver(s - {x}, f)
  {
    var y :| y in s && SumOver(s, f) == f(y) + SumOver(s - {y}, f);
    if y != x {
      SumOverPick(s - {y}, x, f);
      SumOverPick(s - {x}, y, f);
      assert s - {y} - {x} == s - {x} - {y};
    }
  }

  lemma {:induction false} SumOverAgree<T(!new)>(s: set<T>, f: T -> int, g: T -> int)
    requires forall x :: x in s ==> f(x) == g(x)
    ensures SumOver(s, f) == SumOver(s, g)
  {
    if s != {} {
      var x :| x in s;
      SumOverPick(s, x, f);
      SumOverPick(s, x, g);
      SumOverAgree(s - {x}, f, g);
    }
  }

  lemma {:induction false} SumOverPlus<T(!new)>(s: set<T>, f: T -> int, g: T -> int, h: T -> int)
    requires forall x :: x in s ==> h(x) == f(x) + g(x)
    ensures SumOver(s, h) == SumOver(s, f) + SumOver(s, g)
  {
    if s != {} {
      var x :| x in s;
      SumOverPick(s, x, f);
      SumOverPick(s, x, g);
      SumOverPick(s, x, h);
      SumOverPlus(s - {x}, f, g, h);
    }
  }

  lemma {:induction false} SumOverZero<T(!new)>(s: set<T>, f: T -> int)
    requires forall x :: x in s ==> f(x) == 0
    ensures SumOver(s, f) == 0
  {
    if s != {} {
      var x :| x in s;
      SumOverPick(s, x, f);
      SumOverZero(s - {x}, f);
    }
  }

  // ---- ORDER BY id ------------------------------------------------------------------------------

  lemma {:induction false} FindLeast(s: set<Id>) returns (m: Id)
    requires s != {}
    ensures m in s && forall x :: x in s ==> m <= x
  {
    m :| m in s;
    var rest := s - {m};
    assert forall x :: x in s ==> x == m || x in rest;
    if rest != {} {
      var least := FindLeast(rest);
      m := if m < least then m else least;
    }
  }

  lemma {:induction false} LeastExists(s: set<Id>)
    requires s != {}
    ensures exists m :: m in s && forall x :: x in s ==> m <= x
  {
    var m := FindLeast(s);
  }

  function Least(s: set<Id>): (m: Id)
    requires s != {}
    ensures m in s && forall x :: x in s ==> m <= x
  {
    LeastExists(s);
    var m :| m in s && forall x :: x in s ==> m <= x;
    m
  }

  function Elements(q: seq<Id>): set<Id> { set x | x in q }

  ghost predicate Increasing(q: seq<Id>) {
    forall i, j :: 0 <= i < j < |q| ==> q[i] < q[j]
  }

  /** Walking through ids in increasing order never meets one twice. */
  lemma {:induction false} NextId(q: seq<Id>, i: nat)
    requires Increasing(q) && i < |q|
    ensures q[i] !in Elements(q[..i]) && Elements(q[..i + 1]) == Elements(q[..i]) + {q[i]}
    ensures q[..i + 1] == q[..i] + [q[i]]
  {
  }

  ghost predicate Distinct(q: seq<Id>) {
    forall i, j :: 0 <= i < j < |q| ==> q[i] != q[j]
  }

  /** The ids of `s` as `ORDER BY id` returns them. */
  function Sorted(s: set<Id>): (q: seq<Id>)
    ensures |q| == |s| && Increasing(q)
    ensures forall x :: x in q <==> x in s
  {
    if s == {} then [] else
      var m := Least(s);
      [m] + Sorted(s - {m})
  }

  // ---- Repetition -------------------------------------------------------------------------------

  function Iterate<S>(step: S -> S, s: S, n: nat): S {
    if n == 0 then s else step(Iterate(step, s, n - 1))
  }

  lemma {:induction false} IterateKeeps<S(!new)>(step: S -> S, s: S, n: nat, kept: S -> bool)
    requires kept(s) && forall x {:trigger step(x)} :: kept(x) ==> kept(step(x))
    ensures kept(Iterate(step, s, n))
  {
    if n > 0 {
      IterateKeeps(step, s, n - 1, kept);
    }
  }

  lemma Multiples(batch: nat, n: nat)
    requires n > 0
    ensures batch * n == batch * (n - 1) + batch
  {
  }

  /** A step that takes `batch` off a backlog, or all that is left of it. */
  lemma {:induction false} IterateShrinks<S(!new)>(step: S -> S, s: S, n: nat, kept: S -> bool, size: S -> nat,
      batch: nat)
    requires kept(s) && forall x {:trigger step(x)} :: kept(x) ==> kept(step(x))
    requires forall x {:trigger step(x)} :: kept(x) ==> size(step(x)) == if size(x) < batch then 0 else size(x) - batch
    ensures size(Iterate(step, s, n)) == if size(s) < batch * n then 0 else size(s) - batch * n
  {
    if n > 0 {
      var before := Iterate(step, s, n - 1);
      IterateKeeps(step, s, n - 1, kept);
      IterateShrinks(step, s, n - 1, kept, size, batch);
      Multiples(batch, n);
      assert size(step(before)) == if size(before) < batch then 0 else size(before) - batch;
    }
  }
}
