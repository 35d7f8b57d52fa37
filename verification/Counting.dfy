/** Facts about the sizes of finite sets that several parts of the model count with. */
module Counting {

  ghost predicate InjectiveOn<A(!new), B>(f: A -> B, s: set<A>) {
    forall a, b :: a in s && b in s && f(a) == f(b) ==> a == b
  }

  ghost function Image<A(!new), B>(f: A -> B, s: set<A>): set<B> { set a | a in s :: f(a) }

  lemma ImageWithout<A(!new), B>(f: A -> B, s: set<A>, x: A)
    requires x in s && InjectiveOn(f, s)
    ensures Image(f, s) == Image(f, s - {x}) + {f(x)} && f(x) !in Image(f, s - {x})
  {
  }

  /** A function that never merges two elements keeps the size of a set. */
  lemma {:induction false} ImageSize<A(!new), B>(f: A -> B, s: set<A>)
    requires InjectiveOn(f, s)
    ensures |Image(f, s)| == |s|
  {
    if s != {} {
      var x :| x in s;
      ImageWithout(f, s, x);
      ImageSize(f, s - {x});
    }
  }

  /** Otherwise it shrinks: two elements share an image. */
  lemma {:induction false} ImageShrinks<A(!new), B>(f: A -> B, s: set<A>)
    ensures |Image(f, s)| <= |s|
    ensures !InjectiveOn(f, s) ==> |Image(f, s)| < |s|
  {
    if s != {} {
      var x :| x in s && (InjectiveOn(f, s) || exists b :: b in s && b != x && f(b) == f(x));
      ImageShrinks(f, s - {x});
      if InjectiveOn(f, s) {
        ImageSize(f, s);
      } else {
        assert Image(f, s) == Image(f, s - {x});
      }
    }
  }

  lemma {:induction false} SubsetSize<A>(a: set<A>, b: set<A>)
    requires a <= b
    ensures |a| <= |b|
    ensures a != b ==> |a| < |b|
  {
    if a != {} {
      var x :| x in a;
      SubsetSize(a - {x}, b - {x});
    }
  }

  lemma {:induction false} Least(s: set<nat>) returns (m: nat)
    requires s != {}
    ensures m in s && forall k :: k in s ==> m <= k
  {
    m :| m in s;
    var rest := s - {m};
    assert forall k :: k in s ==> k == m || k in rest;
    if rest != {} {
      var y := Least(rest);
      if y < m { m := y; }
    }
  }

  // ------------------------------------------------------------- counter maps

  function Get<K>(m: map<K, nat>, k: K): nat { if k in m then m[k] else 0 }

  /** `*m.entry(k).or_insert(0) += n`. */
  function BumpBy<K>(m: map<K, nat>, k: K, n: nat): map<K, nat> { m[k := Get(m, k) + n] }

  function Bump<K>(m: map<K, nat>, k: K): map<K, nat> { BumpBy(m, k, 1) }

  /** The sum of all counters. */
  ghost function Total<K>(m: map<K, nat>): nat
    decreases |m|
  {
    if m == map[] then 0
    else
      var k :| k in m;
      m[k] + Total(m - {k})
  }

  lemma {:induction false} TotalAt<K>(m: map<K, nat>, k: K)
    requires k in m
    ensures Total(m) == m[k] + Total(m - {k})
    decreases |m|
  {
    var j :| j in m && Total(m) == m[j] + Total(m - {j});
    if j != k {
      TotalAt(m - {j}, k);
      TotalAt(m - {k}, j);
      assert m - {j} - {k} == m - {k} - {j};
    }
  }

  lemma TotalBumpBy<K>(m: map<K, nat>, k: K, n: nat)
    ensures Total(BumpBy(m, k, n)) == Total(m) + n
  {
    var b := BumpBy(m, k, n);
    TotalAt(b, k);
    assert b - {k} == m - {k};
    if k in m { TotalAt(m, k); } else { assert m - {k} == m; }
  }

  // ------------------------------------------------------------- counters that may fall below zero

  function GetInt<K>(m: map<K, int>, k: K): int { if k in m then m[k] else 0 }

  function Shift<K>(m: map<K, int>, k: K, n: int): map<K, int> { m[k := GetInt(m, k) + n] }

  ghost function Balance<K>(m: map<K, int>): int
    decreases |m|
  {
    if m == map[] then 0
    else
      var k :| k in m;
      m[k] + Balance(m - {k})
  }

  lemma {:induction false} BalanceAt<K>(m: map<K, int>, k: K)
    requires k in m
    ensures Balance(m) == m[k] + Balance(m - {k})
    decreases |m|
  {
    var j :| j in m && Balance(m) == m[j] + Balance(m - {j});
    if j != k {
      BalanceAt(m - {j}, k);
      BalanceAt(m - {k}, j);
      assert m - {j} - {k} == m - {k} - {j};
    }
  }

  lemma BalanceShift<K>(m: map<K, int>, k: K, n: int)
    ensures Balance(Shift(m, k, n)) == Balance(m) + n
  {
    var b := Shift(m, k, n);
    BalanceAt(b, k);
    assert b - {k} == m - {k};
    if k in m { BalanceAt(m, k); } else { assert m - {k} == m; }
  }
}
