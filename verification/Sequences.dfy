/** Sequences built element by element, from the front to the back as loops build them. */
module Sequences {

  function Map<A, B>(s: seq<A>, f: A -> B): (r: seq<B>)
    ensures |r| == |s|
    ensures forall i :: 0 <= i < |s| ==> r[i] == f(s[i])
  {
    if s == [] then [] else Map(s[..|s| - 1], f) + [f(s[|s| - 1])]
  }

  lemma MapNext<A, B>(s: seq<A>, n: nat, f: A -> B)
    requires n < |s|
    ensures Map(s[..n + 1], f) == Map(s[..n], f) + [f(s[n])]
  {
    assert s[..n + 1][..n] == s[..n];
  }

  lemma MapConcat<A, B>(a: seq<A>, b: seq<A>, f: A -> B)
    ensures Map(a + b, f) == Map(a, f) + Map(b, f)
  {
  }

  function FlatMap<A, B>(s: seq<A>, f: A -> seq<B>): seq<B> {
    if s == [] then [] else FlatMap(s[..|s| - 1], f) + f(s[|s| - 1])
  }

  lemma FlatMapNext<A, B>(s: seq<A>, n: nat, f: A -> seq<B>)
    requires n < |s|
    ensures FlatMap(s[..n + 1], f) == FlatMap(s[..n], f) + f(s[n])
  {
    assert s[..n + 1][..n] == s[..n];
  }

  lemma {:induction false} FlatMapConcat<A, B>(a: seq<A>, b: seq<A>, f: A -> seq<B>)
    ensures FlatMap(a + b, f) == FlatMap(a, f) + FlatMap(b, f)
  {
    if b == [] {
      assert a + b == a;
    } else {
      FlatMapConcat(a, b[..|b| - 1], f);
      assert (a + b)[..|a + b| - 1] == a + b[..|b| - 1];
    }
  }

  /** Filtering the parts filters the whole. */
  lemma {:induction false} FlatMapTwice<A, B, C>(s: seq<A>, f: A -> seq<B>, g: B -> seq<C>, h: A -> seq<C>)
    requires forall x :: x in s ==> h(x) == FlatMap(f(x), g)
    ensures FlatMap(s, h) == FlatMap(FlatMap(s, f), g)
  {
    if s != [] {
      var init := s[..|s| - 1];
      FlatMapTwice(init, f, g, h);
      FlatMapConcat(FlatMap(init, f), f(s[|s| - 1]), g);
    }
  }

  /** The first place of an element. */
  function Position<A(==)>(s: seq<A>, x: A): (i: nat)
    requires x in s
    ensures i < |s| && s[i] == x && x !in s[..i]
  {
    if s[0] == x then 0
    else
      assert x in s[1..];
      var i := Position(s[1..], x);
      assert s[..i + 1] == [s[0]] + s[1..][..i];
      i + 1
  }

  // ------------------------------------------------------------- lists without repetition

  predicate Distinct<A(==)>(s: seq<A>) { forall i, j :: 0 <= i < j < |s| ==> s[i] != s[j] }

  lemma {:induction false} DistinctSize<A(!new)>(s: seq<A>, members: set<A>)
    requires Distinct(s) && forall k :: k in s <==> k in members
    ensures |s| == |members|
  {
    if s == [] {
      assert members == {};
    } else {
      var init, last := s[..|s| - 1], s[|s| - 1];
      assert s == init + [last];
      DistinctSize(init, members - {last});
    }
  }

  lemma TwiceInBag<A>(s: seq<A>, i: nat, j: nat)
    requires i < j < |s| && s[i] == s[j]
    ensures multiset(s)[s[i]] >= 2
  {
    assert s == s[..i] + [s[i]] + s[i + 1..j] + [s[j]] + s[j + 1..];
  }

  lemma {:induction false} OnceInBag<A>(s: seq<A>, k: A)
    requires Distinct(s)
    ensures multiset(s)[k] <= 1
  {
    if s != [] {
      var init, last := s[..|s| - 1], s[|s| - 1];
      assert s == init + [last];
      OnceInBag(init, k);
      if k == last { assert k !in init; }
    }
  }

  /** A permutation of a list without repetition has none either. */
  lemma BagsOfDistinct<A(!new)>(a: seq<A>, b: seq<A>)
    requires multiset(a) == multiset(b) && Distinct(a)
    ensures Distinct(b) && |a| == |b| && forall k :: k in a <==> k in b
  {
    assert |a| == |multiset(a)| == |multiset(b)| == |b|;
    forall k ensures k in a <==> k in b { assert k in multiset(a) <==> k in multiset(b); }
    forall i, j | 0 <= i < j < |b| ensures b[i] != b[j] {
      OnceInBag(a, b[i]);
      if b[i] == b[j] { TwiceInBag(b, i, j); }
    }
  }

  // ------------------------------------------------------------- permutations

  function Remove<A>(s: seq<A>, i: nat): seq<A>
    requires i < |s|
  {
    s[..i] + s[i + 1..]
  }

  lemma RemoveBag<A>(s: seq<A>, i: nat)
    requires i < |s|
    ensures multiset(s) == multiset(Remove(s, i)) + multiset{s[i]}
  {
    assert s == s[..i] + [s[i]] + s[i + 1..];
  }

  lemma RemoveBeforeLast<A>(s: seq<A>, i: nat)
    requires i + 1 < |s|
    ensures Remove(s, i) == Remove(s[..|s| - 1], i) + [s[|s| - 1]]
  {
  }

  lemma MapAppend<A, B>(s: seq<A>, x: A, f: A -> B)
    ensures multiset(Map(s + [x], f)) == multiset(Map(s, f)) + multiset{f(x)}
  {
    assert (s + [x])[..|s|] == s;
  }

  lemma {:induction false} MapRemoveBag<A, B>(s: seq<A>, i: nat, f: A -> B)
    requires i < |s|
    ensures multiset(Map(s, f)) == multiset(Map(Remove(s, i), f)) + multiset{f(s[i])}
    decreases |s|
  {
    var init, last := s[..|s| - 1], s[|s| - 1];
    assert s == init + [last];
    MapAppend(init, last, f);
    if i == |s| - 1 {
      assert Remove(s, i) == init;
    } else {
      MapRemoveBag(init, i, f);
      RemoveBeforeLast(s, i);
      MapAppend(Remove(init, i), last, f);
    }
  }

  /** A permutation of the elements is a permutation of their images. */
  lemma {:induction false} MapBag<A, B>(a: seq<A>, b: seq<A>, f: A -> B)
    requires multiset(a) == multiset(b)
    ensures multiset(Map(a, f)) == multiset(Map(b, f))
    decreases |a|
  {
    if a == [] {
      assert |multiset(b)| == 0;
    } else {
      var i := FindInBag(a, b);
      RemoveBag(a, 0);
      RemoveBag(b, i);
      SameBagTail(multiset(Remove(a, 0)), multiset(Remove(b, i)), a[0]);
      MapBag(Remove(a, 0), Remove(b, i), f);
      MapRemoveBag(a, 0, f);
      MapRemoveBag(b, i, f);
    }
  }

  lemma FindInBag<A>(a: seq<A>, b: seq<A>) returns (i: nat)
    requires a != [] && multiset(a) == multiset(b)
    ensures i < |b| && b[i] == a[0]
  {
    assert a[0] in multiset(b);
    i :| 0 <= i < |b| && b[i] == a[0];
  }

  ghost predicate Ordered<A>(s: seq<A>, le: (A, A) -> bool) {
    forall i, j :: 0 <= i < j < |s| ==> le(s[i], s[j])
  }

  lemma FirstIsLeast<A>(a: seq<A>, b: seq<A>, le: (A, A) -> bool)
    requires a != [] && multiset(a) == multiset(b) && Ordered(b, le)
    ensures b != [] && (a[0] == b[0] || le(b[0], a[0]))
  {
    var i := FindInBag(a, b);
  }

  lemma OrderedTail<A>(s: seq<A>, le: (A, A) -> bool)
    requires s != [] && Ordered(s, le)
    ensures Ordered(s[1..], le) && multiset(s) == multiset(s[1..]) + multiset{s[0]}
  {
    assert s == [s[0]] + s[1..];
  }

  /** An order in which no two different elements tie leaves one way only to sort. */
  lemma {:induction false} OrderedBagsEqual<A(!new)>(a: seq<A>, b: seq<A>, le: (A, A) -> bool)
    requires forall x, y :: le(x, y) && le(y, x) ==> x == y
    requires Ordered(a, le) && Ordered(b, le) && multiset(a) == multiset(b)
    ensures a == b
  {
    if a == [] {
      assert |multiset(b)| == 0;
    } else {
      FirstIsLeast(a, b, le);
      FirstIsLeast(b, a, le);
      OrderedTail(a, le);
      OrderedTail(b, le);
      SameBagTail(multiset(a[1..]), multiset(b[1..]), a[0]);
      OrderedBagsEqual(a[1..], b[1..], le);
      assert a == [a[0]] + a[1..] && b == [b[0]] + b[1..];
    }
  }

  lemma SameBagTail<A>(x: multiset<A>, y: multiset<A>, e: A)
    requires x + multiset{e} == y + multiset{e}
    ensures x == y
  {
    assert x == x + multiset{e} - multiset{e};
    assert y == y + multiset{e} - multiset{e};
  }

  // ------------------------------------------------------------- stable sorting

  /** Places an element behind everything that is not greater. */
  function InsertBy<A>(s: seq<A>, x: A, le: (A, A) -> bool): seq<A> {
    if s == [] then [x]
    else if le(s[|s| - 1], x) then s + [x]
    else InsertBy(s[..|s| - 1], x, le) + [s[|s| - 1]]
  }

  /** A stable sort: equal elements keep their order. */
  function SortBy<A>(s: seq<A>, le: (A, A) -> bool): seq<A> {
    if s == [] then [] else InsertBy(SortBy(s[..|s| - 1], le), s[|s| - 1], le)
  }

  lemma {:induction false} InsertByBag<A>(s: seq<A>, x: A, le: (A, A) -> bool)
    ensures multiset(InsertBy(s, x, le)) == multiset(s) + multiset{x}
  {
    if s != [] && !le(s[|s| - 1], x) {
      InsertByBag(s[..|s| - 1], x, le);
      assert s == s[..|s| - 1] + [s[|s| - 1]];
    }
  }

  lemma LastBag<A>(s: seq<A>)
    requires s != []
    ensures multiset(s) == multiset(s[..|s| - 1]) + multiset{s[|s| - 1]}
  {
    assert s == s[..|s| - 1] + [s[|s| - 1]];
  }

  /** Sorting neither loses nor adds. */
  lemma {:induction false} SortByBag<A>(s: seq<A>, le: (A, A) -> bool)
    ensures multiset(SortBy(s, le)) == multiset(s)
  {
    if s != [] {
      var before, last := SortBy(s[..|s| - 1], le), s[|s| - 1];
      SortByBag(s[..|s| - 1], le);
      InsertByBag(before, last, le);
      LastBag(s);
    }
  }

  ghost predicate TotalOn<A(!new)>(s: set<A>, le: (A, A) -> bool) {
    && (forall x, y :: x in s && y in s ==> le(x, y) || le(y, x))
    && (forall x, y, z :: x in s && y in s && z in s && le(x, y) && le(y, z) ==> le(x, z))
  }

  ghost predicate Below<A(!new)>(s: seq<A>, x: A, le: (A, A) -> bool) { forall y :: y in s ==> le(y, x) }

  lemma OrderedAppend<A(!new)>(s: seq<A>, x: A, le: (A, A) -> bool)
    requires Ordered(s, le) && Below(s, x, le)
    ensures Ordered(s + [x], le)
  {
    forall i, j | 0 <= i < j < |s + [x]| ensures le((s + [x])[i], (s + [x])[j]) {
      if j == |s| { assert s[i] in s; }
    }
  }

  lemma OrderedInit<A(!new)>(s: seq<A>, le: (A, A) -> bool)
    requires s != [] && Ordered(s, le)
    ensures Ordered(s[..|s| - 1], le) && Below(s[..|s| - 1], s[|s| - 1], le)
  {
  }

  lemma {:induction false} InsertByOrdered<A(!new)>(s: seq<A>, x: A, le: (A, A) -> bool, all: set<A>)
    requires TotalOn(all, le) && x in all && (forall y :: y in s ==> y in all) && Ordered(s, le)
    ensures Ordered(InsertBy(s, x, le), le)
    ensures forall y :: y in InsertBy(s, x, le) ==> y in s || y == x
  {
    if s != [] {
      var init, last := s[..|s| - 1], s[|s| - 1];
      OrderedInit(s, le);
      assert last in all;
      if le(last, x) {
        forall y | y in s ensures le(y, x) {
          assert y in init || y == last;
          assert le(last, last);
        }
        OrderedAppend(s, x, le);
      } else {
        InsertByOrdered(init, x, le, all);
        assert Below(InsertBy(init, x, le), last, le);
        OrderedAppend(InsertBy(init, x, le), last, le);
      }
    }
  }

  /** On elements that the comparison orders totally the result is in order. */
  lemma {:induction false} SortByOrdered<A(!new)>(s: seq<A>, le: (A, A) -> bool, all: set<A>)
    requires TotalOn(all, le) && forall y :: y in s ==> y in all
    ensures Ordered(SortBy(s, le), le)
    ensures forall y :: y in SortBy(s, le) ==> y in all
  {
    if s != [] {
      var init := s[..|s| - 1];
      assert forall y :: y in init ==> y in s;
      SortByOrdered(init, le, all);
      InsertByOrdered(SortBy(init, le), s[|s| - 1], le, all);
      assert s[|s| - 1] in s;
    }
  }
}
