/** Parent links as a partial map: paths from a root, what lies below a path, and cycles. */
module Forest {

  /** A path starts at an item without a parent and descends one link at a time. */
  ghost predicate IsPath<T>(parent: map<T, T>, p: seq<T>) {
    |p| > 0 && p[0] !in parent &&
    forall i :: 0 < i < |p| ==> p[i] in parent && parent[p[i]] == p[i - 1]
  }

  ghost predicate PathTo<T>(parent: map<T, T>, p: seq<T>, m: T) {
    IsPath(parent, p) && p[|p| - 1] == m
  }

  /** The ancestor chain of `m` ends. */
  ghost predicate Rooted<T(!new)>(parent: map<T, T>, m: T) {
    exists p :: PathTo(parent, p, m)
  }

  /** `m` is the end of `top` or one of its descendants. */
  ghost predicate Below<T(!new)>(parent: map<T, T>, top: seq<T>, m: T) {
    exists p :: PathTo(parent, p, m) && top <= p
  }

  lemma {:induction false} PathUnique<T(!new)>(parent: map<T, T>, p: seq<T>, q: seq<T>, m: T)
    requires PathTo(parent, p, m) && PathTo(parent, q, m)
    ensures p == q
    decreases |p|
  {
    if |p| > 1 && |q| > 1 {
      var p', q' := p[..|p| - 1], q[..|q| - 1];
      PathUnique(parent, p', q', p[|p| - 2]);
      assert p == p' + [m] && q == q' + [m];
    }
  }

  lemma PathPrefix<T(!new)>(parent: map<T, T>, p: seq<T>, n: nat)
    requires IsPath(parent, p) && 0 < n <= |p|
    ensures PathTo(parent, p[..n], p[n - 1])
  {
  }

  lemma PathExtend<T(!new)>(parent: map<T, T>, p: seq<T>, c: T)
    requires IsPath(parent, p) && c in parent && parent[c] == p[|p| - 1]
    ensures PathTo(parent, p + [c], c)
  {
  }

  /** A path meets no item twice, whatever the links are. */
  lemma PathDistinct<T(!new)>(parent: map<T, T>, p: seq<T>)
    requires IsPath(parent, p)
    ensures forall i, j :: 0 <= i < j < |p| ==> p[i] != p[j]
  {
    forall i, j | 0 <= i < j < |p| ensures p[i] != p[j] {
      var a, b := p[..i + 1], p[..j + 1];
      assert |a| < |b|;
      PathPrefix(parent, p, i + 1);
      PathPrefix(parent, p, j + 1);
      if p[i] == p[j] { PathUnique(parent, a, b, p[i]); }
    }
  }

  lemma {:induction false} DistinctBound<T(!new)>(s: seq<T>, all: set<T>)
    requires forall i, j :: 0 <= i < j < |s| ==> s[i] != s[j]
    requires forall i :: 0 <= i < |s| ==> s[i] in all
    ensures |s| <= |all|
    decreases |s|
  {
    if s != [] {
      var last := s[|s| - 1];
      DistinctBound(s[..|s| - 1], all - {last});
    }
  }

  /** Paths are no longer than there are items: the descent from the roots ends. */
  lemma PathBound<T(!new)>(parent: map<T, T>, p: seq<T>, all: set<T>)
    requires IsPath(parent, p) && forall i :: 0 <= i < |p| ==> p[i] in all
    ensures |p| <= |all|
  {
    PathDistinct(parent, p);
    DistinctBound(p, all);
  }

  /** What is below a path is its end or below exactly one of the end's children. */
  lemma BelowSplit<T(!new)>(parent: map<T, T>, top: seq<T>, m: T)
    requires IsPath(parent, top)
    ensures Below(parent, top, m) <==>
            m == top[|top| - 1] || exists c :: c in parent && parent[c] == top[|top| - 1] && Below(parent, top + [c], m)
  {
    if m == top[|top| - 1] {
      assert PathTo(parent, top, m) && top <= top;
    }
    if Below(parent, top, m) && m != top[|top| - 1] {
      var p :| PathTo(parent, p, m) && top <= p;
      var c := p[|top|];
      assert p[|top| - 1] == top[|top| - 1];
      assert top + [c] <= p;
      assert Below(parent, top + [c], m);
    }
    forall c | c in parent && parent[c] == top[|top| - 1] && Below(parent, top + [c], m)
      ensures Below(parent, top, m)
    {
      var p :| PathTo(parent, p, m) && top + [c] <= p;
      assert top <= p;
    }
  }

  lemma BelowApart<T(!new)>(parent: map<T, T>, top: seq<T>, c: T, d: T, m: T)
    requires Below(parent, top + [c], m) && Below(parent, top + [d], m)
    ensures c == d
  {
    var p :| PathTo(parent, p, m) && top + [c] <= p;
    var q :| PathTo(parent, q, m) && top + [d] <= q;
    PathUnique(parent, p, q, m);
    assert (top + [c])[|top|] == p[|top|] == (top + [d])[|top|];
  }

  lemma BelowIsProper<T(!new)>(parent: map<T, T>, top: seq<T>, c: T)
    requires IsPath(parent, top)
    ensures !Below(parent, top + [c], top[|top| - 1])
  {
    if Below(parent, top + [c], top[|top| - 1]) {
      var p :| PathTo(parent, p, top[|top| - 1]) && top + [c] <= p;
      PathUnique(parent, p, top, top[|top| - 1]);
    }
  }

  // ------------------------------------------------------------- cycles

  ghost predicate UpChain<T>(parent: map<T, T>, q: seq<T>) {
    |q| > 0 && forall i :: 0 <= i < |q| - 1 ==> q[i] in parent && parent[q[i]] == q[i + 1]
  }

  ghost predicate Leads<T>(parent: map<T, T>, q: seq<T>, a: T, b: T) {
    UpChain(parent, q) && q[0] == a && q[|q| - 1] == b
  }

  ghost predicate OnCycle<T(!new)>(parent: map<T, T>, a: T) {
    exists q :: Leads(parent, q, a, a) && |q| >= 2
  }

  lemma {:induction false} ClimbPath<T(!new)>(parent: map<T, T>, p: seq<T>, q: seq<T>)
    requires IsPath(parent, p) && UpChain(parent, q) && p[|p| - 1] == q[0]
    ensures |q| <= |p| && PathTo(parent, p[..|p| - |q| + 1], q[|q| - 1])
    decreases |q|
  {
    if |q| == 1 {
      assert p[..|p|] == p;
    } else {
      var p', q' := p[..|p| - 1], q[1..];
      forall i | 0 <= i < |q'| - 1 ensures q'[i] in parent && parent[q'[i]] == q'[i + 1] {
        assert q'[i] == q[i + 1];
      }
      ClimbPath(parent, p', q');
      assert p'[..|p'| - |q'| + 1] == p[..|p| - |q| + 1];
    }
  }

  lemma {:induction false} ClimbOrRoot<T(!new)>(parent: map<T, T>, m: T, n: nat)
    ensures Rooted(parent, m) || exists q :: UpChain(parent, q) && q[0] == m && |q| == n + 1
  {
    if n == 0 {
      assert UpChain(parent, [m]);
    } else if m !in parent {
      assert PathTo(parent, [m], m);
    } else {
      ClimbOrRoot(parent, parent[m], n - 1);
      if Rooted(parent, parent[m]) {
        var p :| PathTo(parent, p, parent[m]);
        PathExtend(parent, p, m);
      } else {
        var q :| UpChain(parent, q) && q[0] == parent[m] && |q| == n;
        var q' := [m] + q;
        forall i | 0 <= i < |q'| - 1 ensures q'[i] in parent && parent[q'[i]] == q'[i + 1] {
          if i > 0 { assert q'[i] == q[i - 1] && q'[i + 1] == q[i]; }
        }
        assert UpChain(parent, q');
      }
    }
  }

  /** An item has no path from a root exactly when its ancestor chain runs into a cycle. */
  lemma UnrootedIffCycleAbove<T(!new)>(parent: map<T, T>, m: T)
    ensures !Rooted(parent, m) <==> exists q :: UpChain(parent, q) && q[0] == m && OnCycle(parent, q[|q| - 1])
  {
    if !Rooted(parent, m) {
      var n := |parent.Keys| + 1;
      ClimbOrRoot(parent, m, n);
      var q :| UpChain(parent, q) && q[0] == m && |q| == n + 1;
      var body := q[..n];
      if forall i, j :: 0 <= i < j < |body| ==> body[i] != body[j] {
        DistinctBound(body, parent.Keys);
      }
      var i, j :| 0 <= i < j < |body| && body[i] == body[j];
      var loop := q[i..j + 1];
      assert Leads(parent, loop, q[i], q[i]) && |loop| >= 2;
      assert UpChain(parent, q[..i + 1]) && q[..i + 1][0] == m && OnCycle(parent, q[..i + 1][i]);
    }
    forall q | UpChain(parent, q) && q[0] == m && OnCycle(parent, q[|q| - 1]) && Rooted(parent, m)
      ensures false
    {
      var p :| PathTo(parent, p, m);
      ClimbPath(parent, p, q);
      var a := q[|q| - 1];
      var top := p[..|p| - |q| + 1];
      var loop :| Leads(parent, loop, a, a) && |loop| >= 2;
      ClimbPath(parent, top, loop);
      PathUnique(parent, top, top[..|top| - |loop| + 1], a);
    }
  }
}
