/**
 The order in which detections are written and the duplicates that are left out.

 The list is sorted by six keys.  A record is then skipped when an earlier record
 of the same time carries the same output fields, the log file apart; the first
 record of a time is never remembered.
 */
module Duplicates {
  import opened Strings
  import opened Sequences
  import opened Counting

  datatype Profile = EvtxFile(path: string) | Other(kind: string, text: string)

  datatype Field = Field(name: string, profile: Profile)

  datatype Info = Info(time: int, level: nat, eventId: string, rulePath: string, computer: string, recId: string,
                       fields: seq<Field>)

  // ------------------------------------------------------------- the order

  /** The six keys: two numbers, then four texts. */
  datatype SortKey = SortKey(time: int, level: nat, texts: seq<string>)

  function KeyOf(d: Info): SortKey { SortKey(d.time, d.level, [d.eventId, d.rulePath, d.computer, d.recId]) }

  /** The first text that differs decides. */
  predicate LexLe(a: seq<string>, b: seq<string>) {
    a == [] || (b != [] && if a[0] == b[0] then LexLe(a[1..], b[1..]) else Le(a[0], b[0]))
  }

  predicate KeyLe(a: SortKey, b: SortKey) {
    if a.time != b.time then a.time < b.time
    else if a.level != b.level then a.level < b.level
    else LexLe(a.texts, b.texts)
  }

  lemma {:induction false} LexTotal(a: seq<string>, b: seq<string>)
    ensures LexLe(a, b) || LexLe(b, a)
  {
    if a != [] && b != [] {
      LeTotal(a[0], b[0]);
      LexTotal(a[1..], b[1..]);
    }
  }

  lemma {:induction false} LexTransitive(a: seq<string>, b: seq<string>, c: seq<string>)
    requires LexLe(a, b) && LexLe(b, c)
    ensures LexLe(a, c)
  {
    if a != [] {
      if a[0] == b[0] == c[0] {
        LexTransitive(a[1..], b[1..], c[1..]);
      } else if a[0] != b[0] && b[0] != c[0] {
        LeTransitive(a[0], b[0], c[0]);
        if a[0] == c[0] { LeAntisymmetric(a[0], b[0]); }
      }
    }
  }

  lemma {:induction false} LexAntisymmetric(a: seq<string>, b: seq<string>)
    requires LexLe(a, b) && LexLe(b, a)
    ensures a == b
  {
    if a != [] {
      if a[0] != b[0] { LeAntisymmetric(a[0], b[0]); }
      LexAntisymmetric(a[1..], b[1..]);
      assert a == [a[0]] + a[1..] && b == [b[0]] + b[1..];
    }
  }

  /** The comparison is a total order on the keys, as the sort demands. */
  lemma KeyOrder(a: SortKey, b: SortKey, c: SortKey)
    ensures KeyLe(a, b) || KeyLe(b, a)
    ensures KeyLe(a, b) && KeyLe(b, c) ==> KeyLe(a, c)
    ensures KeyLe(a, b) && KeyLe(b, a) ==> a == b
  {
    LexTotal(a.texts, b.texts);
    if LexLe(a.texts, b.texts) && LexLe(b.texts, c.texts) { LexTransitive(a.texts, b.texts, c.texts); }
    if LexLe(a.texts, b.texts) && LexLe(b.texts, a.texts) { LexAntisymmetric(a.texts, b.texts); }
  }

  /** Two texts in order, or the rest decides. */
  predicate ThenBy(a: string, b: string, rest: bool) { (a != b && Le(a, b)) || (a == b && rest) }

  /** Earlier times come first, then lower levels, then the lesser event id, rule file, computer and record id. */
  predicate WrittenBefore(a: Info, b: Info) {
    a.time < b.time
    || (a.time == b.time && a.level < b.level)
    || (a.time == b.time && a.level == b.level
        && ThenBy(a.eventId, b.eventId,
                  ThenBy(a.rulePath, b.rulePath, ThenBy(a.computer, b.computer, Le(a.recId, b.recId)))))
  }

  lemma KeyOrderInFields(a: Info, b: Info)
    ensures KeyLe(KeyOf(a), KeyOf(b)) <==> WrittenBefore(a, b)
  {
    LexOfFour(KeyOf(a).texts, KeyOf(b).texts);
  }

  lemma LexOfFour(a: seq<string>, b: seq<string>)
    requires |a| == |b| == 4
    ensures LexLe(a, b) <==> ThenBy(a[0], b[0], ThenBy(a[1], b[1], ThenBy(a[2], b[2], Le(a[3], b[3]))))
  {
    var c, d := a[1..], b[1..];
    var e, f := c[1..], d[1..];
    var g, h := e[1..], f[1..];
    LeTotal(a[3], a[3]);
    assert |g| == |h| == 1 && g[0] == a[3] && h[0] == b[3] && (LexLe(g, h) <==> Le(a[3], b[3]));
    assert LexLe(e, f) <==> ThenBy(a[2], b[2], Le(a[3], b[3]));
    assert LexLe(c, d) <==> ThenBy(a[1], b[1], ThenBy(a[2], b[2], Le(a[3], b[3])));
  }

  function Keys(s: seq<Info>): seq<SortKey> { Map(s, KeyOf) }

  /** Whatever sorted them, of two written detections the first comes no later in this order. */
  lemma OutputOrder(before: seq<Info>, after: seq<Info>)
    requires IsSort(before, after)
    ensures forall i, j :: 0 <= i < j < |after| ==> WrittenBefore(after[i], after[j])
  {
    forall i, j | 0 <= i < j < |after| ensures WrittenBefore(after[i], after[j]) {
      assert KeyLe(Keys(after)[i], Keys(after)[j]);
      KeyOrderInFields(after[i], after[j]);
    }
  }

  /** What an unstable sort may leave behind: any ordered permutation. */
  ghost predicate IsSort(before: seq<Info>, after: seq<Info>) {
    multiset(after) == multiset(before) && Ordered(Keys(after), KeyLe)
  }

  /** However the unstable sort places ties, the sequence of keys is the same. */
  lemma SortIsDeterminedUpToTies(before: seq<Info>, x: seq<Info>, y: seq<Info>)
    requires IsSort(before, x) && IsSort(before, y)
    ensures Keys(x) == Keys(y)
  {
    MapBag(x, y, KeyOf);
    forall a, b | KeyLe(a, b) && KeyLe(b, a) ensures a == b { KeyOrder(a, b, a); }
    OrderedBagsEqual(Keys(x), Keys(y), KeyLe);
  }

  // ------------------------------------------------------------- duplicate marking

  predicate Kept(f: Field) { !f.profile.EvtxFile? }

  /** The fields that are compared. */
  function Compared(fields: seq<Field>): seq<Field> {
    if fields == [] then []
    else
      var before, f := Compared(fields[..|fields| - 1]), fields[|fields| - 1];
      if Kept(f) then before + [f] else before
  }

  /** The log file is left out of the comparison wherever it is listed, and nothing else is. */
  lemma {:induction false} ComparedLeavesOut(fields: seq<Field>, more: seq<Field>, f: Field)
    ensures Compared(fields + [f] + more) ==
            if f.profile.EvtxFile? then Compared(fields + more) else Compared(fields) + [f] + Compared(more)
    decreases |more|
  {
    if more == [] {
      assert fields + [f] + [] == fields + [f] && (fields + [f])[..|fields|] == fields;
      assert fields + [] == fields;
    } else {
      var init, last := more[..|more| - 1], more[|more| - 1];
      var all, without := fields + [f] + more, fields + more;
      ComparedLeavesOut(fields, init, f);
      assert all[..|all| - 1] == fields + [f] + init && without[..|without| - 1] == fields + init;
    }
  }

  predicate Twins(a: Info, b: Info) { Compared(a.fields) == Compared(b.fields) }

  /** Where the block of neighbours with the time of record `i` begins. */
  function RunStart(s: seq<Info>, i: nat): (r: nat)
    requires i < |s|
    ensures r <= i
  {
    if i == 0 || s[i - 1].time != s[i].time then i else RunStart(s, i - 1)
  }

  /** An earlier record of the run, other than its first, has the same fields. */
  predicate Marked(s: seq<Info>, i: nat)
    requires i < |s|
  {
    exists j :: RunStart(s, i) < j < i && Twins(s[j], s[i])
  }

  /** The fields of the records after the first of the run, up to record `i`. */
  function Remembered(s: seq<Info>, i: nat): set<seq<Field>>
    requires i < |s|
  {
    if i == 0 || s[i - 1].time != s[i].time then {} else Remembered(s, i - 1) + {Compared(s[i].fields)}
  }

  lemma {:induction false} RememberedMeans(s: seq<Info>, i: nat, k: seq<Field>)
    requires i < |s|
    ensures k in Remembered(s, i) <==> exists j :: RunStart(s, i) < j <= i && Compared(s[j].fields) == k
  {
    if i > 0 && s[i - 1].time == s[i].time { RememberedMeans(s, i - 1, k); }
  }

  lemma MarkedIfRemembered(s: seq<Info>, i: nat)
    requires i < |s|
    ensures Marked(s, i) <==> i > 0 && s[i - 1].time == s[i].time && Compared(s[i].fields) in Remembered(s, i - 1)
  {
    if i > 0 && s[i - 1].time == s[i].time { RememberedMeans(s, i - 1, Compared(s[i].fields)); }
  }

  method GetDuplicateIdxes(s: seq<Info>) returns (marked: set<nat>)
    ensures forall i: nat :: i in marked <==> i < |s| && Marked(s, i)
  {
    marked := {};
    var prev: set<seq<Field>> := {};
    for i := 0 to |s|
      invariant forall k: nat :: k in marked <==> k < i && Marked(s, k)
      invariant prev == if i == 0 then {} else Remembered(s, i - 1)
    {
      MarkedIfRemembered(s, i);
      if i == 0 { continue; }
      if s[i - 1].time != s[i].time {
        prev := {};
        continue;
      }
      var fields := Compared(s[i].fields);
      if fields in prev {
        marked := marked + {i};
        continue;
      }
      prev := prev + {fields};
    }
  }

  // ------------------------------------------------------------- on a sorted list

  ghost predicate Sorted(s: seq<Info>) { forall i, j :: 0 <= i < j < |s| ==> s[i].time <= s[j].time }

  lemma SortedByTime(s: seq<Info>)
    requires Ordered(Keys(s), KeyLe)
    ensures Sorted(s)
  {
    forall i, j | 0 <= i < j < |s| ensures s[i].time <= s[j].time {
      assert KeyLe(Keys(s)[i], Keys(s)[j]);
    }
  }

  lemma {:induction false} RunIsTheTime(s: seq<Info>, i: nat)
    requires Sorted(s) && i < |s|
    ensures forall j :: RunStart(s, i) <= j <= i ==> s[j].time == s[i].time
    ensures forall j :: 0 <= j < RunStart(s, i) ==> s[j].time < s[i].time
  {
    if i > 0 && s[i - 1].time == s[i].time { RunIsTheTime(s, i - 1); }
  }

  /** Some earlier record of the same time, but not the first of that time, has the same fields. */
  predicate HasEarlierTwin(s: seq<Info>, i: nat)
    requires i < |s|
  {
    exists h, j :: 0 <= h < j < i && s[h].time == s[j].time == s[i].time && Twins(s[j], s[i])
  }

  /** Sorted, a record is marked exactly when an earlier twin of its time is not the first of that time. */
  lemma MarkedIff(s: seq<Info>, i: nat)
    requires Sorted(s) && i < |s|
    ensures Marked(s, i) <==> HasEarlierTwin(s, i)
  {
    RunIsTheTime(s, i);
    if Marked(s, i) {
      var j :| RunStart(s, i) < j < i && Twins(s[j], s[i]);
      var h := RunStart(s, i);
      assert 0 <= h < j < i && s[h].time == s[j].time == s[i].time && Twins(s[j], s[i]);
    }
    if exists h, j :: 0 <= h < j < i && s[h].time == s[j].time == s[i].time && Twins(s[j], s[i]) {
      var h, j :| 0 <= h < j < i && s[h].time == s[j].time == s[i].time && Twins(s[j], s[i]);
      assert RunStart(s, i) < j < i;
    }
  }

  /** The copies of a record: same time, same fields. */
  function Copies(s: seq<Info>, i: nat): set<nat>
    requires i < |s|
  {
    set j | 0 <= j < |s| && s[j].time == s[i].time && Twins(s[j], s[i])
  }

  function Survivors(s: seq<Info>, i: nat): set<nat>
    requires i < |s|
  {
    set j | j in Copies(s, i) && j < |s| && !Marked(s, j)
  }

  /** Twins agree on where their run begins. */
  lemma SameRun(s: seq<Info>, i: nat, j: nat)
    requires Sorted(s) && i < |s| && j < |s| && s[i].time == s[j].time
    ensures RunStart(s, i) == RunStart(s, j)
  {
    RunIsTheTime(s, i);
    RunIsTheTime(s, j);
  }

  /** A marked record always has an earlier copy that is written. */
  lemma MarkedHasUnmarkedTwin(s: seq<Info>, i: nat) returns (j: nat)
    requires Sorted(s) && i < |s| && Marked(s, i)
    ensures j < i && s[j].time == s[i].time && Twins(s[j], s[i]) && !Marked(s, j)
  {
    RunIsTheTime(s, i);
    var r := RunStart(s, i);
    var later := set k: nat | r < k < i && Twins(s[k], s[i]);
    var k :| r < k < i && Twins(s[k], s[i]);
    assert k in later;
    j := Least(later);
    SameRun(s, i, j);
    assert forall k :: r < k < j && Twins(s[k], s[j]) ==> k in later;
  }

  /** Of the copies that are not the first record of their time, all but the earliest are marked. */
  lemma LaterCopies(s: seq<Info>, i: nat, later: set<nat>, m: nat)
    requires Sorted(s) && i < |s| && later == Copies(s, i) - {RunStart(s, i)}
    requires m in later && forall k :: k in later ==> m <= k
    ensures forall j :: j in later ==> (Marked(s, j) <==> j != m)
  {
    var r := RunStart(s, i);
    RunIsTheTime(s, i);
    forall j | j in later ensures Marked(s, j) <==> j != m {
      SameRun(s, i, j);
      SameRun(s, i, m);
      if Marked(s, j) {
        var k :| r < k < j && Twins(s[k], s[j]);
        RunIsTheTime(s, j);
        assert k in later;
      }
      if j != m { assert r < m < j && Twins(s[m], s[j]); }
    }
  }

  lemma OneCopy(s: seq<Info>, i: nat)
    requires Sorted(s) && i < |s| && Copies(s, i) == {RunStart(s, i)}
    ensures |Survivors(s, i)| == 1
  {
    var r := RunStart(s, i);
    RunIsTheTime(s, i);
    SameRun(s, r, i);
    assert Survivors(s, i) == {r};
  }

  lemma SeveralCopies(s: seq<Info>, i: nat)
    requires Sorted(s) && i < |s| && Copies(s, i) - {RunStart(s, i)} != {}
    ensures |Survivors(s, i)| == if RunStart(s, i) in Copies(s, i) then 2 else 1
  {
    var r, c := RunStart(s, i), Copies(s, i);
    RunIsTheTime(s, i);
    SameRun(s, r, i);
    assert !Marked(s, r);
    var later := c - {r};
    var m := Least(later);
    LaterCopies(s, i, later, m);
    if r in c {
      assert Survivors(s, i) == {r, m};
    } else {
      assert later == c;
      assert Survivors(s, i) == {m};
    }
  }

  lemma TwoOf<A>(r: A, c: set<A>)
    requires r in c
    ensures |c| >= 2 <==> c - {r} != {}
  {
    assert |c| == |c - {r}| + 1;
  }

  /**
   How many copies of a record are written: two if the first record of its time is
   one of several copies, otherwise one.  So never none and never three.
   */
  lemma CopiesWritten(s: seq<Info>, i: nat)
    requires Sorted(s) && i < |s|
    ensures |Survivors(s, i)| == if RunStart(s, i) in Copies(s, i) && |Copies(s, i)| >= 2 then 2 else 1
  {
    var r, c := RunStart(s, i), Copies(s, i);
    assert i in c;
    if r in c { TwoOf(r, c); }
    if c - {r} == {} {
      assert c == {r};
      OneCopy(s, i);
    } else {
      SeveralCopies(s, i);
    }
  }

  /** Exactly one copy is written exactly when the first record of the time has no second copy or is another record. */
  lemma OneCopyWrittenIff(s: seq<Info>, i: nat)
    requires Sorted(s) && i < |s|
    ensures |Survivors(s, i)| == 1 <==> RunStart(s, i) !in Copies(s, i) || Copies(s, i) == {RunStart(s, i)}
  {
    CopiesWritten(s, i);
    var r, c := RunStart(s, i), Copies(s, i);
    if r in c && |c| < 2 { SubsetSize({r}, c); }
  }

  /** Two equal records that are the first of their time are both written. */
  lemma FirstTwoAreBothWritten(a: Info)
    ensures Survivors([a, a], 0) == {0, 1}
  {
    var s := [a, a];
    assert Sorted(s) && RunStart(s, 0) == 0;
    assert RunStart(s, 1) == RunStart(s, 0);
    assert Copies(s, 0) == {0, 1};
  }

  // ------------------------------------------------------------- sorted, marked and written

  /** What makes two records copies of each other. */
  function ClassOf(d: Info): (int, seq<Field>) { (d.time, Compared(d.fields)) }

  function CopiesIn(infos: seq<Info>, d: Info): nat { multiset(Map(infos, ClassOf))[ClassOf(d)] }

  function Places(classes: seq<(int, seq<Field>)>, c: (int, seq<Field>)): set<nat> {
    set j | 0 <= j < |classes| && classes[j] == c
  }

  lemma {:induction false} PlacesCount(classes: seq<(int, seq<Field>)>, c: (int, seq<Field>))
    ensures |Places(classes, c)| == multiset(classes)[c]
  {
    if classes != [] {
      var init, last := classes[..|classes| - 1], classes[|classes| - 1];
      PlacesCount(init, c);
      assert classes == init + [last];
      if last == c {
        assert Places(classes, c) == Places(init, c) + {|init|};
      } else {
        assert Places(classes, c) == Places(init, c);
      }
    }
  }

  /** Sorting keeps the copies of a record: there are as many as there were before. */
  lemma SortKeepsCopies(before: seq<Info>, after: seq<Info>, i: nat)
    requires IsSort(before, after) && i < |after|
    ensures |Copies(after, i)| == CopiesIn(before, after[i])
  {
    MapBag(after, before, ClassOf);
    PlacesCount(Map(after, ClassOf), ClassOf(after[i]));
    assert Copies(after, i) == Places(Map(after, ClassOf), ClassOf(after[i]));
  }

  /**
   The output of one batch: the detections are sorted, and unless duplicates are kept those
   that are marked are not written.  Of any number of copies in the input one is written,
   or two if the first record of their time is one of them.
   */
  method OutputAfterfact(infos: seq<Info>, sort: seq<Info> -> seq<Info>, removeDuplicates: bool)
    returns (after: seq<Info>, marked: set<nat>)
    requires IsSort(infos, sort(infos))
    ensures after == sort(infos) && (!removeDuplicates ==> marked == {})
    ensures removeDuplicates ==> forall i: nat :: i in marked <==> i < |after| && HasEarlierTwin(after, i)
    ensures removeDuplicates ==> forall i: nat :: i < |after| ==>
              |Copies(after, i) - marked| ==
              if RunStart(after, i) in Copies(after, i) && CopiesIn(infos, after[i]) >= 2 then 2 else 1
  {
    after, marked := sort(infos), {};
    if removeDuplicates {
      marked := GetDuplicateIdxes(after);
      SortedByTime(after);
      forall i: nat | i < |after| ensures Marked(after, i) <==> HasEarlierTwin(after, i) { MarkedIff(after, i); }
      forall i: nat | i < |after|
        ensures |Copies(after, i) - marked| ==
                if RunStart(after, i) in Copies(after, i) && CopiesIn(infos, after[i]) >= 2 then 2 else 1
      {
        CopiesWritten(after, i);
        SortKeepsCopies(infos, after, i);
        assert Copies(after, i) - marked == Survivors(after, i);
      }
    }
  }
}
