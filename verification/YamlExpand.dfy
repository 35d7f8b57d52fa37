/**
 Placeholder expansion in rules: a key with the `|expand` modifier loses the
 modifier, and a text under it becomes the list of its substitutions.
 */
module YamlExpand {
  import opened Strings
  import opened Sequences
  import opened Yaml

  const EXPAND := "|expand"

  /** A placeholder such as `%users%`. */
  type Placeholder = s: string | s != "" witness "%"

  /** A placeholder with its replacement texts. */
  datatype Entry = Entry(placeholder: Placeholder, values: seq<string>)

  // ------------------------------------------------------------- the rewrite as a function

  predicate Marked(key: Yaml) { key.Text? && Contains(key.s, EXPAND) }

  function NewKey(key: Yaml): Yaml { if Marked(key) then Text(Replace(key.s, EXPAND, "")) else key }

  function ReplaceEach(s: string, placeholder: Placeholder, values: seq<string>): seq<Yaml> {
    if values == [] then []
    else ReplaceEach(s, placeholder, values[..|values| - 1]) + [Text(Replace(s, placeholder, values[|values| - 1]))]
  }

  /** The texts that a text turns into, for one iteration order of the placeholder table. */
  function Substituted(s: string, order: seq<Entry>): seq<Yaml> {
    if order == [] then []
    else
      var before, e := Substituted(s, order[..|order| - 1]), order[|order| - 1];
      if Contains(s, e.placeholder) then before + ReplaceEach(s, e.placeholder, e.values) else before
  }

  function ExpandValue(v: Yaml, order: seq<Entry>): Yaml
    decreases v, 1
  {
    match v
    case Text(s) => if Substituted(s, order) == [] then v else Array(Substituted(s, order))
    case Array(items) => Array(ExpandItems(items, order))
    case _ => Expand(v, order)
  }

  function ExpandItems(items: seq<Yaml>, order: seq<Entry>): (r: seq<Yaml>)
    ensures |r| == |items|
    decreases items
  {
    if items == [] then []
    else ExpandItems(items[..|items| - 1], order) + [Expand(items[|items| - 1], order)]
  }

  function NewValue(p: Pair, order: seq<Entry>): Yaml
    decreases p
  {
    if Marked(p.key) then ExpandValue(p.value, order) else Expand(p.value, order)
  }

  function ExpandPairs(pairs: seq<Pair>, order: seq<Entry>): seq<Pair>
    decreases pairs
  {
    if pairs == [] then []
    else
      var before := ExpandPairs(pairs[..|pairs| - 1], order);
      var p := pairs[|pairs| - 1];
      Insert(before, NewKey(p.key), NewValue(p, order))
  }

  function Expand(y: Yaml, order: seq<Entry>): Yaml
    decreases y, 0
  {
    match y
    case Hash(pairs) => Hash(ExpandPairs(pairs, order))
    case Array(items) => Array(ExpandItems(items, order))
    case _ => y
  }

  lemma {:induction false} ModifierAtEnd(name: string)
    requires '|' !in name
    ensures Contains(name + "|expand", EXPAND) && Replace(name + "|expand", EXPAND, "") == name
  {
    if name == "" {
      assert name + "|expand" == EXPAND + "";
      ReplaceHit(EXPAND, "", "");
    } else {
      var rest := name[1..] + "|expand";
      ModifierAtEnd(name[1..]);
      assert name + "|expand" == [name[0]] + rest && EXPAND[0] == '|';
      ReplaceSkip(name[0], rest, EXPAND, "");
    }
  }

  lemma TwoReplacements(s: string, p: Placeholder, a: string, b: string)
    requires Contains(s, p)
    ensures Substituted(s, [Entry(p, [a, b])]) == [Text(Replace(s, p, a)), Text(Replace(s, p, b))]
  {
    var e := Entry(p, [a, b]);
    assert [e][..0] == [] && [a, b][..1] == [a] && [a][..0] == [];
    assert ReplaceEach(s, p, [a]) == [] + [Text(Replace(s, p, a))];
    assert ReplaceEach(s, p, [a, b]) == ReplaceEach(s, p, [a]) + [Text(Replace(s, p, b))];
  }

  /** A key with the modifier at its end loses it, and its text becomes the list of the texts with each replacement. */
  lemma EntryExpanded(name: string, s: string, p: Placeholder, a: string, b: string)
    requires '|' !in name && Contains(s, p)
    ensures Expand(Hash([Pair(Text(name + "|expand"), Text(s))]), [Entry(p, [a, b])])
         == Hash([Pair(Text(name), Array([Text(Replace(s, p, a)), Text(Replace(s, p, b))]))])
  {
    ModifierAtEnd(name);
    TwoReplacements(s, p, a, b);
    OneEntry(Pair(Text(name + "|expand"), Text(s)), [Entry(p, [a, b])]);
  }

  lemma OneEntry(p: Pair, order: seq<Entry>)
    ensures ExpandPairs([p], order) == [Pair(NewKey(p.key), NewValue(p, order))]
  {
    assert [p][..0] == [];
    assert ExpandPairs([p], order) == Insert(ExpandPairs([], order), NewKey(p.key), NewValue(p, order));
    assert Without([], NewKey(p.key)) == [];
  }

  // ------------------------------------------------------------- the two flags

  /** Some text key of a mapping, at any depth, contains the modifier. */
  predicate HasExpand(y: Yaml) {
    match y
    case Hash(pairs) => exists i :: 0 <= i < |pairs| && PairHasExpand(pairs[i])
    case Array(items) => exists i :: 0 <= i < |items| && HasExpand(items[i])
    case _ => false
  }

  predicate PairHasExpand(p: Pair) { Marked(p.key) || HasExpand(p.value) }

  /** Under some such key the value changes. */
  predicate Enables(y: Yaml, order: seq<Entry>) {
    match y
    case Hash(pairs) => exists i :: 0 <= i < |pairs| && PairEnables(pairs[i], order)
    case Array(items) => exists i :: 0 <= i < |items| && Enables(items[i], order)
    case _ => false
  }

  predicate PairEnables(p: Pair, order: seq<Entry>) {
    (Marked(p.key) && NewValue(p, order) != p.value) || Enables(p.value, order)
  }

  // ------------------------------------------------------------- the code

  method SubstituteText(s: string, order: seq<Entry>) returns (replaced: seq<Yaml>)
    ensures replaced == Substituted(s, order)
  {
    replaced := [];
    for n := 0 to |order|
      invariant replaced == Substituted(s, order[..n])
    {
      assert order[..n + 1][..n] == order[..n];
      var e := order[n];
      if Contains(s, e.placeholder) {
        var more := [];
        for m := 0 to |e.values|
          invariant more == ReplaceEach(s, e.placeholder, e.values[..m])
        {
          assert e.values[..m + 1][..m] == e.values[..m];
          more := more + [Text(Replace(s, e.placeholder, e.values[m]))];
        }
        assert e.values[..|e.values|] == e.values;
        replaced := replaced + more;
      }
    }
    assert order[..|order|] == order;
  }

  method ProcessItems(items: seq<Yaml>, order: seq<Entry>, found: bool, enabled: bool)
    returns (r: seq<Yaml>, found': bool, enabled': bool)
    ensures r == ExpandItems(items, order)
    ensures found' == (found || exists i :: 0 <= i < |items| && HasExpand(items[i]))
    ensures enabled' == (enabled || exists i :: 0 <= i < |items| && Enables(items[i], order))
    decreases items
  {
    r, found', enabled' := [], found, enabled;
    for n := 0 to |items|
      invariant r == ExpandItems(items[..n], order)
      invariant found' == (found || exists i :: 0 <= i < n && HasExpand(items[i]))
      invariant enabled' == (enabled || exists i :: 0 <= i < n && Enables(items[i], order))
    {
      assert items[..n + 1][..n] == items[..n];
      var item;
      item, found', enabled' := ProcessYaml(items[n], order, found', enabled');
      r := r + [item];
    }
    assert items[..|items|] == items;
  }

  method ProcessValue(v: Yaml, order: seq<Entry>, found: bool, enabled: bool)
    returns (r: Yaml, found': bool, enabled': bool)
    ensures r == ExpandValue(v, order)
    ensures found' == (found || HasExpand(v)) && enabled' == (enabled || Enables(v, order))
    decreases v, 1
  {
    found', enabled' := found, enabled;
    match v
    case Text(s) =>
      var replaced := SubstituteText(s, order);
      r := if replaced == [] then v else Array(replaced);
    case Array(items) =>
      var items';
      items', found', enabled' := ProcessItems(items, order, found', enabled');
      r := Array(items');
    case _ =>
      r, found', enabled' := ProcessYaml(v, order, found', enabled');
  }

  method ProcessPairs(pairs: seq<Pair>, order: seq<Entry>, found: bool, enabled: bool)
    returns (newHash: seq<Pair>, found': bool, enabled': bool)
    ensures newHash == ExpandPairs(pairs, order)
    ensures found' == (found || exists i :: 0 <= i < |pairs| && PairHasExpand(pairs[i]))
    ensures enabled' == (enabled || exists i :: 0 <= i < |pairs| && PairEnables(pairs[i], order))
    decreases pairs
  {
    newHash, found', enabled' := [], found, enabled;
    for n := 0 to |pairs|
      invariant newHash == ExpandPairs(pairs[..n], order)
      invariant found' == (found || exists i :: 0 <= i < n && PairHasExpand(pairs[i]))
      invariant enabled' == (enabled || exists i :: 0 <= i < n && PairEnables(pairs[i], order))
    {
      assert pairs[..n + 1][..n] == pairs[..n];
      var value;
      value, found', enabled' := ProcessPair(pairs[n], order, found', enabled');
      newHash := Insert(newHash, NewKey(pairs[n].key), value);
    }
    assert pairs[..|pairs|] == pairs;
  }

  /** The value of one entry; only a marked key can raise the flags by itself. */
  method ProcessPair(p: Pair, order: seq<Entry>, found: bool, enabled: bool)
    returns (value: Yaml, found': bool, enabled': bool)
    ensures value == NewValue(p, order)
    ensures found' == (found || PairHasExpand(p)) && enabled' == (enabled || PairEnables(p, order))
    decreases p
  {
    found', enabled' := found, enabled;
    if Marked(p.key) {
      found' := true;
      value, found', enabled' := ProcessValue(p.value, order, found', enabled');
      if p.value != value { enabled' := true; }
    } else {
      value, found', enabled' := ProcessYaml(p.value, order, found', enabled');
    }
  }

  method ProcessYaml(y: Yaml, order: seq<Entry>, found: bool, enabled: bool)
    returns (r: Yaml, found': bool, enabled': bool)
    ensures r == Expand(y, order)
    ensures found' == (found || HasExpand(y)) && enabled' == (enabled || Enables(y, order))
    decreases y, 0
  {
    found', enabled' := found, enabled;
    match y
    case Hash(pairs) =>
      var newHash;
      newHash, found', enabled' := ProcessPairs(pairs, order, found', enabled');
      r := Hash(newHash);
    case Array(items) =>
      var items';
      items', found', enabled' := ProcessItems(items, order, found', enabled');
      r := Array(items');
    case _ =>
      r := y;
  }

  // ------------------------------------------------------------- what a pass changes

  lemma {:induction false} RemovalShortens(s: string, pat: string)
    requires pat != ""
    ensures |Replace(s, pat, "")| <= |s|
    ensures Contains(s, pat) ==> |Replace(s, pat, "")| < |s|
  {
    if s != "" { RemovalShortens(if pat <= s then s[|pat|..] else s[1..], pat); }
  }

  function KeyChars(key: Yaml): nat { if key.Text? then |key.s| else 0 }

  function Chars(pairs: seq<Pair>): nat {
    if pairs == [] then 0 else Chars(pairs[..|pairs| - 1]) + KeyChars(pairs[|pairs| - 1].key)
  }

  lemma {:induction false} InsertChars(pairs: seq<Pair>, key: Yaml, value: Yaml)
    ensures Chars(Without(pairs, key)) <= Chars(pairs)
    ensures Chars(Insert(pairs, key, value)) <= Chars(pairs) + KeyChars(key)
  {
    if pairs != [] {
      var init, last := pairs[..|pairs| - 1], pairs[|pairs| - 1];
      InsertChars(init, key, value);
      assert (Without(init, key) + [last])[..|Without(init, key)|] == Without(init, key);
    }
    assert Insert(pairs, key, value)[..|Without(pairs, key)|] == Without(pairs, key);
  }

  /** A marked key loses characters, whether or not it meets another key. */
  lemma {:induction false} ExpandChars(pairs: seq<Pair>, order: seq<Entry>)
    ensures Chars(ExpandPairs(pairs, order)) <= Chars(pairs)
    ensures (exists i :: 0 <= i < |pairs| && Marked(pairs[i].key)) ==> Chars(ExpandPairs(pairs, order)) < Chars(pairs)
  {
    if pairs != [] {
      var init, p := pairs[..|pairs| - 1], pairs[|pairs| - 1];
      ExpandChars(init, order);
      InsertChars(ExpandPairs(init, order), NewKey(p.key), NewValue(p, order));
      if Marked(p.key) { RemovalShortens(p.key.s, EXPAND); }
      assert forall i :: 0 <= i < |init| ==> init[i] == pairs[i];
    }
  }

  lemma {:induction false} UnmarkedPairs(pairs: seq<Pair>, order: seq<Entry>)
    requires DistinctKeys(pairs)
    requires forall i :: 0 <= i < |pairs| ==> !Marked(pairs[i].key)
    ensures |ExpandPairs(pairs, order)| == |pairs|
    ensures forall i :: 0 <= i < |pairs| ==>
              ExpandPairs(pairs, order)[i] == Pair(pairs[i].key, Expand(pairs[i].value, order))
  {
    if pairs != [] {
      var init, p := pairs[..|pairs| - 1], pairs[|pairs| - 1];
      UnmarkedPairs(init, order);
      WithoutAbsent(ExpandPairs(init, order), p.key);
    }
  }

  lemma {:induction false} ItemsAre(items: seq<Yaml>, order: seq<Entry>)
    ensures forall i :: 0 <= i < |items| ==> ExpandItems(items, order)[i] == Expand(items[i], order)
  {
    if items != [] { ItemsAre(items[..|items| - 1], order); }
  }

  lemma PairsUnchangedIff(pairs: seq<Pair>, order: seq<Entry>)
    requires DistinctKeys(pairs)
    requires forall i :: 0 <= i < |pairs| ==>
               (Expand(pairs[i].value, order) == pairs[i].value <==> !HasExpand(pairs[i].value))
    ensures ExpandPairs(pairs, order) == pairs <==> !HasExpand(Hash(pairs))
  {
    ExpandChars(pairs, order);
    if forall i :: 0 <= i < |pairs| ==> !Marked(pairs[i].key) {
      UnmarkedPairs(pairs, order);
      if HasExpand(Hash(pairs)) {
        var i :| 0 <= i < |pairs| && PairHasExpand(pairs[i]);
        assert ExpandPairs(pairs, order)[i].value != pairs[i].value;
      } else {
        forall i | 0 <= i < |pairs| ensures ExpandPairs(pairs, order)[i] == pairs[i] {
          assert !PairHasExpand(pairs[i]);
        }
      }
    } else {
      var i :| 0 <= i < |pairs| && Marked(pairs[i].key);
      assert PairHasExpand(pairs[i]);
    }
  }

  lemma ItemsUnchangedIff(items: seq<Yaml>, order: seq<Entry>)
    requires forall i :: 0 <= i < |items| ==> (Expand(items[i], order) == items[i] <==> !HasExpand(items[i]))
    ensures ExpandItems(items, order) == items <==> !HasExpand(Array(items))
  {
    ItemsAre(items, order);
    if HasExpand(Array(items)) {
      var i :| 0 <= i < |items| && HasExpand(items[i]);
      assert ExpandItems(items, order)[i] != items[i];
    }
  }

  /** A pass leaves a document alone exactly when no key in it contains the modifier. */
  lemma {:induction false} UnchangedIff(y: Yaml, order: seq<Entry>)
    requires WellFormed(y)
    ensures Expand(y, order) == y <==> !HasExpand(y)
  {
    match y
    case Hash(pairs) =>
      forall i | 0 <= i < |pairs|
        ensures Expand(pairs[i].value, order) == pairs[i].value <==> !HasExpand(pairs[i].value)
      {
        UnchangedIff(pairs[i].value, order);
      }
      PairsUnchangedIff(pairs, order);
    case Array(items) =>
      forall i | 0 <= i < |items| ensures Expand(items[i], order) == items[i] <==> !HasExpand(items[i]) {
        UnchangedIff(items[i], order);
      }
      ItemsUnchangedIff(items, order);
    case _ =>
  }

  /** A text in a list is never substituted, even under a marked key. */
  lemma PlaceholderListUnchanged(items: seq<Yaml>, order: seq<Entry>)
    requires forall i :: 0 <= i < |items| ==> items[i].Text?
    ensures ExpandValue(Array(items), order) == Array(items)
  {
    ItemsAre(items, order);
    assert ExpandItems(items, order) == items;
  }

  /** Whether some placeholder applies, or a nested key has the modifier. */
  predicate ValueChanges(v: Yaml, order: seq<Entry>) {
    match v
    case Text(s) => exists i :: 0 <= i < |order| && Contains(s, order[i].placeholder) && order[i].values != []
    case _ => HasExpand(v)
  }

  lemma {:induction false} SubstitutedNothingIff(s: string, order: seq<Entry>)
    ensures Substituted(s, order) == [] <==> !ValueChanges(Text(s), order)
  {
    if order != [] {
      var init := order[..|order| - 1];
      SubstitutedNothingIff(s, init);
      assert order == init + [order[|init|]];
    }
  }

  /** `expand_enabled` is raised exactly when under some marked key a placeholder applies or a marked key is nested. */
  lemma ValueChangesIff(v: Yaml, order: seq<Entry>)
    requires WellFormed(v)
    ensures ExpandValue(v, order) != v <==> ValueChanges(v, order)
  {
    if v.Text? { SubstitutedNothingIff(v.s, order); } else { UnchangedIff(v, order); }
  }

  /** The texts that a text becomes: one for each applicable placeholder and replacement. */
  lemma {:induction false} SubstitutedMeans(s: string, order: seq<Entry>, y: Yaml)
    ensures y in Substituted(s, order) <==>
              exists i, j :: 0 <= i < |order| && 0 <= j < |order[i].values| && Contains(s, order[i].placeholder)
                             && y == Text(Replace(s, order[i].placeholder, order[i].values[j]))
  {
    if order != [] {
      var init, e := order[..|order| - 1], order[|order| - 1];
      SubstitutedMeans(s, init, y);
      ReplaceEachMeans(s, e.placeholder, e.values, y);
      assert order == init + [e];
    }
  }

  lemma {:induction false} ReplaceEachMeans(s: string, placeholder: Placeholder, values: seq<string>, y: Yaml)
    ensures y in ReplaceEach(s, placeholder, values) <==>
              exists j :: 0 <= j < |values| && y == Text(Replace(s, placeholder, values[j]))
  {
    if values != [] {
      var init := values[..|values| - 1];
      ReplaceEachMeans(s, placeholder, init, y);
      assert values == init + [values[|init|]];
    }
  }

  // ------------------------------------------------------------- entries that are lost

  lemma {:induction false} ExpandedKeys(pairs: seq<Pair>, order: seq<Entry>, key: Yaml)
    ensures DistinctKeys(ExpandPairs(pairs, order))
    ensures HasKey(ExpandPairs(pairs, order), key) <==> exists i :: 0 <= i < |pairs| && NewKey(pairs[i].key) == key
  {
    if pairs != [] {
      var init, p := pairs[..|pairs| - 1], pairs[|pairs| - 1];
      ExpandedKeys(init, order, key);
      InsertKeys(ExpandPairs(init, order), NewKey(p.key), NewValue(p, order), key);
      assert forall i :: 0 <= i < |init| ==> init[i] == pairs[i];
    }
  }

  lemma WithoutKeys(b: seq<Pair>, k: Yaml, key: Yaml)
    ensures HasKey(Without(b, k), key) <==> HasKey(b, key) && key != k
  {
    WithoutMembers(b, k);
    var w := Without(b, k);
    if HasKey(b, key) && key != k {
      var i :| 0 <= i < |b| && b[i].key == key;
      assert b[i] in w;
    }
    if HasKey(w, key) {
      var i :| 0 <= i < |w| && w[i].key == key;
      assert w[i] in b;
    }
  }

  lemma InsertKeys(b: seq<Pair>, k: Yaml, v: Yaml, key: Yaml)
    requires DistinctKeys(b)
    ensures DistinctKeys(Insert(b, k, v))
    ensures HasKey(Insert(b, k, v), key) <==> HasKey(b, key) || key == k
    ensures |Insert(b, k, v)| == if HasKey(b, k) then |b| else |b| + 1
  {
    WithoutDistinct(b, k);
    WithoutKeys(b, k, key);
    WithoutSize(b, k);
    AppendKey(Without(b, k), Pair(k, v), key);
  }

  lemma AppendKey(w: seq<Pair>, p: Pair, key: Yaml)
    ensures HasKey(w + [p], key) <==> HasKey(w, key) || key == p.key
  {
    var u := w + [p];
    assert u[|w|] == p && forall i :: 0 <= i < |w| ==> u[i] == w[i];
    if HasKey(w, key) {
      var i :| 0 <= i < |w| && w[i].key == key;
      assert u[i].key == key;
    }
  }

  lemma {:induction false} WithoutSize(b: seq<Pair>, k: Yaml)
    requires DistinctKeys(b)
    ensures |Without(b, k)| == if HasKey(b, k) then |b| - 1 else |b|
  {
    if b != [] {
      var init := b[..|b| - 1];
      WithoutSize(init, k);
      assert forall i :: 0 <= i < |init| ==> init[i] == b[i];
    }
  }

  predicate NewKeysDistinct(pairs: seq<Pair>) {
    forall i, j :: 0 <= i < j < |pairs| ==> NewKey(pairs[i].key) != NewKey(pairs[j].key)
  }

  /** A mapping keeps all its entries exactly when no two keys become equal; otherwise the earlier one is lost. */
  lemma {:induction false} KeepsEntriesIff(pairs: seq<Pair>, order: seq<Entry>)
    ensures |ExpandPairs(pairs, order)| <= |pairs|
    ensures |ExpandPairs(pairs, order)| == |pairs| <==> NewKeysDistinct(pairs)
  {
    if pairs != [] {
      var init, p := pairs[..|pairs| - 1], pairs[|pairs| - 1];
      KeepsEntriesIff(init, order);
      ExpandedKeys(init, order, NewKey(p.key));
      InsertKeys(ExpandPairs(init, order), NewKey(p.key), NewValue(p, order), p.key);
      assert forall i :: 0 <= i < |init| ==> init[i] == pairs[i];
    }
  }

  /** The keys `a|expand` and `a` become equal: the entry of the first is lost. */
  lemma EqualKeysLoseAnEntry(v: Yaml, w: Yaml, order: seq<Entry>)
    ensures var pairs := [Pair(Text("a" + EXPAND), v), Pair(Text("a"), w)];
            DistinctKeys(pairs) && Expand(Hash(pairs), order) == Hash([Pair(Text("a"), Expand(w, order))])
  {
    var p, q := Pair(Text("a" + EXPAND), v), Pair(Text("a"), w);
    ModifierAtEnd("a");
    Unmarked();
    assert |"a" + EXPAND| == 8;
    TwoAlike(p, q, order);
  }

  lemma Unmarked()
    ensures !Contains("a", EXPAND)
  {
    assert |EXPAND| == 7 && "a"[1..] == "";
  }

  /** Of two entries whose keys become equal the second is left. */
  lemma TwoAlike(p: Pair, q: Pair, order: seq<Entry>)
    requires NewKey(p.key) == NewKey(q.key)
    ensures ExpandPairs([p, q], order) == [Pair(NewKey(q.key), NewValue(q, order))]
  {
    OneEntry(p, order);
    assert [p, q][..1] == [p];
    assert ExpandPairs([p, q], order) == Insert(ExpandPairs([p], order), NewKey(q.key), NewValue(q, order));
    InsertSame(NewKey(q.key), NewValue(p, order), NewValue(q, order));
  }

  lemma InsertSame(key: Yaml, a: Yaml, b: Yaml)
    ensures Insert([Pair(key, a)], key, b) == [Pair(key, b)]
  {
    assert [Pair(key, a)][..0] == [] && Without([], key) == [];
    assert Without([Pair(key, a)], key) == [];
  }

  /** Of entries whose keys become equal the last one stays, with its own expanded value. */
  lemma {:induction false} LastEntryWins(pairs: seq<Pair>, order: seq<Entry>, i: nat)
    requires i < |pairs| && forall j :: i < j < |pairs| ==> NewKey(pairs[j].key) != NewKey(pairs[i].key)
    ensures Pair(NewKey(pairs[i].key), NewValue(pairs[i], order)) in ExpandPairs(pairs, order)
  {
    var init, p := pairs[..|pairs| - 1], pairs[|pairs| - 1];
    if i == |pairs| - 1 {
      var q := Pair(NewKey(p.key), NewValue(p, order));
      assert ExpandPairs(pairs, order)[|ExpandPairs(pairs, order)| - 1] == q;
    } else {
      LastEntryWins(init, order, i);
      WithoutMembers(ExpandPairs(init, order), NewKey(p.key));
    }
  }

  /** No later key becomes equal to the key of entry `i`. */
  predicate Survives(pairs: seq<Pair>, i: nat)
    requires i < |pairs|
  {
    forall j :: i < j < |pairs| ==> NewKey(pairs[j].key) != NewKey(pairs[i].key)
  }

  function Dropped(pairs: seq<Pair>, key: Yaml): seq<Pair> {
    if pairs == [] then []
    else
      var before, p := Dropped(pairs[..|pairs| - 1], key), pairs[|pairs| - 1];
      if NewKey(p.key) == key then before else before + [p]
  }

  /** The entries that are not lost, in the order in which they end up. */
  function Survivors(pairs: seq<Pair>): seq<Pair> {
    if pairs == [] then []
    else Dropped(Survivors(pairs[..|pairs| - 1]), NewKey(pairs[|pairs| - 1].key)) + [pairs[|pairs| - 1]]
  }

  function Outcome(order: seq<Entry>): Pair -> Pair { (p: Pair) => Pair(NewKey(p.key), NewValue(p, order)) }

  lemma {:induction false} DroppedOutcome(pairs: seq<Pair>, key: Yaml, order: seq<Entry>)
    ensures Map(Dropped(pairs, key), Outcome(order)) == Without(Map(pairs, Outcome(order)), key)
  {
    if pairs != [] {
      var init, p := pairs[..|pairs| - 1], pairs[|pairs| - 1];
      DroppedOutcome(init, key, order);
      var d := Dropped(init, key);
      assert (d + [p])[..|d|] == d;
      assert Map(pairs, Outcome(order))[..|init|] == Map(init, Outcome(order));
    }
  }

  /** A rewritten mapping holds the outcomes of its surviving entries. */
  lemma {:induction false} SurvivorsExpanded(pairs: seq<Pair>, order: seq<Entry>)
    ensures ExpandPairs(pairs, order) == Map(Survivors(pairs), Outcome(order))
  {
    if pairs != [] {
      var init, p := pairs[..|pairs| - 1], pairs[|pairs| - 1];
      SurvivorsExpanded(init, order);
      DroppedOutcome(Survivors(init), NewKey(p.key), order);
      var d := Dropped(Survivors(init), NewKey(p.key));
      assert (d + [p])[..|d|] == d;
      assert Map(d + [p], Outcome(order)) == Map(d, Outcome(order)) + [Outcome(order)(p)];
    }
  }

  lemma {:induction false} DroppedMembers(pairs: seq<Pair>, key: Yaml)
    ensures forall p :: p in Dropped(pairs, key) <==> p in pairs && NewKey(p.key) != key
  {
    if pairs != [] {
      DroppedMembers(pairs[..|pairs| - 1], key);
      assert pairs == pairs[..|pairs| - 1] + [pairs[|pairs| - 1]];
    }
  }

  lemma {:induction false} SurvivorSurvives(pairs: seq<Pair>, p: Pair) returns (i: nat)
    requires p in Survivors(pairs)
    ensures i < |pairs| && pairs[i] == p && Survives(pairs, i)
  {
    var init, last := pairs[..|pairs| - 1], pairs[|pairs| - 1];
    DroppedMembers(Survivors(init), NewKey(last.key));
    if p in Dropped(Survivors(init), NewKey(last.key)) {
      i := SurvivorSurvives(init, p);
      assert forall j :: 0 <= j < |init| ==> init[j] == pairs[j];
    } else {
      i := |pairs| - 1;
    }
  }

  // ------------------------------------------------------------- a second pass

  function Copies(n: nat): string { if n == 0 then "" else EXPAND + Copies(n - 1) }

  /** A text with so many whole modifiers in front of each of its characters. */
  function Woven(t: string, gaps: seq<nat>): string
    requires |gaps| == |t|
  {
    if t == "" then "" else Copies(gaps[0]) + [t[0]] + Woven(t[1..], gaps[1..])
  }

  /** After character `n`, a bar, come the other characters of a modifier with whole modifiers between them. */
  predicate RejoinsAt(k: string, n: nat, gaps: seq<nat>) {
    && n < |k| && k[n] == '|' && |gaps| == |EXPAND| - 1 && (exists i :: 0 <= i < |gaps| && gaps[i] > 0)
    && Woven(EXPAND[1..], gaps) <= k[n + 1..]
  }

  /** Somewhere in the key a modifier is spread out, with at least one whole modifier in its gaps. */
  ghost predicate Rejoins(k: string) { exists n: nat, gaps: seq<nat> :: RejoinsAt(k, n, gaps) }

  predicate BarFree(t: string) { forall i :: 0 <= i < |t| ==> t[i] != '|' }

  lemma WovenMore(t: string, gaps: seq<nat>)
    requires |gaps| == |t| && t != ""
    ensures Woven(t, gaps[0 := gaps[0] + 1]) == EXPAND + Woven(t, gaps)
  {
    assert gaps[0 := gaps[0] + 1][1..] == gaps[1..];
    Regroup(EXPAND, Copies(gaps[0]), [t[0]], Woven(t[1..], gaps[1..]));
  }

  lemma Regroup(a: string, b: string, c: string, d: string)
    ensures a + b + c + d == a + (b + c + d)
  {
  }

  lemma WovenNone(t: string, gaps: seq<nat>)
    requires t != "" && |gaps| == |t| - 1
    ensures Woven(t, [0] + gaps) == [t[0]] + Woven(t[1..], gaps)
  {
    var all := [0] + gaps;
    assert all[0] == 0 && all[1..] == gaps && Copies(0) == "";
    assert "" + [t[0]] == [t[0]];
  }

  /** What is in front after the modifiers are taken out was woven with them before. */
  lemma {:induction false} FrontWoven(k: string, t: string) returns (gaps: seq<nat>)
    requires BarFree(t) && t <= Replace(k, EXPAND, "")
    ensures |gaps| == |t| && Woven(t, gaps) <= k
    decreases |k|
  {
    if t == "" {
      gaps := [];
    } else if EXPAND <= k {
      var fewer := FrontWoven(k[|EXPAND|..], t);
      WovenMore(t, fewer);
      gaps := fewer[0 := fewer[0] + 1];
      assert k == EXPAND + k[|EXPAND|..];
    } else {
      var rest := FrontWoven(k[1..], t[1..]);
      WovenNone(t, rest);
      gaps := [0] + rest;
      assert k == [k[0]] + k[1..];
    }
  }

  lemma PrefixAfter(x: string, y: string, k: string)
    requires x + y <= k
    ensures x <= k && y <= k[|x|..]
  {
    assert k[..|x|] == (x + y)[..|x|] == x;
    assert k[|x|..][..|y|] == k[|x|..|x| + |y|] == (x + y)[|x|..];
  }

  lemma {:induction false} WovenFront(k: string, t: string, gaps: seq<nat>)
    requires BarFree(t) && |gaps| == |t| && Woven(t, gaps) <= k
    ensures t <= Replace(k, EXPAND, "")
    decreases |k|
  {
    if t != "" {
      if gaps[0] > 0 {
        var fewer := gaps[0 := gaps[0] - 1];
        WovenMore(t, fewer);
        assert fewer[0 := fewer[0] + 1] == gaps;
        PrefixAfter(EXPAND, Woven(t, fewer), k);
        WovenFront(k[|EXPAND|..], t, fewer);
      } else {
        assert gaps == [0] + gaps[1..];
        WovenNone(t, gaps[1..]);
        PrefixAfter([t[0]], Woven(t[1..], gaps[1..]), k);
        assert k[0] == t[0] && !(EXPAND <= k);
        WovenFront(k[1..], t[1..], gaps[1..]);
        assert t == [t[0]] + t[1..];
      }
    }
  }

  /** With a gap that is not empty a bar comes where the text alone has none. */
  lemma {:induction false} WovenHasBar(t: string, gaps: seq<nat>, i: nat) returns (b: nat)
    requires |gaps| == |t| && i < |t| && gaps[i] > 0
    ensures b < |t| && b < |Woven(t, gaps)| && Woven(t, gaps)[b] == '|'
  {
    if gaps[0] > 0 {
      b := 0;
      assert Copies(gaps[0])[0] == '|';
    } else {
      assert Copies(0) == "";
      var c := WovenHasBar(t[1..], gaps[1..], i - 1);
      b := c + 1;
      assert Woven(t, gaps) == [t[0]] + Woven(t[1..], gaps[1..]);
    }
  }

  lemma {:induction false} NoGaps(t: string, gaps: seq<nat>)
    requires |gaps| == |t| && forall i :: 0 <= i < |gaps| ==> gaps[i] == 0
    ensures Woven(t, gaps) == t
  {
    if t != "" {
      NoGaps(t[1..], gaps[1..]);
      assert Copies(0) == "" && t == [t[0]] + t[1..];
    }
  }

  /** The bar of a rejoining modifier does not begin a whole one. */
  lemma RejoiningBar(k: string, n: nat, gaps: seq<nat>)
    requires RejoinsAt(k, n, gaps)
    ensures EXPAND <= k ==> n >= |EXPAND|
  {
    assert forall m :: 0 < m < |EXPAND| ==> EXPAND[m] != '|';
    if n == 0 {
      var i :| 0 <= i < |gaps| && gaps[i] > 0;
      var b := WovenHasBar(EXPAND[1..], gaps, i);
      assert k[1..][b] == k[b + 1] == '|';
    }
  }

  lemma {:induction false} RejoinsHalf(k: string) returns (n: nat, gaps: seq<nat>)
    requires Contains(Replace(k, EXPAND, ""), EXPAND)
    ensures RejoinsAt(k, n, gaps)
    decreases |k|
  {
    var r := Replace(k, EXPAND, "");
    if EXPAND <= k {
      assert r == Replace(k[|EXPAND|..], EXPAND, "");
      n, gaps := RejoinsHalf(k[|EXPAND|..]);
      Shifted(k, |EXPAND|, n, gaps);
      n := n + |EXPAND|;
    } else {
      assert r == [k[0]] + Replace(k[1..], EXPAND, "");
      if EXPAND <= r {
        var t := EXPAND[1..];
        PrefixAfter(EXPAND[..1], t, r);
        assert r[0] == k[0] && r[0] == EXPAND[0];
        assert EXPAND == EXPAND[..1] + t && r[1..] == Replace(k[1..], EXPAND, "");
        n := 0;
        gaps := FrontWoven(k[1..], t);
        assert k == [k[0]] + k[1..];
        if forall i :: 0 <= i < |gaps| ==> gaps[i] == 0 { NoGaps(t, gaps); }
      } else {
        n, gaps := RejoinsHalf(k[1..]);
        Shifted(k, 1, n, gaps);
        n := n + 1;
      }
    }
  }

  lemma Shifted(k: string, step: nat, n: nat, gaps: seq<nat>)
    requires step <= |k|
    ensures RejoinsAt(k[step..], n, gaps) <==> RejoinsAt(k, n + step, gaps)
  {
    if n < |k| - step { assert k[step..][n + 1..] == k[n + step + 1..]; }
  }

  lemma {:induction false} RejoinsOtherHalf(k: string, n: nat, gaps: seq<nat>)
    requires RejoinsAt(k, n, gaps)
    ensures Contains(Replace(k, EXPAND, ""), EXPAND)
    decreases |k|
  {
    if EXPAND <= k {
      RejoiningBar(k, n, gaps);
      Shifted(k, |EXPAND|, n - |EXPAND|, gaps);
      RejoinsOtherHalf(k[|EXPAND|..], n - |EXPAND|, gaps);
      assert Replace(k, EXPAND, "") == Replace(k[|EXPAND|..], EXPAND, "");
    } else if n == 0 {
      var t := EXPAND[1..];
      WovenFront(k[1..], t, gaps);
      assert EXPAND == ['|'] + t;
      assert EXPAND <= Replace(k, EXPAND, "");
    } else {
      Shifted(k, 1, n - 1, gaps);
      RejoinsOtherHalf(k[1..], n - 1, gaps);
      assert Replace(k, EXPAND, "")[1..] == Replace(k[1..], EXPAND, "");
    }
  }

  /** Taking the modifiers out of a key leaves one behind exactly when one is spread out around others. */
  lemma ModifierLeftIff(k: string)
    ensures Contains(Replace(k, EXPAND, ""), EXPAND) <==> Rejoins(k)
  {
    if Contains(Replace(k, EXPAND, ""), EXPAND) {
      var n, gaps := RejoinsHalf(k);
    }
    if Rejoins(k) {
      var n: nat, gaps: seq<nat> :| RejoinsAt(k, n, gaps);
      RejoinsOtherHalf(k, n, gaps);
    }
  }

  lemma {:induction false} RejoiningIsMarked(k: string)
    requires !Contains(k, EXPAND)
    ensures Replace(k, EXPAND, "") == k
  {
    if k != "" { RejoiningIsMarked(k[1..]); }
  }

  lemma KeyLeftIff(key: Yaml)
    ensures Marked(NewKey(key)) <==> key.Text? && Rejoins(key.s)
  {
    if key.Text? {
      ModifierLeftIff(key.s);
      if !Contains(key.s, EXPAND) { RejoiningIsMarked(key.s); }
    }
  }

  /** At some depth an entry that is not lost has a key in which a modifier is left. */
  ghost predicate LeftBehind(y: Yaml) {
    match y
    case Hash(pairs) => exists i :: 0 <= i < |pairs| && Survives(pairs, i) && PairLeft(pairs[i])
    case Array(items) => exists i :: 0 <= i < |items| && LeftBehind(items[i])
    case _ => false
  }

  ghost predicate PairLeft(p: Pair) { (p.key.Text? && Rejoins(p.key.s)) || LeftBehind(p.value) }

  lemma {:induction false} SubstitutesAreTexts(s: string, order: seq<Entry>)
    ensures forall i :: 0 <= i < |Substituted(s, order)| ==> Substituted(s, order)[i].Text?
  {
    if order != [] {
      SubstitutesAreTexts(s, order[..|order| - 1]);
      var e := order[|order| - 1];
      ReplacementsAreTexts(s, e.placeholder, e.values);
    }
  }

  lemma {:induction false} ReplacementsAreTexts(s: string, placeholder: Placeholder, values: seq<string>)
    ensures forall i :: 0 <= i < |ReplaceEach(s, placeholder, values)| ==> ReplaceEach(s, placeholder, values)[i].Text?
  {
    if values != [] { ReplacementsAreTexts(s, placeholder, values[..|values| - 1]); }
  }

  lemma {:induction false} PairsExpanded(pairs: seq<Pair>, order: seq<Entry>)
    ensures forall q :: q in ExpandPairs(pairs, order) ==>
              exists i :: 0 <= i < |pairs| && q == Pair(NewKey(pairs[i].key), NewValue(pairs[i], order))
  {
    if pairs != [] {
      var init, p := pairs[..|pairs| - 1], pairs[|pairs| - 1];
      PairsExpanded(init, order);
      WithoutMembers(ExpandPairs(init, order), NewKey(p.key));
      forall q | q in ExpandPairs(pairs, order)
        ensures exists i :: 0 <= i < |pairs| && q == Pair(NewKey(pairs[i].key), NewValue(pairs[i], order))
      {
        if q in ExpandPairs(init, order) {
          var i :| 0 <= i < |init| && q == Pair(NewKey(init[i].key), NewValue(init[i], order));
          assert pairs[i] == init[i];
        }
      }
    }
  }

  lemma OutcomeLeftIff(p: Pair, order: seq<Entry>)
    requires HasExpand(NewValue(p, order)) <==> LeftBehind(p.value)
    ensures PairHasExpand(Outcome(order)(p)) <==> PairLeft(p)
  {
    KeyLeftIff(p.key);
  }

  lemma PairsLeftIff(pairs: seq<Pair>, order: seq<Entry>)
    requires forall i :: 0 <= i < |pairs| ==> (PairHasExpand(Outcome(order)(pairs[i])) <==> PairLeft(pairs[i]))
    ensures HasExpand(Hash(ExpandPairs(pairs, order))) <==> LeftBehind(Hash(pairs))
  {
    var out := ExpandPairs(pairs, order);
    SurvivorsExpanded(pairs, order);
    if HasExpand(Hash(out)) {
      var n :| 0 <= n < |out| && PairHasExpand(out[n]);
      var i := SurvivorSurvives(pairs, Survivors(pairs)[n]);
      assert PairLeft(pairs[i]);
    }
    if LeftBehind(Hash(pairs)) {
      var i :| 0 <= i < |pairs| && Survives(pairs, i) && PairLeft(pairs[i]);
      LastEntryWins(pairs, order, i);
      var n :| 0 <= n < |out| && out[n] == Outcome(order)(pairs[i]);
      assert PairHasExpand(out[n]);
    }
  }

  lemma {:induction false} PassLeavesIff(y: Yaml, order: seq<Entry>)
    ensures HasExpand(Expand(y, order)) <==> LeftBehind(y)
    ensures HasExpand(ExpandValue(y, order)) <==> LeftBehind(y)
  {
    match y
    case Hash(pairs) =>
      forall i | 0 <= i < |pairs| ensures PairHasExpand(Outcome(order)(pairs[i])) <==> PairLeft(pairs[i]) {
        PassLeavesIff(pairs[i].value, order);
        OutcomeLeftIff(pairs[i], order);
      }
      PairsLeftIff(pairs, order);
    case Array(items) =>
      ItemsAre(items, order);
      forall i | 0 <= i < |items| ensures HasExpand(ExpandItems(items, order)[i]) <==> LeftBehind(items[i]) {
        PassLeavesIff(items[i], order);
      }
      assert HasExpand(Array(ExpandItems(items, order))) <==>
             exists i :: 0 <= i < |items| && HasExpand(ExpandItems(items, order)[i]);
    case Text(s) =>
      SubstitutesAreTexts(s, order);
    case _ =>
  }

  lemma {:induction false} ResultWellFormed(y: Yaml, order: seq<Entry>)
    ensures WellFormed(Expand(y, order)) && WellFormed(ExpandValue(y, order))
  {
    match y
    case Hash(pairs) =>
      PairsExpanded(pairs, order);
      var out := ExpandPairs(pairs, order);
      ExpandedKeys(pairs, order, y);
      forall n | 0 <= n < |out| ensures WellFormed(out[n].value) {
        assert out[n] in out;
        var i :| 0 <= i < |pairs| && out[n] == Pair(NewKey(pairs[i].key), NewValue(pairs[i], order));
        ResultWellFormed(pairs[i].value, order);
      }
    case Array(items) =>
      ItemsAre(items, order);
      forall i | 0 <= i < |items| ensures WellFormed(ExpandItems(items, order)[i]) {
        ResultWellFormed(items[i], order);
      }
    case Text(s) =>
      SubstitutesAreTexts(s, order);
    case _ =>
  }

  /**
   One pass is enough exactly when no entry that survives has a key in which a modifier is
   spread out around others: then none is left, and a second pass changes nothing.
   */
  lemma OnePassIsEnoughIff(y: Yaml, order: seq<Entry>, again: seq<Entry>)
    ensures HasExpand(Expand(y, order)) <==> LeftBehind(y)
    ensures Expand(Expand(y, order), again) == Expand(y, order) <==> !LeftBehind(y)
  {
    PassLeavesIff(y, order);
    ResultWellFormed(y, order);
    UnchangedIff(Expand(y, order), again);
  }

  /** Wherever the modifier occurs in a key it is a whole one: the key ends there or the next modifier begins. */
  predicate WholeModifier(k: string) {
    forall i :: 0 <= i <= |k| && EXPAND <= k[i..] ==> i + |EXPAND| == |k| || k[i + |EXPAND|] == '|'
  }

  /** Every text key of a mapping, at any depth, is of that kind. */
  predicate WholeModifiers(y: Yaml) {
    match y
    case Hash(pairs) =>
      forall i :: 0 <= i < |pairs| ==>
        (pairs[i].key.Text? ==> WholeModifier(pairs[i].key.s)) && WholeModifiers(pairs[i].value)
    case Array(items) => forall i :: 0 <= i < |items| ==> WholeModifiers(items[i])
    case _ => true
  }

  /** Behind the copies in a gap comes a character of the spread modifier, which is no bar. */
  lemma {:induction false} WovenIsNotWhole(t: string, gaps: seq<nat>, i: nat) returns (at: nat)
    requires |gaps| == |t| && i < |t| && gaps[i] > 0 && BarFree(t)
    ensures var w := Woven(t, gaps);
            at + |EXPAND| < |w| && EXPAND <= w[at..] && w[at + |EXPAND|] != '|'
    decreases |t|, if |gaps| > 0 then gaps[0] else 0
  {
    var w := Woven(t, gaps);
    if gaps[0] > 0 {
      var fewer := gaps[0 := gaps[0] - 1];
      WovenMore(t, fewer);
      assert fewer[0 := fewer[0] + 1] == gaps;
      var v := Woven(t, fewer);
      if fewer[0] == 0 {
        at := 0;
        assert Copies(0) == "" && v[0] == t[0];
      } else {
        at := WovenIsNotWhole(t, fewer, 0);
        at := at + |EXPAND|;
        assert w[at..] == v[at - |EXPAND|..];
      }
    } else {
      assert Copies(0) == "" && w == [t[0]] + Woven(t[1..], gaps[1..]);
      at := WovenIsNotWhole(t[1..], gaps[1..], i - 1);
      assert w[at + 1..] == Woven(t[1..], gaps[1..])[at..];
      at := at + 1;
    }
  }

  lemma RejoiningIsNotWhole(k: string, n: nat, gaps: seq<nat>)
    requires RejoinsAt(k, n, gaps)
    ensures !WholeModifier(k)
  {
    var i :| 0 <= i < |gaps| && gaps[i] > 0;
    var at := WovenIsNotWhole(EXPAND[1..], gaps, i);
    var w, m := Woven(EXPAND[1..], gaps), n + 1 + at;
    PartOfPart(k, n + 1, w, at, EXPAND);
    assert EXPAND <= k[m..] && k[m + |EXPAND|] == w[at + |EXPAND|];
  }

  lemma PartOfPart(k: string, from: nat, w: string, at: nat, t: string)
    requires from <= |k| && w <= k[from..] && at <= |w| && t <= w[at..]
    ensures from + |w| <= |k| && t <= k[from + at..] && forall j :: 0 <= j < |w| ==> k[from + j] == w[j]
  {
    assert k[from + at..] == k[from..][at..];
    assert w[at..] <= k[from..][at..];
  }

  /** Whole modifiers leave nothing behind. */
  lemma WholeModifierGoes(k: string)
    requires WholeModifier(k)
    ensures !Rejoins(k) && !Contains(Replace(k, EXPAND, ""), EXPAND)
  {
    if Rejoins(k) {
      var n: nat, gaps: seq<nat> :| RejoinsAt(k, n, gaps);
      RejoiningIsNotWhole(k, n, gaps);
    }
    ModifierLeftIff(k);
  }

  lemma {:induction false} WholeLeavesNothing(y: Yaml)
    requires WholeModifiers(y)
    ensures !LeftBehind(y)
  {
    match y
    case Hash(pairs) =>
      forall i | 0 <= i < |pairs| ensures !PairLeft(pairs[i]) {
        if pairs[i].key.Text? { WholeModifierGoes(pairs[i].key.s); }
        WholeLeavesNothing(pairs[i].value);
      }
    case Array(items) =>
      forall i | 0 <= i < |items| ensures !LeftBehind(items[i]) { WholeLeavesNothing(items[i]); }
    case _ =>
  }

  /** So with whole modifiers only, one pass is enough. */
  lemma OnePassIsEnough(y: Yaml, order: seq<Entry>, again: seq<Entry>)
    requires WholeModifiers(y)
    ensures !HasExpand(Expand(y, order))
    ensures Expand(Expand(y, order), again) == Expand(y, order)
  {
    WholeLeavesNothing(y);
    OnePassIsEnoughIff(y, order, again);
  }

  lemma {:induction false} TooShort(s: string, pat: string)
    requires |s| < |pat|
    ensures Replace(s, pat, "") == s
  {
    if s != "" { TooShort(s[1..], pat); }
  }

  lemma JoinedAnew(rest: string)
    requires rest == EXPAND + "expand"
    ensures Contains(['|'] + rest, EXPAND) && Replace(['|'] + rest, EXPAND, "") == EXPAND
  {
    var k := ['|'] + rest;
    assert k[1] != EXPAND[1] && k[1..] == rest;
    ReplaceSkip('|', rest, EXPAND, "");
    ReplaceHit(EXPAND, "", "expand");
    TooShort("expand", EXPAND);
  }

  /** A key for which taking one modifier out puts another together. */
  lemma ModifierLeftBehind(v: Yaml)
    ensures HasExpand(Expand(Hash([Pair(Text("|" + "|expand" + "expand"), v)]), []))
  {
    JoinedAnew(EXPAND + "expand");
    var doc := [Pair(Text("|" + "|expand" + "expand"), v)];
    assert "|" + "|expand" + "expand" == ['|'] + (EXPAND + "expand");
    OnePair(doc[0]);
  }

  lemma OnePair(p: Pair)
    requires Marked(p.key) && Marked(NewKey(p.key))
    ensures HasExpand(Expand(Hash([p]), []))
  {
    assert [p][..0] == [];
    var out := ExpandPairs([p], []);
    assert ExpandPairs([p][..0], []) == [];
    assert Without([], NewKey(p.key)) == [];
    assert out == [] + [Pair(NewKey(p.key), NewValue(p, []))];
    assert PairHasExpand(out[0]);
  }

  // ------------------------------------------------------------- hash order

  function Moved(order: seq<Entry>, i: nat): seq<Entry>
    requires i < |order|
  {
    order[..i] + order[i + 1..]
  }

  lemma MovedEntries(order: seq<Entry>, i: nat)
    requires i < |order|
    ensures multiset(Moved(order, i)) == multiset(order) - multiset{order[i]}
  {
    assert order == order[..i] + [order[i]] + order[i + 1..];
  }

  /** Taking one entry out of the order takes its substitutions out of the result. */
  lemma {:induction false} SubstitutedWithout(s: string, order: seq<Entry>, i: nat)
    requires i < |order|
    ensures multiset(Substituted(s, order))
         == multiset(Substituted(s, Moved(order, i))) + multiset(Substituted(s, [order[i]]))
  {
    var rest, e := Moved(order, i), order[i];
    assert [e][..0] == [] && Substituted(s, [e][..0]) == [];
    if i == |order| - 1 {
      assert rest == order[..i];
      assert Substituted(s, [e]) ==
        if Contains(s, e.placeholder) then [] + ReplaceEach(s, e.placeholder, e.values) else [];
    } else {
      var init := order[..|order| - 1];
      SubstitutedWithout(s, init, i);
      assert rest[..|rest| - 1] == Moved(init, i);
      assert rest[|rest| - 1] == order[|order| - 1];
    }
  }

  lemma {:induction false} SubstitutedAnyOrder(s: string, a: seq<Entry>, b: seq<Entry>)
    requires multiset(a) == multiset(b)
    ensures multiset(Substituted(s, a)) == multiset(Substituted(s, b))
    decreases |a|
  {
    if a == [] {
      assert |multiset(b)| == 0;
      assert b == [];
    } else {
      assert a[0] in multiset(b);
      var i :| 0 <= i < |b| && b[i] == a[0];
      MovedEntries(a, 0);
      MovedEntries(b, i);
      SubstitutedWithout(s, a, 0);
      SubstitutedWithout(s, b, i);
      assert [a[0]] == [b[i]];
      SubstitutedAnyOrder(s, Moved(a, 0), Moved(b, i));
    }
  }

  /**
   Two results for the document `y`: equal, but for the order of the texts in a list that
   was made of a text under a marked key.
   */
  ghost predicate Same(y: Yaml, a: Yaml, b: Yaml, marked: bool)
    decreases y
  {
    match y
    case Text(_) => a == b || (marked && a.Array? && b.Array? && multiset(a.items) == multiset(b.items))
    case Array(items) =>
      && a.Array? && b.Array? && |a.items| == |b.items| == |items|
      && forall i :: 0 <= i < |items| ==> Same(items[i], a.items[i], b.items[i], false)
    case Hash(pairs) =>
      && a.Hash? && b.Hash? && |a.pairs| == |b.pairs|
      && forall n :: 0 <= n < |a.pairs| ==>
           exists i :: 0 <= i < |pairs| && Survives(pairs, i) && SamePair(pairs[i], a.pairs[n], b.pairs[n])
    case Scalar(_) => a == b
  }

  ghost predicate SamePair(p: Pair, a: Pair, b: Pair)
    decreases p
  {
    a.key == b.key == NewKey(p.key) && Same(p.value, a.value, b.value, Marked(p.key))
  }

  lemma SameTexts(s: string, a: seq<Entry>, b: seq<Entry>)
    requires multiset(a) == multiset(b)
    ensures Same(Text(s), ExpandValue(Text(s), a), ExpandValue(Text(s), b), true)
  {
    SubstitutedAnyOrder(s, a, b);
    assert |Substituted(s, a)| == |multiset(Substituted(s, a))| == |Substituted(s, b)|;
  }

  lemma SamePairs(pairs: seq<Pair>, a: seq<Entry>, b: seq<Entry>)
    requires forall i :: 0 <= i < |pairs| ==> SamePair(pairs[i], Outcome(a)(pairs[i]), Outcome(b)(pairs[i]))
    ensures Same(Hash(pairs), Hash(ExpandPairs(pairs, a)), Hash(ExpandPairs(pairs, b)), false)
    ensures Same(Hash(pairs), Hash(ExpandPairs(pairs, a)), Hash(ExpandPairs(pairs, b)), true)
  {
    SurvivorsExpanded(pairs, a);
    SurvivorsExpanded(pairs, b);
    var x, y := ExpandPairs(pairs, a), ExpandPairs(pairs, b);
    forall n | 0 <= n < |x|
      ensures exists i :: 0 <= i < |pairs| && Survives(pairs, i) && SamePair(pairs[i], x[n], y[n])
    {
      var i := SurvivorSurvives(pairs, Survivors(pairs)[n]);
      assert x[n] == Outcome(a)(pairs[i]) && y[n] == Outcome(b)(pairs[i]);
    }
  }

  /**
   The iteration order of the placeholder table is not observable, but for the order of
   the texts within a list that a text was expanded to.
   */
  lemma {:induction false} SameExpansion(y: Yaml, a: seq<Entry>, b: seq<Entry>)
    requires multiset(a) == multiset(b)
    ensures Same(y, Expand(y, a), Expand(y, b), false)
    ensures Same(y, ExpandValue(y, a), ExpandValue(y, b), true)
  {
    match y
    case Text(s) => SameTexts(s, a, b);
    case Hash(pairs) =>
      forall i | 0 <= i < |pairs| ensures SamePair(pairs[i], Outcome(a)(pairs[i]), Outcome(b)(pairs[i])) {
        SameExpansion(pairs[i].value, a, b);
      }
      SamePairs(pairs, a, b);
    case Array(items) =>
      ItemsAre(items, a);
      ItemsAre(items, b);
      forall i | 0 <= i < |items|
        ensures Same(items[i], ExpandItems(items, a)[i], ExpandItems(items, b)[i], false)
      {
        SameExpansion(items[i], a, b);
      }
    case _ =>
  }

  lemma ChangesAnyOrder(v: Yaml, a: seq<Entry>, b: seq<Entry>)
    requires multiset(a) == multiset(b)
    ensures ValueChanges(v, a) ==> ValueChanges(v, b)
  {
    if v.Text? && ValueChanges(v, a) {
      var i :| 0 <= i < |a| && Contains(v.s, a[i].placeholder) && a[i].values != [];
      assert a[i] in multiset(b);
      var j :| 0 <= j < |b| && b[j] == a[i];
    }
  }

  /** Neither is it observable in the flags. */
  lemma {:induction false} SameFlag(y: Yaml, a: seq<Entry>, b: seq<Entry>)
    requires multiset(a) == multiset(b) && WellFormed(y) && Enables(y, a)
    ensures Enables(y, b)
  {
    match y
    case Hash(pairs) =>
      var i :| 0 <= i < |pairs| && PairEnables(pairs[i], a);
      var p := pairs[i];
      ValueChangesIff(p.value, a);
      ValueChangesIff(p.value, b);
      ChangesAnyOrder(p.value, a, b);
      if Enables(p.value, a) { SameFlag(p.value, a, b); }
      assert PairEnables(pairs[i], b);
    case Array(items) =>
      var i :| 0 <= i < |items| && Enables(items[i], a);
      SameFlag(items[i], a, b);
    case _ =>
  }
}
