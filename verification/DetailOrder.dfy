/**
 Grouping the details of a detection by key for JSON output: values are collected
 in a hash map, and the order of first appearance is restored from a list on the side.
 */
module DetailOrder {
  import opened Wrappers
  import opened Strings
  import opened Sequences

  datatype Entry = Entry(key: string, value: string)

  /** The text around the first colon; without a colon both parts are empty. */
  function SplitOnce(s: string): (string, string) {
    match ColonAt(s)
    case None => ("", "")
    case Some(i) => (s[..i], s[i + 1..])
  }

  function ColonAt(s: string): (r: Option<nat>)
    ensures r.Some? ==> r.value < |s| && s[r.value] == ':' && ':' !in s[..r.value]
    ensures r == None ==> ':' !in s
  {
    if s == "" then None
    else if s[0] == ':' then Some(0)
    else
      match ColonAt(s[1..])
      case None => None
      case Some(i) =>
        assert s[..i + 1] == [s[0]] + s[1..][..i];
        Some(i + 1)
  }

  /** `clean` is the JSON escaping of a key or a value. */
  function Parse(s: string, clean: string -> string): Entry {
    var parts := SplitOnce(s);
    Entry(clean(Strip(parts.0)), clean(Strip(parts.1)))
  }

  function ParseBy(clean: string -> string): string -> Entry { (s: string) => Parse(s, clean) }

  /** A detail is cut at its first colon, and both parts are stripped and then escaped. */
  lemma ParsePair(name: string, text: string, clean: string -> string)
    requires ':' !in name
    ensures Parse(name + ":" + text, clean) == Entry(clean(Strip(name)), clean(Strip(text)))
  {
    var s, n := name + ":" + text, |name|;
    assert s[n] == ':' && s[..n] == name && s[n + 1..] == text;
    FirstColon(name, text);
  }

  lemma {:induction false} FirstColon(name: string, text: string)
    requires ':' !in name
    ensures ColonAt(name + ":" + text) == Some(|name|)
  {
    if name != "" {
      FirstColon(name[1..], text);
      assert (name + ":" + text)[1..] == name[1..] + ":" + text;
    }
  }

  /** Without a colon both parts are empty. */
  lemma ParseNothing(s: string, clean: string -> string)
    requires ':' !in s
    ensures Parse(s, clean) == Entry(clean(""), clean(""))
  {
    assert Strip("") == "";
  }

  // ------------------------------------------------------------- what grouping means

  /** The values of a key, in input order. */
  function ValuesOf(entries: seq<Entry>, key: string): seq<string> {
    if entries == [] then []
    else
      var before, e := ValuesOf(entries[..|entries| - 1], key), entries[|entries| - 1];
      if e.key == key then before + [e.value] else before
  }

  /** The keys, in order of first appearance. */
  function FirstKeys(entries: seq<Entry>): seq<string> {
    if entries == [] then []
    else
      var before, e := FirstKeys(entries[..|entries| - 1]), entries[|entries| - 1];
      if e.key in before then before else before + [e.key]
  }

  datatype Group = Group(key: string, values: seq<string>)

  function GroupBy(entries: seq<Entry>): string -> Group { (k: string) => Group(k, ValuesOf(entries, k)) }

  function Groups(entries: seq<Entry>): seq<Group> { Map(FirstKeys(entries), GroupBy(entries)) }

  lemma {:induction false} FirstKeysAre(entries: seq<Entry>)
    ensures Distinct(FirstKeys(entries))
    ensures forall k :: k in FirstKeys(entries) <==> ValuesOf(entries, k) != []
  {
    if entries != [] { FirstKeysAre(entries[..|entries| - 1]); }
  }

  // ------------------------------------------------------------- the code

  ghost predicate Collected(entries: seq<Entry>, children: map<string, seq<string>>, order: seq<string>) {
    && order == FirstKeys(entries)
    && (forall k :: k in children <==> k in order)
    && (forall k :: k in children ==> children[k] == ValuesOf(entries, k))
  }

  method ProcessTargetStock(stock: seq<string>, clean: string -> string)
    returns (children: map<string, seq<string>>, order: seq<string>)
    ensures Collected(Map(stock, ParseBy(clean)), children, order)
  {
    children, order := map[], [];
    ghost var entries: seq<Entry> := [];
    for n := 0 to |stock|
      invariant entries == Map(stock[..n], ParseBy(clean)) && Collected(entries, children, order)
    {
      MapNext(stock, n, ParseBy(clean));
      var e := Parse(stock[n], clean);
      ghost var next := entries + [e];
      assert next[..|next| - 1] == entries;
      children, order := AddEntry(e, children, order, entries, next);
      entries := next;
    }
    assert stock[..|stock|] == stock;
  }

  method AddEntry(e: Entry, children: map<string, seq<string>>, order: seq<string>, ghost entries: seq<Entry>,
                  ghost next: seq<Entry>)
    returns (children': map<string, seq<string>>, order': seq<string>)
    requires Collected(entries, children, order)
    requires next != [] && next[..|next| - 1] == entries && next[|next| - 1] == e
    ensures Collected(next, children', order')
  {
    FirstKeysAre(entries);
    order' := if e.key !in children then order + [e.key] else order;
    var values := if e.key in children then children[e.key] else [];
    children' := children[e.key := values + [e.value]];
  }

  /**
   The restoring loop.  `listing` is the order in which the hash map yields its keys;
   the slots start out in that order and are then overwritten one by one.
   */
  method Restore(children: map<string, seq<string>>, order: seq<string>, listing: seq<string>)
    returns (slots: array<Group>)
    requires Distinct(order) && forall k :: k in children <==> k in order
    requires Distinct(listing) && |listing| == |order| && forall k :: k in listing <==> k in children
    ensures slots[..] == Map(order, GroupIn(children))
  {
    var start := Map(listing, GroupIn(children));
    slots := new Group[|listing|](i requires 0 <= i < |listing| => start[i]);
    for n := 0 to |listing|
      invariant Placed(slots[..], order, children, listing[..n])
    {
      assert listing[..n + 1] == listing[..n] + [listing[n]];
      Overwrite(slots, order, children, listing[n], listing[..n]);
    }
    assert listing[..|listing|] == listing;
    forall i | 0 <= i < |order| ensures slots[i] == GroupIn(children)(order[i]) {
      assert order[i] in order;
    }
  }

  /** The slots of these keys hold their groups. */
  ghost predicate Placed(slots: seq<Group>, order: seq<string>, children: map<string, seq<string>>, keys: seq<string>) {
    && |slots| == |order|
    && forall i :: 0 <= i < |order| && order[i] in keys ==> slots[i] == GroupIn(children)(order[i])
  }

  method Overwrite(slots: array<Group>, order: seq<string>, children: map<string, seq<string>>, k: string,
                   ghost keys: seq<string>)
    requires Distinct(order) && k in order && k in children && Placed(slots[..], order, children, keys)
    modifies slots
    ensures Placed(slots[..], order, children, keys + [k])
  {
    slots[Position(order, k)] := Group(k, children[k]);
  }

  function GroupIn(children: map<string, seq<string>>): string -> Group {
    (k: string) => if k in children then Group(k, children[k]) else Group(k, [])
  }

  /** Whatever order the hash map has, the output lists the groups in order of first appearance. */
  method GroupDetails(stock: seq<string>, clean: string -> string, listing: set<string> -> seq<string>)
    returns (slots: array<Group>)
    requires forall names :: Distinct(listing(names)) && |listing(names)| == |names|
    requires forall names, k :: k in listing(names) <==> k in names
    ensures slots[..] == Groups(Map(stock, ParseBy(clean)))
  {
    var children, order := ProcessTargetStock(stock, clean);
    ghost var entries := Map(stock, ParseBy(clean));
    FirstKeysAre(entries);
    DistinctSize(order, children.Keys);
    slots := Restore(children, order, listing(children.Keys));
    assert Map(order, GroupIn(children)) == Groups(entries) by {
      forall i | 0 <= i < |order| ensures GroupIn(children)(order[i]) == GroupBy(entries)(order[i]) {
        assert order[i] in order;
      }
    }
  }

  // ------------------------------------------------------------- nothing is lost

  function Pairs(g: Group): seq<Entry> { Map(g.values, (v: string) => Entry(g.key, v)) }

  function PairsIn(entries: seq<Entry>): string -> seq<Entry> { (k: string) => Pairs(Group(k, ValuesOf(entries, k))) }

  lemma {:induction false} SameElsewhere(order: seq<string>, f: string -> seq<Entry>, g: string -> seq<Entry>)
    requires forall k :: k in order ==> f(k) == g(k)
    ensures FlatMap(order, f) == FlatMap(order, g)
  {
    if order != [] { SameElsewhere(order[..|order| - 1], f, g); }
  }

  /** One group grows by one pair. */
  lemma {:induction false} OneGroupGrows(order: seq<string>, key: string, x: Entry, f: string -> seq<Entry>,
                                         g: string -> seq<Entry>)
    requires Distinct(order) && key in order
    requires g(key) == f(key) + [x] && forall k :: k in order && k != key ==> f(k) == g(k)
    ensures multiset(FlatMap(order, g)) == multiset(FlatMap(order, f)) + multiset{x}
  {
    var init, last := order[..|order| - 1], order[|order| - 1];
    assert order == init + [last];
    if last == key {
      SameElsewhere(init, f, g);
    } else {
      OneGroupGrows(init, key, x, f, g);
    }
  }

  lemma PairsGrow(entries: seq<Entry>, e: Entry)
    ensures PairsIn(entries + [e])(e.key) == PairsIn(entries)(e.key) + [e]
    ensures forall k :: k != e.key ==> PairsIn(entries + [e])(k) == PairsIn(entries)(k)
  {
    assert (entries + [e])[..|entries|] == entries;
  }

  /** Every input entry is written exactly once: the groups hold the same pairs as the input. */
  lemma {:induction false} GroupingIsLossless(entries: seq<Entry>)
    ensures multiset(FlatMap(FirstKeys(entries), PairsIn(entries))) == multiset(entries)
  {
    if entries != [] {
      var init, e := entries[..|entries| - 1], entries[|entries| - 1];
      assert entries == init + [e];
      GroupingIsLossless(init);
      FirstKeysAre(init);
      PairsGrow(init, e);
      var order, f, g := FirstKeys(init), PairsIn(init), PairsIn(entries);
      if e.key in order {
        OneGroupGrows(order, e.key, e, f, g);
      } else {
        SameElsewhere(order, f, g);
        assert ValuesOf(init, e.key) == [];
        assert (order + [e.key])[..|order|] == order;
        assert FlatMap(order + [e.key], g) == FlatMap(order, g) + g(e.key);
      }
    }
  }
}
