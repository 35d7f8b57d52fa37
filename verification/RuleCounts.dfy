/**
 The counts behind the scan wizard: how many rules there are for each status, level
 and tag.  A rule with several wizard tags is counted under each of them, and the
 surplus is taken off again under "duplicated".
 */
module RuleCounts {
  import opened Wrappers
  import opened Strings
  import opened Counting
  import opened Yaml
  import R = RuleLoading

  /** One counter of the nested maps: the status or list, the level, and the tag or status. */
  datatype Cell = Cell(top: string, level: string, leaf: string)

  type Container = map<Cell, int>

  predicate IsWizardTag(s: string) {
    s == "detection.emerging_threats" || s == "detection.threat_hunting" || s == "sysmon"
  }

  /** The wizard tags of a rule, with repetitions. */
  function WizardTags(tags: seq<Yaml>): seq<string> {
    if tags == [] then []
    else
      var before, tag := WizardTags(tags[..|tags| - 1]), R.TextOr(Some(tags[|tags| - 1]), "");
      if IsWizardTag(tag) then before + [tag] else before
  }

  function TagsOf(doc: Yaml): seq<string> {
    match R.TagsOf(doc) case Some(tags) => WizardTags(tags) case None => []
  }

  function LevelOf(doc: Yaml): string { Upper(R.TextOr(Lookup(doc, "level"), "informational")) }

  function ListName(l: R.Listing): string { if l.noisy then "noisy" else "excluded" }

  function AddTags(c: Container, top: string, level: string, tags: seq<string>): Container {
    if tags == [] then c
    else Shift(AddTags(c, top, level, tags[..|tags| - 1]), Cell(top, level, tags[|tags| - 1]), 1)
  }

  function AddTagged(c: Container, top: string, level: string, tags: seq<string>): Container {
    if tags == [] then Shift(c, Cell(top, level, "other"), 1)
    else
      var reduced := if |tags| > 1 then Shift(c, Cell(top, level, "duplicated"), 1 - |tags|) else c;
      AddTags(reduced, top, level, tags)
  }

  /** Where a rule goes: to its list, to its status, or nowhere. */
  datatype Place = Nowhere | OnList(top: string, leaf: string) | ByTags(top: string, tags: seq<string>)

  function PlaceOf(doc: Yaml, lists: map<string, string>): Place {
    match R.ListingOf(doc, lists)
    case Some(l) =>
      if l.counted then OnList(ListName(l), Lower(R.TextOr(Lookup(doc, "status"), "undefined"))) else Nowhere
    case None =>
      match R.Field(doc, "status")
      case Some(s) => ByTags(s, TagsOf(doc))
      case None => Nowhere
  }

  function Put(c: Container, level: string, p: Place): Container {
    match p
    case Nowhere => c
    case OnList(top, leaf) => Shift(c, Cell(top, level, leaf), 1)
    case ByTags(top, tags) => AddTagged(c, top, level, tags)
  }

  function Counted(c: Container, docs: seq<Yaml>, lists: map<string, string>): Container {
    if docs == [] then c
    else
      var d := docs[|docs| - 1];
      Put(Counted(c, docs[..|docs| - 1], lists), LevelOf(d), PlaceOf(d, lists))
  }

  method CountTagged(c: Container, top: string, level: string, tags: seq<string>) returns (r: Container)
    ensures r == AddTagged(c, top, level, tags)
  {
    if tags == [] { return Shift(c, Cell(top, level, "other"), 1); }
    r := if |tags| > 1 then Shift(c, Cell(top, level, "duplicated"), 1 - |tags|) else c;
    ghost var reduced := r;
    for n := 0 to |tags|
      invariant r == AddTags(reduced, top, level, tags[..n])
    {
      assert tags[..n + 1][..n] == tags[..n];
      r := Shift(r, Cell(top, level, tags[n]), 1);
    }
    assert tags[..|tags|] == tags;
  }

  /** The counting loop of `count_rules` over the documents of one directory. */
  method CountRules(c: Container, docs: seq<Yaml>, lists: map<string, string>) returns (r: Container)
    ensures r == Counted(c, docs, lists)
  {
    r := c;
    for n := 0 to |docs|
      invariant r == Counted(c, docs[..n], lists)
    {
      assert docs[..n + 1][..n] == docs[..n];
      match PlaceOf(docs[n], lists) {
        case Nowhere =>
        case OnList(top, leaf) => r := Shift(r, Cell(top, LevelOf(docs[n]), leaf), 1);
        case ByTags(top, tags) => r := CountTagged(r, top, LevelOf(docs[n]), tags);
      }
    }
    assert docs[..|docs|] == docs;
  }

  // ------------------------------------------------------------- the counts of a status and level

  /** The counters under one status and one level. */
  function Row(c: Container, top: string, level: string): Container {
    map k | k in c && k.top == top && k.level == level :: c[k]
  }

  lemma RowShift(c: Container, k: Cell, n: int, top: string, level: string)
    ensures Balance(Row(Shift(c, k, n), top, level))
         == Balance(Row(c, top, level)) + if k.top == top && k.level == level then n else 0
  {
    if k.top == top && k.level == level {
      assert Row(Shift(c, k, n), top, level) == Shift(Row(c, top, level), k, n);
      BalanceShift(Row(c, top, level), k, n);
    } else {
      assert Row(Shift(c, k, n), top, level) == Row(c, top, level);
    }
  }

  lemma {:induction false} TagsBalance(c: Container, t: string, l: string, tags: seq<string>, top: string,
                                       level: string)
    ensures Balance(Row(AddTags(c, t, l, tags), top, level))
         == Balance(Row(c, top, level)) + if t == top && l == level then |tags| else 0
  {
    if tags != [] {
      var init := tags[..|tags| - 1];
      TagsBalance(c, t, l, init, top, level);
      RowShift(AddTags(c, t, l, init), Cell(t, l, tags[|tags| - 1]), 1, top, level);
    }
  }

  lemma PutBalance(c: Container, l: string, p: Place, top: string, level: string)
    ensures Balance(Row(Put(c, l, p), top, level))
         == Balance(Row(c, top, level)) + if !p.Nowhere? && p.top == top && l == level then 1 else 0
  {
    match p
    case Nowhere =>
    case OnList(t, leaf) => RowShift(c, Cell(t, l, leaf), 1, top, level);
    case ByTags(t, tags) => TaggedBalance(c, t, l, tags, top, level);
  }

  lemma TaggedBalance(c: Container, t: string, l: string, tags: seq<string>, top: string, level: string)
    ensures Balance(Row(AddTagged(c, t, l, tags), top, level))
         == Balance(Row(c, top, level)) + if t == top && l == level then 1 else 0
  {
    if tags == [] {
      RowShift(c, Cell(t, l, "other"), 1, top, level);
    } else {
      var surplus := Cell(t, l, "duplicated");
      RowShift(c, surplus, 1 - |tags|, top, level);
      TagsBalance(if |tags| > 1 then Shift(c, surplus, 1 - |tags|) else c, t, l, tags, top, level);
    }
  }

  predicate GoesTo(doc: Yaml, lists: map<string, string>, top: string, level: string) {
    var p := PlaceOf(doc, lists);
    !p.Nowhere? && p.top == top && LevelOf(doc) == level
  }

  function HowMany(docs: seq<Yaml>, lists: map<string, string>, top: string, level: string): nat {
    if docs == [] then 0
    else HowMany(docs[..|docs| - 1], lists, top, level) + if GoesTo(docs[|docs| - 1], lists, top, level) then 1 else 0
  }

  /**
   However many wizard tags the rules carry, and however often, the counters under a
   status and a level add up to the number of rules there.
   */
  lemma {:induction false} RowCountsRules(c: Container, docs: seq<Yaml>, lists: map<string, string>, top: string,
                                          level: string)
    ensures Balance(Row(Counted(c, docs, lists), top, level))
         == Balance(Row(c, top, level)) + HowMany(docs, lists, top, level)
  {
    if docs != [] {
      var init, d := docs[..|docs| - 1], docs[|docs| - 1];
      RowCountsRules(c, init, lists, top, level);
      PutBalance(Counted(c, init, lists), LevelOf(d), PlaceOf(d, lists), top, level);
    }
  }

  // ------------------------------------------------------------- what every counter means

  function Occurs(items: seq<Yaml>, tag: string): nat {
    if items == [] then 0
    else Occurs(items[..|items| - 1], tag) + if items[|items| - 1] == Text(tag) then 1 else 0
  }

  /** The entries that are one of the three wizard tags. */
  function WizardEntries(items: seq<Yaml>): nat {
    Occurs(items, "detection.emerging_threats") + Occurs(items, "detection.threat_hunting") + Occurs(items, "sysmon")
  }

  function TagItems(doc: Yaml): seq<Yaml> {
    match Lookup(doc, "tags")
    case Some(Array(items)) => items
    case _ => []
  }

  /** What a rule with these tags adds to the counter of one leaf. */
  function TagShare(items: seq<Yaml>, leaf: string): int {
    var n := WizardEntries(items);
    if n == 0 then (if leaf == "other" then 1 else 0)
    else (if IsWizardTag(leaf) then Occurs(items, leaf) else 0) + (if leaf == "duplicated" then 1 - n else 0)
  }

  function ListTop(list: string): string { if Contains(list, "exclude_rule") then "excluded" else "noisy" }

  /** What one document adds to one counter, by its fields and the list that names its id. */
  function DocShare(doc: Yaml, lists: map<string, string>, k: Cell): int {
    if k.level != Upper(R.TextOr(Lookup(doc, "level"), "informational")) then 0
    else
      match Lookup(doc, "id")
      case Some(Text(id)) =>
        if id !in lists then StatusShare(doc, k)
        else if lists[id] == "00000000-0000-0000-0000-000000000000" then 0
        else if k.top == ListTop(lists[id]) && k.leaf == Lower(R.TextOr(Lookup(doc, "status"), "undefined")) then 1
        else 0
      case _ => StatusShare(doc, k)
  }

  function StatusShare(doc: Yaml, k: Cell): int {
    if Lookup(doc, "status") == Some(Text(k.top)) then TagShare(TagItems(doc), k.leaf) else 0
  }

  function Shares(docs: seq<Yaml>, lists: map<string, string>, k: Cell): int {
    if docs == [] then 0 else Shares(docs[..|docs| - 1], lists, k) + DocShare(docs[|docs| - 1], lists, k)
  }

  function TimesIn(tags: seq<string>, leaf: string): nat {
    if tags == [] then 0 else TimesIn(tags[..|tags| - 1], leaf) + if tags[|tags| - 1] == leaf then 1 else 0
  }

  lemma {:induction false} AddTagsAt(c: Container, top: string, level: string, tags: seq<string>, k: Cell)
    ensures GetInt(AddTags(c, top, level, tags), k)
         == GetInt(c, k) + if k.top == top && k.level == level then TimesIn(tags, k.leaf) else 0
  {
    if tags != [] { AddTagsAt(c, top, level, tags[..|tags| - 1], k); }
  }

  lemma NoWizardTwice(tag: string)
    ensures IsWizardTag(tag) ==>
              (if tag == "detection.emerging_threats" then 1 else 0)
              + (if tag == "detection.threat_hunting" then 1 else 0)
              + (if tag == "sysmon" then 1 else 0) == 1
  {
    assert |"sysmon"| == 6 && |"detection.emerging_threats"| == 26 && |"detection.threat_hunting"| == 24;
  }

  lemma {:induction false} WizardTagsAre(items: seq<Yaml>, leaf: string)
    ensures TimesIn(WizardTags(items), leaf) == if IsWizardTag(leaf) then Occurs(items, leaf) else 0
    ensures |WizardTags(items)| == WizardEntries(items)
  {
    if items != [] {
      var init, last := items[..|items| - 1], items[|items| - 1];
      WizardTagsAre(init, leaf);
      var tag, before := R.TextOr(Some(last), ""), WizardTags(init);
      NoWizardTwice(tag);
      assert !IsWizardTag("") by { assert |"sysmon"| == 6; }
      assert IsWizardTag(tag) ==> last == Text(tag);
      assert (before + [tag])[..|before|] == before;
    }
  }

  lemma TaggedAt(c: Container, top: string, level: string, items: seq<Yaml>, k: Cell)
    ensures GetInt(AddTagged(c, top, level, WizardTags(items)), k)
         == GetInt(c, k) + if k.top == top && k.level == level then TagShare(items, k.leaf) else 0
  {
    var tags := WizardTags(items);
    WizardTagsAre(items, k.leaf);
    if tags != [] {
      var reduced := if |tags| > 1 then Shift(c, Cell(top, level, "duplicated"), 1 - |tags|) else c;
      AddTagsAt(reduced, top, level, tags, k);
      assert GetInt(reduced, k) == GetInt(c, k) + if k == Cell(top, level, "duplicated") then 1 - |tags| else 0;
    }
  }

  lemma PlaceListed(doc: Yaml, lists: map<string, string>, id: string)
    requires Lookup(doc, "id") == Some(Text(id)) && id in lists
    ensures PlaceOf(doc, lists) ==
            if lists[id] == "00000000-0000-0000-0000-000000000000" then Nowhere
            else OnList(ListTop(lists[id]), Lower(R.TextOr(Lookup(doc, "status"), "undefined")))
  {
  }

  lemma OnListAt(c: Container, level: string, top: string, leaf: string, k: Cell)
    ensures GetInt(Put(c, level, OnList(top, leaf)), k)
         == GetInt(c, k) + if k.level == level && k.top == top && k.leaf == leaf then 1 else 0
  {
  }

  lemma PutListed(c: Container, doc: Yaml, lists: map<string, string>, k: Cell, id: string)
    requires Lookup(doc, "id") == Some(Text(id)) && id in lists
    ensures GetInt(Put(c, LevelOf(doc), PlaceOf(doc, lists)), k) == GetInt(c, k) + DocShare(doc, lists, k)
  {
    PlaceListed(doc, lists, id);
    OnListAt(c, LevelOf(doc), ListTop(lists[id]), Lower(R.TextOr(Lookup(doc, "status"), "undefined")), k);
  }

  lemma PutByStatus(c: Container, doc: Yaml, lists: map<string, string>, k: Cell)
    requires R.ListOf(doc, lists) == None
    ensures GetInt(Put(c, LevelOf(doc), PlaceOf(doc, lists)), k)
         == GetInt(c, k) + if k.level == LevelOf(doc) then StatusShare(doc, k) else 0
  {
    match R.Field(doc, "status")
    case None =>
    case Some(top) =>
      assert TagsOf(doc) == WizardTags(TagItems(doc));
      TaggedAt(c, top, LevelOf(doc), TagItems(doc), k);
  }

  lemma PutAt(c: Container, doc: Yaml, lists: map<string, string>, k: Cell)
    ensures GetInt(Put(c, LevelOf(doc), PlaceOf(doc, lists)), k) == GetInt(c, k) + DocShare(doc, lists, k)
  {
    var id := R.Field(doc, "id");
    if id.Some? && id.value in lists {
      PutListed(c, doc, lists, k, id.value);
    } else {
      PutByStatus(c, doc, lists, k);
    }
  }

  /** Every counter is the sum of what the documents add to it by their own fields. */
  lemma {:induction false} CountersMean(c: Container, docs: seq<Yaml>, lists: map<string, string>, k: Cell)
    ensures GetInt(Counted(c, docs, lists), k) == GetInt(c, k) + Shares(docs, lists, k)
  {
    if docs != [] {
      var init, d := docs[..|docs| - 1], docs[|docs| - 1];
      CountersMean(c, init, lists, k);
      PutAt(Counted(c, init, lists), d, lists, k);
    }
  }
}
