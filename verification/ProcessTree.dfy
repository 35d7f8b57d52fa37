/**
 Building a process tree from parent links nobody checks.

 A table of processes is filled from detection rows, each process is then hung
 under its parent, under a made-up parent or at the top, and the trees that hang
 from the top are sorted recursively.  The links may form cycles; `Forest` says
 what that means for the result.
 */
module ProcessTree {
  import opened Wrappers
  import opened Strings
  import opened Forest

  /** The fields of a process-create record that decide the shape of the tree. */
  datatype Rec = Rec(guid: string, pid: string, parentGuid: string, parentPid: string, parentImage: string,
                     cmdline: string, ts: string, focal: bool, detection: Option<nat>)

  /** A process of the table, by its key, or a placeholder parent, by its key. */
  datatype Id = Real(key: string) | Made(key: string)

  /** A node of the displayed tree; `visits` counts how often the recursive sort comes by. */
  class Node {
    const id: Id
    const rec: Rec
    var children: seq<Node>
    ghost var visits: nat

    constructor (id: Id, rec: Rec)
      ensures this.id == id && this.rec == rec && children == [] && visits == 0
    {
      this.id, this.rec, children, visits := id, rec, [], 0;
    }
  }

  // ------------------------------------------------------------- where a process goes

  /** Which of the four stitching loops runs: focal or host tree, keyed by GUID or by PID. */
  datatype Mode = FocalGuid | FocalPid | HostGuid | HostPid

  predicate ByGuid(mode: Mode) { mode.FocalGuid? || mode.HostGuid? }

  function KeyOf(mode: Mode, rec: Rec): string {
    if ByGuid(mode) then rec.guid else rec.pid
  }

  /** The parent a record is hung under, None for the top. */
  function ParentOf(mode: Mode, rec: Rec, keys: set<string>): Option<Id> {
    match mode
    case FocalGuid =>
      if rec.parentGuid != "" && rec.parentGuid in keys then Some(Real(rec.parentGuid)) else None
    case FocalPid =>
      if rec.parentPid != "" && rec.parentPid in keys then Some(Real(rec.parentPid)) else None
    case HostGuid =>
      if rec.parentGuid != "" && rec.parentGuid in keys then Some(Real(rec.parentGuid))
      else if rec.parentGuid != "" then Some(Made("g:" + rec.parentGuid))
      else if rec.parentImage != "" then Some(Made("pi:" + rec.parentImage))
      else None
    case HostPid =>
      if rec.parentPid != "" && rec.parentPid in keys && rec.parentPid != rec.pid then Some(Real(rec.parentPid))
      else if (rec.parentPid != "" && rec.parentPid != rec.pid) || rec.parentImage != "" then
        Some(Made(if rec.parentPid != "" then "p:" + rec.parentPid else "pi:" + rec.parentImage))
      else None
  }

  /** The record of a placeholder made for `child`. */
  function Placeholder(mode: Mode, child: Rec): Rec {
    Rec(if ByGuid(mode) then child.parentGuid else "", child.parentPid, "", "", "", "", child.ts, false, None)
  }

  /** A table of processes together with the order in which its keys were inserted. */
  ghost predicate Listed(mode: Mode, order: seq<string>, table: map<string, Node>) {
    && (forall i, j :: 0 <= i < j < |order| ==> order[i] != order[j])
    && (forall k :: k in table <==> k in order)
    && (forall k :: k in table ==> table[k].id == Real(k) && KeyOf(mode, table[k].rec) == k)
  }

  /** The processes placed under `at`, in table order. */
  function Placed(mode: Mode, order: seq<string>, table: map<string, Node>, at: Option<Id>): seq<Node>
    requires forall k :: k in order ==> k in table
  {
    if order == [] then []
    else
      var last := table[order[|order| - 1]];
      Placed(mode, order[..|order| - 1], table, at) +
        (if ParentOf(mode, last.rec, table.Keys) == at then [last] else [])
  }

  lemma {:induction false} PlacedExact(mode: Mode, order: seq<string>, table: map<string, Node>, at: Option<Id>)
    requires forall i, j :: 0 <= i < j < |order| ==> order[i] != order[j]
    requires forall k :: k in order ==> k in table && table[k].id == Real(k)
    ensures var list := Placed(mode, order, table, at);
            && (forall c :: c in list ==>
                  c.id.Real? && c.id.key in order && table[c.id.key] == c && ParentOf(mode, c.rec, table.Keys) == at)
            && (forall k :: k in order && ParentOf(mode, table[k].rec, table.Keys) == at ==> table[k] in list)
            && (forall i, j :: 0 <= i < j < |list| ==> list[i] != list[j])
  {
    if order != [] {
      var init, k := order[..|order| - 1], order[|order| - 1];
      assert order == init + [k];
      PlacedExact(mode, init, table, at);
      assert k !in init;
    }
  }

  /** `all` finds the processes of the table and the placeholders by identity. */
  ghost predicate IsAll(all: map<Id, Node>, table: map<string, Node>, made: map<string, Node>) {
    && (forall k :: Real(k) in all <==> k in table)
    && (forall s :: Made(s) in all <==> s in made)
    && (forall k :: k in table ==> all[Real(k)] == table[k])
    && (forall s :: s in made ==> all[Made(s)] == made[s])
  }

  /** `parent` holds the links the stitching follows. */
  ghost predicate IsLinks(parent: map<Id, Id>, mode: Mode, table: map<string, Node>) {
    && (forall m :: m in parent ==> m.Real? && m.key in table)
    && forall k :: k in table ==> LinkOf(parent, Real(k)) == ParentOf(mode, table[k].rec, table.Keys)
  }

  /** The link of an item, None at the top. */
  function LinkOf(parent: map<Id, Id>, m: Id): Option<Id> {
    if m in parent then Some(parent[m]) else None
  }

  lemma NameAll(table: map<string, Node>, made: map<string, Node>) returns (all: map<Id, Node>)
    ensures IsAll(all, table, made)
  {
    var ids := (set k | k in table.Keys :: Real(k)) + (set s | s in made.Keys :: Made(s));
    all := map i | i in ids :: if i.Real? then table[i.key] else made[i.key];
  }

  lemma FollowLinks(mode: Mode, table: map<string, Node>) returns (parent: map<Id, Id>)
    ensures IsLinks(parent, mode, table)
  {
    var linked := set k | k in table.Keys && ParentOf(mode, table[k].rec, table.Keys).Some?;
    var ids := set k | k in linked :: Real(k);
    parent := map i | i in ids :: ParentOf(mode, table[i.key].rec, table.Keys).value;
  }

  /** The list holds every item linked to `at` once and nothing else. */
  ghost predicate ListHolds(all: map<Id, Node>, parent: map<Id, Id>, list: seq<Node>, at: Option<Id>) {
    && (forall c :: c in list ==> c.id in all && all[c.id] == c && LinkOf(parent, c.id) == at)
    && (forall m :: m in all && LinkOf(parent, m) == at ==> all[m] in list)
    && (forall i, j :: 0 <= i < j < |list| ==> list[i] != list[j])
  }

  /** Every item is in the list its link names, once, and in no other list of children. */
  ghost predicate Wired(all: map<Id, Node>, parent: map<Id, Id>)
    reads all.Values
  {
    && (forall q :: q in all ==> all[q].id == q)
    && (forall m :: m in parent ==> m in all && parent[m] in all)
    && forall q :: q in all ==> ListHolds(all, parent, all[q].children, Some(q))
  }

  ghost predicate Labelled(made: map<string, Node>) {
    forall s :: s in made ==> made[s].id == Made(s)
  }

  /** The processes placed under an item are the ones linked to it, each once. */
  lemma PlacedHolds(mode: Mode, order: seq<string>, table: map<string, Node>, made: map<string, Node>, at: Id,
                    all: map<Id, Node>, parent: map<Id, Id>)
    requires Listed(mode, order, table) && Labelled(made)
    requires IsAll(all, table, made) && IsLinks(parent, mode, table)
    ensures ListHolds(all, parent, Placed(mode, order, table, Some(at)), Some(at))
  {
    var list := Placed(mode, order, table, Some(at));
    PlacedExact(mode, order, table, Some(at));
    forall c | c in list ensures c.id in all && all[c.id] == c && LinkOf(parent, c.id) == Some(at) {
      assert c.id == Real(c.id.key);
    }
    forall m | m in all && LinkOf(parent, m) == Some(at) ensures all[m] in list {
      assert m == Real(m.key);
    }
  }

  /** Every process has found exactly one place among the lists of children and the top. */
  lemma StitchWires(mode: Mode, order: seq<string>, table: map<string, Node>, made: map<string, Node>,
                    all: map<Id, Node>, parent: map<Id, Id>)
    requires Listed(mode, order, table) && Labelled(made)
    requires IsAll(all, table, made) && IsLinks(parent, mode, table)
    requires KidsHold(mode, order, table, made)
    ensures Wired(all, parent)
  {
    forall m | m in parent ensures m in all && parent[m] in all {
      LinkInside(mode, order, table, made, all, parent, m.key);
    }
    forall q | q in all ensures all[q].id == q && ListHolds(all, parent, all[q].children, Some(q)) {
      PlacedHolds(mode, order, table, made, q, all, parent);
      assert all[q].children == Placed(mode, order, table, Some(q)) by { match q { case Real(k) => case Made(s) => } }
    }
  }

  lemma LinkInside(mode: Mode, order: seq<string>, table: map<string, Node>, made: map<string, Node>,
                   all: map<Id, Node>, parent: map<Id, Id>, k: string)
    requires Listed(mode, order, table) && Labelled(made)
    requires IsAll(all, table, made) && IsLinks(parent, mode, table)
    requires forall s :: s !in made ==> Placed(mode, order, table, Some(Made(s))) == []
    requires k in table && Real(k) in parent
    ensures Real(k) in all && parent[Real(k)] in all
  {
    var q := ParentOf(mode, table[k].rec, table.Keys).value;
    assert LinkOf(parent, Real(k)) == Some(q);
    match q {
      case Real(p) =>
      case Made(s) => PlacedExact(mode, order, table, Some(q));
    }
  }

  function Ids(nodes: seq<Node>): seq<Id> {
    seq(|nodes|, i requires 0 <= i < |nodes| => nodes[i].id)
  }

  /** The identities at the top in the order in which the stitching loops put them there. */
  function Tops(mode: Mode, order: seq<string>, table: map<string, Node>): seq<Id>
    requires forall k :: k in order ==> k in table
  {
    if order == [] then []
    else
      var k := order[|order| - 1];
      var before := Tops(mode, order[..|order| - 1], table);
      match ParentOf(mode, table[k].rec, table.Keys)
      case None => before + [Real(k)]
      case Some(Real(_)) => before
      case Some(Made(s)) => if Made(s) in before then before else before + [Made(s)]
  }

  lemma {:induction false} TopsExact(mode: Mode, order: seq<string>, table: map<string, Node>)
    requires forall i, j :: 0 <= i < j < |order| ==> order[i] != order[j]
    requires forall k :: k in order ==> k in table
    ensures var tops := Tops(mode, order, table);
            && (forall k :: Real(k) in tops <==> k in order && ParentOf(mode, table[k].rec, table.Keys) == None)
            && (forall i, j :: 0 <= i < j < |tops| ==> tops[i] != tops[j])
  {
    if order != [] {
      var init, k := order[..|order| - 1], order[|order| - 1];
      assert order == init + [k];
      TopsExact(mode, init, table);
    }
  }

  /** What a child or a root is, seen from the table and the placeholders. */
  ghost predicate Known(c: Node, table: map<string, Node>, made: map<string, Node>) {
    match c.id
    case Real(k) => k in table && table[k] == c
    case Made(s) => s in made && made[s] == c
  }

  /** What the stitching loops have put at the top after some processes. */
  ghost predicate TopHolds(mode: Mode, order: seq<string>, table: map<string, Node>, made: map<string, Node>,
                           roots: seq<Node>)
    requires forall k :: k in order ==> k in table
  {
    && Ids(roots) == Tops(mode, order, table)
    && (forall c :: c in roots ==> Known(c, table, made))
    && (forall s :: Made(s) in Tops(mode, order, table) <==> s in made)
  }

  lemma StitchTops(mode: Mode, order: seq<string>, table: map<string, Node>, made: map<string, Node>, roots: seq<Node>,
                   all: map<Id, Node>, parent: map<Id, Id>)
    requires Listed(mode, order, table) && Labelled(made)
    requires IsAll(all, table, made) && IsLinks(parent, mode, table)
    requires TopHolds(mode, order, table, made, roots)
    ensures ListHolds(all, parent, roots, None)
  {
    TopsExact(mode, order, table);
    var tops := Tops(mode, order, table);
    assert |roots| == |tops|;
    assert forall i :: 0 <= i < |roots| ==> roots[i].id == tops[i] && Ids(roots)[i] == tops[i];
    forall c | c in roots ensures c.id in all && all[c.id] == c && LinkOf(parent, c.id) == None {
      assert Known(c, table, made);
      assert c.id in tops;
    }
    forall m | m in all && LinkOf(parent, m) == None ensures all[m] in roots {
      assert m in tops by { match m { case Real(k) => case Made(s) => } }
      var i :| 0 <= i < |tops| && tops[i] == m;
      assert Known(roots[i], table, made);
    }
  }

  /** What one round of the stitching loops does to the top and to the placeholders. */
  ghost predicate Hung(place: Option<Id>, node: Node, made: map<string, Node>, roots: seq<Node>,
                       made': map<string, Node>, roots': seq<Node>)
  {
    match place
    case None => made' == made && roots' == roots + [node]
    case Some(Real(_)) => made' == made && roots' == roots
    case Some(Made(s)) =>
      if s in made then made' == made && roots' == roots
      else s in made' && made' == made[s := made'[s]] && roots' == roots + [made'[s]] && made'[s] !in roots
  }

  predicate Extended(made: map<string, Node>, made': map<string, Node>) {
    made.Keys <= made'.Keys && forall s :: s in made ==> made'[s] == made[s]
  }

  /** What a process adds to the list of children of `at`: itself, or nothing. */
  function Share(mode: Mode, node: Node, keys: set<string>, at: Option<Id>): seq<Node> {
    if ParentOf(mode, node.rec, keys) == at then [node] else []
  }

  /** A placeholder made when this process was hung. */
  predicate MadeOf(mode: Mode, node: Node, table: map<string, Node>, made: Node) {
    made.rec == Placeholder(mode, node.rec) && ParentOf(mode, node.rec, table.Keys) == Some(made.id)
  }

  /** Every placeholder was made for one of the processes placed under it. */
  predicate MadeFor(mode: Mode, table: map<string, Node>, made: map<string, Node>) {
    forall s :: s in made ==> exists k :: k in table && MadeOf(mode, table[k], table, made[s])
  }

  method Hang(mode: Mode, node: Node, table: map<string, Node>, roots: seq<Node>, made: map<string, Node>)
    returns (roots': seq<Node>, made': map<string, Node>)
    requires (forall k :: k in table ==> table[k].id == Real(k)) && Labelled(made)
    modifies table.Values`children, made.Values`children
    ensures Hung(ParentOf(mode, node.rec, table.Keys), node, made, roots, made', roots') && Labelled(made')
    ensures forall k :: k in table ==>
              table[k].children ==
              old(table[k].children) + Share(mode, node, table.Keys, Some(Real(k)))
    ensures forall s :: s in made ==>
              made[s].children ==
              old(made[s].children) + Share(mode, node, table.Keys, Some(Made(s)))
    ensures forall s :: s in made' && s !in made ==> made'[s].children == [node] && MadeOf(mode, node, table, made'[s])
    ensures Extended(made, made') && forall o :: o in made'.Values ==> o in made.Values || fresh(o)
    ensures mode.FocalGuid? || mode.FocalPid? ==> made' == made
  {
    roots', made' := roots, made;
    var place := ParentOf(mode, node.rec, table.Keys);
    match place {
      case None => roots' := roots + [node];
      case Some(Real(p)) => table[p].children := table[p].children + [node];
      case Some(Made(s)) =>
        if s !in made {
          var sp := new Node(Made(s), Placeholder(mode, node.rec));
          roots' := roots + [sp];
          made' := made[s := sp];
        }
        made'[s].children := made'[s].children + [node];
    }
  }

  lemma PlacedStep(mode: Mode, order: seq<string>, i: nat, table: map<string, Node>, at: Option<Id>)
    requires i < |order| && forall k :: k in order ==> k in table
    ensures Placed(mode, order[..i + 1], table, at) ==
            Placed(mode, order[..i], table, at) + Share(mode, table[order[i]], table.Keys, at)
  {
    assert order[..i + 1][..i] == order[..i];
  }

  lemma TopStep(mode: Mode, order: seq<string>, i: nat, table: map<string, Node>, made: map<string, Node>,
                roots: seq<Node>, made': map<string, Node>, roots': seq<Node>)
    requires i < |order| && Listed(mode, order, table) && TopHolds(mode, order[..i], table, made, roots)
    requires Labelled(made')
    requires Hung(ParentOf(mode, table[order[i]].rec, table.Keys), table[order[i]], made, roots, made', roots')
    ensures TopHolds(mode, order[..i + 1], table, made', roots')
  {
    assert order[..i + 1][..i] == order[..i];
    var added := roots'[|roots|..];
    assert Ids(roots') == Ids(roots) + Ids(added);
  }

  ghost predicate RealsHold(mode: Mode, order: seq<string>, table: map<string, Node>)
    requires forall k :: k in order ==> k in table
    reads table.Values
  {
    forall k :: k in table ==> table[k].children == Placed(mode, order, table, Some(Real(k)))
  }

  ghost predicate MadesHold(mode: Mode, order: seq<string>, table: map<string, Node>, made: map<string, Node>)
    requires forall k :: k in order ==> k in table
    reads made.Values
  {
    && (forall s :: s in made ==> made[s].children == Placed(mode, order, table, Some(Made(s))) != [])
    && (forall s :: s !in made ==> Placed(mode, order, table, Some(Made(s))) == [])
  }

  /** The children lists after some processes have been hung. */
  ghost predicate KidsHold(mode: Mode, order: seq<string>, table: map<string, Node>, made: map<string, Node>)
    requires forall k :: k in order ==> k in table
    reads table.Values, made.Values
  {
    RealsHold(mode, order, table) && MadesHold(mode, order, table, made)
  }

  /** A list that has grown by its share holds what is placed there up to the next process. */
  lemma Grown(mode: Mode, order: seq<string>, i: nat, table: map<string, Node>, at: Option<Id>, before: seq<Node>,
              after: seq<Node>)
    requires i < |order| && forall k :: k in order ==> k in table
    requires before == Placed(mode, order[..i], table, at)
    requires after == before + Share(mode, table[order[i]], table.Keys, at)
    ensures after == Placed(mode, order[..i + 1], table, at)
  {
    PlacedStep(mode, order, i, table, at);
  }

  lemma StillEmpty(mode: Mode, order: seq<string>, i: nat, table: map<string, Node>, made: set<string>)
    requires i < |order| && forall k :: k in order ==> k in table
    requires forall s :: s !in made ==> Placed(mode, order[..i], table, Some(Made(s))) == []
    requires forall s :: s !in made ==> ParentOf(mode, table[order[i]].rec, table.Keys) != Some(Made(s))
    ensures forall s :: s !in made ==> Placed(mode, order[..i + 1], table, Some(Made(s))) == []
  {
    forall s | s !in made ensures Placed(mode, order[..i + 1], table, Some(Made(s))) == [] {
      Grown(mode, order, i, table, Some(Made(s)), [], []);
    }
  }

  /** The loop body: the i-th process of the table is hung. */
  method HangNext(mode: Mode, order: seq<string>, i: nat, table: map<string, Node>, roots: seq<Node>,
                  made: map<string, Node>)
    returns (roots': seq<Node>, made': map<string, Node>)
    requires Listed(mode, order, table) && i < |order|
    requires KidsHold(mode, order[..i], table, made) && Labelled(made)
    modifies table.Values`children, made.Values`children
    ensures KidsHold(mode, order[..i + 1], table, made') && Labelled(made')
    ensures Hung(ParentOf(mode, table[order[i]].rec, table.Keys), table[order[i]], made, roots, made', roots')
    ensures forall s :: s in made' && s !in made ==> MadeOf(mode, table[order[i]], table, made'[s])
    ensures Extended(made, made') && forall o :: o in made'.Values ==> o in made.Values || fresh(o)
    ensures mode.FocalGuid? || mode.FocalPid? ==> made' == made
  {
    roots', made' := Hang(mode, table[order[i]], table, roots, made);
    assert RealsHold(mode, order[..i + 1], table) by {
      forall k | k in table ensures table[k].children == Placed(mode, order[..i + 1], table, Some(Real(k))) {
        Grown(mode, order, i, table, Some(Real(k)), old(table[k].children), table[k].children);
      }
    }
    assert MadesHold(mode, order[..i + 1], table, made') by {
      forall s | s in made' ensures made'[s].children == Placed(mode, order[..i + 1], table, Some(Made(s))) != [] {
        Grown(mode, order, i, table, Some(Made(s)), if s in made then old(made[s].children) else [],
              made'[s].children);
      }
      StillEmpty(mode, order, i, table, made'.Keys);
    }
  }

  /** The children lists, the placeholders and the top after the first `i` processes. */
  ghost predicate HungSoFar(mode: Mode, order: seq<string>, i: nat, table: map<string, Node>, made: map<string, Node>,
                            roots: seq<Node>)
    requires i <= |order| && forall k :: k in order ==> k in table
    reads table.Values, made.Values
  {
    && KidsHold(mode, order[..i], table, made) && Labelled(made)
    && TopHolds(mode, order[..i], table, made, roots) && MadeFor(mode, table, made)
  }

  /** The loop body together with what it does to the top. */
  method HangOne(mode: Mode, order: seq<string>, i: nat, table: map<string, Node>, roots: seq<Node>,
                 made: map<string, Node>)
    returns (roots': seq<Node>, made': map<string, Node>)
    requires Listed(mode, order, table) && i < |order|
    requires HungSoFar(mode, order, i, table, made, roots)
    modifies table.Values`children, made.Values`children
    ensures HungSoFar(mode, order, i + 1, table, made', roots')
    ensures forall o :: o in made'.Values ==> o in made.Values || fresh(o)
    ensures mode.FocalGuid? || mode.FocalPid? ==> made' == made
  {
    roots', made' := HangNext(mode, order, i, table, roots, made);
    TopStep(mode, order, i, table, made, roots, made', roots');
    MadeForMore(mode, order[i], table, made, made');
  }

  lemma MadeForMore(mode: Mode, k: string, table: map<string, Node>, made: map<string, Node>, made': map<string, Node>)
    requires k in table && MadeFor(mode, table, made) && Extended(made, made')
    requires forall s :: s in made' && s !in made ==> MadeOf(mode, table[k], table, made'[s])
    ensures MadeFor(mode, table, made')
  {
  }

  method HangAll(mode: Mode, order: seq<string>, table: map<string, Node>)
    returns (roots: seq<Node>, made: map<string, Node>)
    requires Listed(mode, order, table)
    requires forall k :: k in table ==> table[k].children == []
    modifies table.Values`children
    ensures KidsHold(mode, order, table, made) && Labelled(made) && TopHolds(mode, order, table, made, roots)
    ensures MadeFor(mode, table, made)
    ensures forall o :: o in made.Values ==> fresh(o)
    ensures mode.FocalGuid? || mode.FocalPid? ==> made == map[]
  {
    roots, made := [], map[];
    var n := |order|;
    HungNone(mode, order, table);
    for i := 0 to n
      invariant HungSoFar(mode, order, i, table, made, roots)
      invariant forall o :: o in made.Values ==> fresh(o)
      invariant mode.FocalGuid? || mode.FocalPid? ==> made == map[]
    {
      roots, made := HangOne(mode, order, i, table, roots, made);
    }
    HungThrough(mode, order, table, made, roots);
  }

  lemma HungNone(mode: Mode, order: seq<string>, table: map<string, Node>)
    requires (forall k :: k in order ==> k in table) && forall k :: k in table ==> table[k].children == []
    ensures HungSoFar(mode, order, 0, table, map[], [])
  {
  }

  lemma HungThrough(mode: Mode, order: seq<string>, table: map<string, Node>, made: map<string, Node>, roots: seq<Node>)
    requires (forall k :: k in order ==> k in table) && HungSoFar(mode, order, |order|, table, made, roots)
    ensures KidsHold(mode, order, table, made) && Labelled(made) && TopHolds(mode, order, table, made, roots)
    ensures MadeFor(mode, table, made)
  {
    assert order[..|order|] == order;
  }

  method Stitch(mode: Mode, order: seq<string>, table: map<string, Node>)
    returns (roots: seq<Node>, made: map<string, Node>, ghost all: map<Id, Node>, ghost parent: map<Id, Id>)
    requires Listed(mode, order, table)
    requires forall k :: k in table ==> table[k].children == []
    modifies table.Values`children
    ensures KidsHold(mode, order, table, made) && Labelled(made) && MadeFor(mode, table, made)
    ensures forall o :: o in made.Values ==> fresh(o)
    ensures mode.FocalGuid? || mode.FocalPid? ==> made == map[]
    ensures IsAll(all, table, made) && IsLinks(parent, mode, table)
    ensures Wired(all, parent) && ListHolds(all, parent, roots, None)
  {
    roots, made := HangAll(mode, order, table);
    all := NameAll(table, made);
    parent := FollowLinks(mode, table);
    StitchWires(mode, order, table, made, all, parent);
    StitchTops(mode, order, table, made, roots, all, parent);
  }

  // ------------------------------------------------------------- sorting

  /** `n` goes after every node that is not later than it, as a stable sort puts it. */
  function Insert(s: seq<Node>, n: Node): seq<Node> {
    if s == [] then [n]
    else if Le(s[|s| - 1].rec.ts, n.rec.ts) then s + [n]
    else Insert(s[..|s| - 1], n) + [s[|s| - 1]]
  }

  /** Python's `sort(key=ts)`. */
  function SortByTs(s: seq<Node>): seq<Node> {
    if s == [] then [] else Insert(SortByTs(s[..|s| - 1]), s[|s| - 1])
  }

  ghost predicate InOrder(s: seq<Node>) {
    forall i, j :: 0 <= i < j < |s| ==> Le(s[i].rec.ts, s[j].rec.ts)
  }

  /** The nodes of one timestamp, in the order of the list. */
  function At(s: seq<Node>, ts: string): seq<Node> {
    if s == [] then []
    else At(s[..|s| - 1], ts) + (if s[|s| - 1].rec.ts == ts then [s[|s| - 1]] else [])
  }

  lemma {:induction false} InsertPermutes(s: seq<Node>, n: Node)
    ensures multiset(Insert(s, n)) == multiset(s) + multiset{n}
  {
    if s != [] {
      assert s == s[..|s| - 1] + [s[|s| - 1]];
      InsertPermutes(s[..|s| - 1], n);
    }
  }

  lemma {:induction false} InsertStable(s: seq<Node>, n: Node, ts: string)
    ensures At(Insert(s, n), ts) == At(s, ts) + if n.rec.ts == ts then [n] else []
  {
    if s != [] {
      var init, last := s[..|s| - 1], s[|s| - 1];
      if Le(last.rec.ts, n.rec.ts) {
        assert (s + [n])[..|s|] == s;
      } else {
        InsertStable(init, n, ts);
        var t := Insert(init, n);
        assert (t + [last])[..|t|] == t;
        LeTotal(last.rec.ts, last.rec.ts);
      }
    }
  }

  lemma {:induction false} InsertSorts(s: seq<Node>, n: Node)
    requires InOrder(s)
    ensures InOrder(Insert(s, n))
  {
    if s != [] {
      var init, last := s[..|s| - 1], s[|s| - 1];
      if Le(last.rec.ts, n.rec.ts) {
        forall i | 0 <= i < |s| ensures Le(s[i].rec.ts, n.rec.ts) {
          if i < |s| - 1 { LeTransitive(s[i].rec.ts, last.rec.ts, n.rec.ts); }
        }
      } else {
        LeTotal(last.rec.ts, n.rec.ts);
        InsertSorts(init, n);
        InsertPermutes(init, n);
        var t := Insert(init, n);
        forall i | 0 <= i < |t| ensures Le(t[i].rec.ts, last.rec.ts) {
          assert t[i] in multiset(t);
          assert t[i] == n || t[i] in init;
        }
      }
    }
  }

  /** The sort only reorders, ends in time order and keeps the order of equal times. */
  lemma {:induction false} SortByTsSorts(s: seq<Node>)
    ensures InOrder(SortByTs(s)) && multiset(SortByTs(s)) == multiset(s)
    ensures forall ts :: At(SortByTs(s), ts) == At(s, ts)
  {
    if s != [] {
      var init, last := s[..|s| - 1], s[|s| - 1];
      assert s == init + [last];
      SortByTsSorts(init);
      InsertSorts(SortByTs(init), last);
      InsertPermutes(SortByTs(init), last);
      forall ts { InsertStable(SortByTs(init), last, ts); }
    }
  }

  lemma ListHoldsSorted(all: map<Id, Node>, parent: map<Id, Id>, list: seq<Node>, at: Option<Id>)
    requires ListHolds(all, parent, list, at)
    ensures ListHolds(all, parent, SortByTs(list), at)
  {
    var sorted := SortByTs(list);
    SortByTsSorts(list);
    forall i | 0 <= i < |sorted| ensures sorted[i] in list {
      assert sorted[i] in multiset(sorted);
    }
    forall i | 0 <= i < |list| ensures list[i] in sorted {
      assert list[i] in multiset(list);
    }
    NoRepeats(list);
    Repeated(sorted);
  }

  lemma {:induction false} NoRepeats(list: seq<Node>)
    requires forall i, j :: 0 <= i < j < |list| ==> list[i] != list[j]
    ensures forall c :: multiset(list)[c] <= 1
  {
    if list != [] {
      var init, last := list[..|list| - 1], list[|list| - 1];
      assert list == init + [last];
      NoRepeats(init);
      assert last !in init;
    }
  }

  lemma Repeated(list: seq<Node>)
    requires forall c :: multiset(list)[c] <= 1
    ensures forall i, j :: 0 <= i < j < |list| ==> list[i] != list[j]
  {
    forall i, j | 0 <= i < j < |list| ensures list[i] != list[j] {
      var a, b := list[..j], list[j..];
      assert list == a + b;
      assert a[i] in multiset(a) && b[0] in multiset(b);
      assert multiset(list)[list[i]] == multiset(a)[list[i]] + multiset(b)[list[i]];
    }
  }

  // ------------------------------------------------------------- the recursive sort

  /** A node's list of children and the number of times the sort has come by. */
  datatype Snap = Snap(children: seq<Node>, visits: nat)

  /** Since the snapshots exactly the nodes of `done` have been visited, once, and sorted. */
  ghost predicate Progress(all: map<Id, Node>, start: map<Id, Snap>, done: set<Id>)
    reads all.Values
  {
    && start.Keys == all.Keys
    && forall m :: m in all ==>
         if m in done
         then all[m].children == SortByTs(start[m].children) && all[m].visits == start[m].visits + 1
         else all[m].children == start[m].children && all[m].visits == start[m].visits
  }

  ghost function BelowSet(all: map<Id, Node>, parent: map<Id, Id>, path: seq<Id>): set<Id> {
    set m | m in all && Below(parent, path, m)
  }

  /** What the sort has reached after the first `n` children of the end of `path`. */
  ghost function ReachedSet(all: map<Id, Node>, parent: map<Id, Id>, path: seq<Id>, kids: seq<Node>, n: nat): set<Id>
    requires path != [] && n <= |kids|
  {
    if n == 0 then {path[|path| - 1]}
    else ReachedSet(all, parent, path, kids, n - 1) + BelowSet(all, parent, path + [kids[n - 1].id])
  }

  ghost predicate Inside(all: map<Id, Node>, path: seq<Id>) {
    forall i :: 0 <= i < |path| ==> path[i] in all
  }

  lemma {:induction false} InReached(all: map<Id, Node>, parent: map<Id, Id>, path: seq<Id>, kids: seq<Node>, n: nat,
                                     m: Id)
    requires path != [] && n <= |kids|
    ensures m in ReachedSet(all, parent, path, kids, n) <==>
            m == path[|path| - 1] || exists j :: 0 <= j < n && m in BelowSet(all, parent, path + [kids[j].id])
  {
    if n > 0 { InReached(all, parent, path, kids, n - 1, m); }
  }

  lemma ReachedAll(all: map<Id, Node>, parent: map<Id, Id>, path: seq<Id>, kids: seq<Node>)
    requires IsPath(parent, path) && Inside(all, path)
    requires forall c :: c in parent ==> c in all && all[c].id == c
    requires ListHolds(all, parent, kids, Some(path[|path| - 1]))
    ensures ReachedSet(all, parent, path, kids, |kids|) == BelowSet(all, parent, path)
  {
    var end := path[|path| - 1];
    forall j | 0 <= j < |kids| ensures kids[j].id in parent && parent[kids[j].id] == end {
      assert kids[j] in kids;
    }
    forall m ensures m in ReachedSet(all, parent, path, kids, |kids|) <==> m in BelowSet(all, parent, path) {
      InReached(all, parent, path, kids, |kids|, m);
      BelowSplit(parent, path, m);
      forall c | m in all && c in parent && parent[c] == end && Below(parent, path + [c], m)
        ensures m in ReachedSet(all, parent, path, kids, |kids|)
      {
        assert LinkOf(parent, c) == Some(end);
        assert all[c] in kids;
        var j :| 0 <= j < |kids| && kids[j] == all[c];
        assert m in BelowSet(all, parent, path + [kids[j].id]);
      }
    }
  }

  /** Siblings share no descendants, and no node is below itself. */
  lemma NotReached(all: map<Id, Node>, parent: map<Id, Id>, path: seq<Id>, kids: seq<Node>, i: nat)
    requires IsPath(parent, path) && i < |kids|
    requires (forall q :: q in all ==> all[q].id == q) && ListHolds(all, parent, kids, Some(path[|path| - 1]))
    ensures BelowSet(all, parent, path + [kids[i].id]) !! ReachedSet(all, parent, path, kids, i)
  {
    forall m | m in BelowSet(all, parent, path + [kids[i].id])
      ensures m !in ReachedSet(all, parent, path, kids, i)
    {
      InReached(all, parent, path, kids, i, m);
      BelowIsProper(parent, path, kids[i].id);
      forall j | 0 <= j < i ensures m !in BelowSet(all, parent, path + [kids[j].id]) {
        assert kids[i] in kids && kids[j] in kids && kids[i].id != kids[j].id;
        if Below(parent, path + [kids[j].id], m) {
          BelowApart(parent, path, kids[i].id, kids[j].id, m);
        }
      }
    }
  }

  lemma BelowNarrows(all: map<Id, Node>, parent: map<Id, Id>, path: seq<Id>, c: Id)
    ensures BelowSet(all, parent, path + [c]) <= BelowSet(all, parent, path)
  {
    forall m | m in BelowSet(all, parent, path + [c]) ensures Below(parent, path, m) {
      var p :| PathTo(parent, p, m) && path + [c] <= p;
      assert path <= p;
    }
  }

  /** The step from a node down to its i-th child. */
  lemma Descend(all: map<Id, Node>, parent: map<Id, Id>, path: seq<Id>, kids: seq<Node>, i: nat)
    requires IsPath(parent, path) && Inside(all, path) && i < |kids|
    requires forall q :: q in all ==> all[q].id == q
    requires ListHolds(all, parent, kids, Some(path[|path| - 1]))
    ensures var child := kids[i]; var down := path + [child.id];
            && child.id in all && all[child.id] == child
            && PathTo(parent, down, child.id) && Inside(all, down) && |down| <= |all|
            && BelowSet(all, parent, down) !! ReachedSet(all, parent, path, kids, i)
            && BelowSet(all, parent, down) <= BelowSet(all, parent, path)
            && ReachedSet(all, parent, path, kids, i + 1) ==
                 ReachedSet(all, parent, path, kids, i) + BelowSet(all, parent, down)
  {
    var child := kids[i];
    var down := path + [child.id];
    assert child in kids;
    PathExtend(parent, path, child.id);
    PathBound(parent, down, all.Keys);
    NotReached(all, parent, path, kids, i);
    BelowNarrows(all, parent, path, child.id);
  }

  lemma UnionAssoc(a: set<Id>, b: set<Id>, c: set<Id>)
    ensures (a + b) + c == a + (b + c)
  {
  }

  lemma DisjointParts(done: set<Id>, below: set<Id>, reached: set<Id>, next: set<Id>)
    requires done !! below && next <= below && next !! reached
    ensures (done + reached) !! next
  {
  }

  /** The tree the snapshots were taken of is wired, before and after its lists are sorted. */
  ghost predicate Shape(all: map<Id, Node>, parent: map<Id, Id>, start: map<Id, Snap>) {
    && start.Keys == all.Keys
    && (forall q :: q in all ==> all[q].id == q)
    && (forall m :: m in parent ==> m in all && parent[m] in all)
    && (forall q {:trigger ListHolds(all, parent, start[q].children, Some(q))} :: q in all ==>
          ListHolds(all, parent, start[q].children, Some(q)))
    && (forall q {:trigger ListHolds(all, parent, SortByTs(start[q].children), Some(q))} :: q in all ==>
          ListHolds(all, parent, SortByTs(start[q].children), Some(q)))
  }

  /** The in-place sort of one list of children. */
  method SortOwn(node: Node, ghost all: map<Id, Node>, ghost start: map<Id, Snap>, ghost done: set<Id>)
    requires (forall q :: q in all ==> all[q].id == q) && node.id in all && all[node.id] == node
    requires Progress(all, start, done) && node.id !in done
    modifies node`children, node`visits
    ensures Progress(all, start, done + {node.id})
    ensures node.children == SortByTs(start[node.id].children)
  {
    node.children := SortByTs(node.children);
    node.visits := node.visits + 1;
  }

  /**
   The recursive sort.  It ends because the path to the current node cannot
   repeat a node; it reaches exactly what hangs below the node, each once.
   */
  method SortNode(node: Node, ghost all: map<Id, Node>, ghost parent: map<Id, Id>, ghost path: seq<Id>,
                  ghost start: map<Id, Snap>, ghost done: set<Id>)
    requires Shape(all, parent, start) && node.id in all && all[node.id] == node
    requires PathTo(parent, path, node.id) && Inside(all, path)
    requires Progress(all, start, done) && done !! BelowSet(all, parent, path)
    modifies all.Values`children, all.Values`visits
    ensures Progress(all, start, done + BelowSet(all, parent, path))
    decreases |all| - |path|, 2
  {
    assert node.id !in done by { assert Below(parent, path, node.id); }
    SortOwn(node, all, start, done);
    ghost var kids := node.children;
    SortChildren(node, kids, all, parent, path, start, done);
    ReachedAll(all, parent, path, kids);
  }

  /** The loop over the children of a node whose own list is sorted. */
  method SortChildren(node: Node, ghost kids: seq<Node>, ghost all: map<Id, Node>, ghost parent: map<Id, Id>,
                      ghost path: seq<Id>, ghost start: map<Id, Snap>, ghost done: set<Id>)
    requires Shape(all, parent, start) && node.id in all && all[node.id] == node
    requires PathTo(parent, path, node.id) && Inside(all, path) && done !! BelowSet(all, parent, path)
    requires node.children == kids == SortByTs(start[node.id].children)
    requires Progress(all, start, done + ReachedSet(all, parent, path, kids, 0))
    modifies all.Values`children, all.Values`visits
    ensures Progress(all, start, done + ReachedSet(all, parent, path, kids, |kids|))
    decreases |all| - |path|, 1
  {
    var i, n := 0, |node.children|;
    while i < n
      invariant node.children == kids && n == |kids| && 0 <= i <= n
      invariant Progress(all, start, done + ReachedSet(all, parent, path, kids, i))
    {
      SortChild(node, i, all, parent, path, start, done);
      i := i + 1;
    }
  }

  /** The body of the loop over the children. */
  method SortChild(node: Node, i: nat, ghost all: map<Id, Node>, ghost parent: map<Id, Id>, ghost path: seq<Id>,
                   ghost start: map<Id, Snap>, ghost done: set<Id>)
    requires Shape(all, parent, start) && node.id in all && all[node.id] == node
    requires PathTo(parent, path, node.id) && Inside(all, path)
    requires node.children == SortByTs(start[node.id].children) && i < |node.children|
    requires Progress(all, start, done + ReachedSet(all, parent, path, node.children, i))
    requires done !! BelowSet(all, parent, path)
    modifies all.Values`children, all.Values`visits
    ensures node.children == old(node.children)
    ensures Progress(all, start, done + ReachedSet(all, parent, path, node.children, i + 1))
    decreases |all| - |path|, 0
  {
    var child := node.children[i];
    ghost var down := path + [child.id];
    ghost var reached := ReachedSet(all, parent, path, node.children, i);
    Descend(all, parent, path, node.children, i);
    InReached(all, parent, path, node.children, i, node.id);
    ghost var next := BelowSet(all, parent, down);
    DisjointParts(done, BelowSet(all, parent, path), reached, next);
    SortNode(child, all, parent, down, start, done + reached);
    UnionAssoc(done, reached, next);
  }

  // ------------------------------------------------------------- the whole forest

  /** The nodes whose ancestor chain ends. */
  ghost function RootedSet(all: map<Id, Node>, parent: map<Id, Id>): set<Id> {
    set m | m in all && Rooted(parent, m)
  }

  ghost function BelowRoots(all: map<Id, Node>, parent: map<Id, Id>, roots: seq<Node>, n: nat): set<Id>
    requires n <= |roots|
  {
    if n == 0 then {} else BelowRoots(all, parent, roots, n - 1) + BelowSet(all, parent, [roots[n - 1].id])
  }

  lemma {:induction false} InBelowRoots(all: map<Id, Node>, parent: map<Id, Id>, roots: seq<Node>, n: nat, m: Id)
    requires n <= |roots|
    ensures m in BelowRoots(all, parent, roots, n) <==>
            exists j :: 0 <= j < n && m in BelowSet(all, parent, [roots[j].id])
  {
    if n > 0 { InBelowRoots(all, parent, roots, n - 1, m); }
  }

  lemma RootsApart(all: map<Id, Node>, parent: map<Id, Id>, roots: seq<Node>, i: nat)
    requires i < |roots| && (forall q :: q in all ==> all[q].id == q) && ListHolds(all, parent, roots, None)
    ensures BelowRoots(all, parent, roots, i) !! BelowSet(all, parent, [roots[i].id])
  {
    forall m | m in BelowSet(all, parent, [roots[i].id]) ensures m !in BelowRoots(all, parent, roots, i) {
      InBelowRoots(all, parent, roots, i, m);
      forall j | 0 <= j < i ensures m !in BelowSet(all, parent, [roots[j].id]) {
        assert roots[i] in roots && roots[j] in roots && roots[i].id != roots[j].id;
        assert [] + [roots[i].id] == [roots[i].id] && [] + [roots[j].id] == [roots[j].id];
        if Below(parent, [roots[j].id], m) {
          BelowApart(parent, [], roots[i].id, roots[j].id, m);
        }
      }
    }
  }

  lemma RootsReachRooted(all: map<Id, Node>, parent: map<Id, Id>, roots: seq<Node>)
    requires (forall q :: q in all ==> all[q].id == q) && ListHolds(all, parent, roots, None)
    requires forall m :: m in parent ==> m in all && parent[m] in all
    ensures BelowRoots(all, parent, roots, |roots|) == RootedSet(all, parent)
  {
    forall m | m in all
      ensures m in BelowRoots(all, parent, roots, |roots|) <==> Rooted(parent, m)
    {
      InBelowRoots(all, parent, roots, |roots|, m);
      forall p | PathTo(parent, p, m) ensures m in BelowRoots(all, parent, roots, |roots|) {
        RootOfPath(all, parent, p, m);
        assert LinkOf(parent, p[0]) == None && all[p[0]] in roots;
        var j :| 0 <= j < |roots| && roots[j] == all[p[0]];
        assert [roots[j].id] <= p;
      }
    }
    forall m | m in BelowRoots(all, parent, roots, |roots|) ensures m in all {
      InBelowRoots(all, parent, roots, |roots|, m);
    }
  }

  lemma {:induction false} RootOfPath(all: map<Id, Node>, parent: map<Id, Id>, p: seq<Id>, m: Id)
    requires PathTo(parent, p, m) && m in all
    requires forall c :: c in parent ==> c in all && parent[c] in all
    ensures Inside(all, p)
    decreases |p|
  {
    if |p| > 1 {
      PathPrefix(parent, p, |p| - 1);
      RootOfPath(all, parent, p[..|p| - 1], p[|p| - 2]);
    }
  }

  /** The body of the loop over the sorted top. */
  method SortTop(roots: seq<Node>, i: nat, ghost all: map<Id, Node>, ghost parent: map<Id, Id>,
                 ghost start: map<Id, Snap>)
    requires Shape(all, parent, start) && ListHolds(all, parent, roots, None)
    requires i < |roots| && Progress(all, start, BelowRoots(all, parent, roots, i))
    modifies all.Values`children, all.Values`visits
    ensures Progress(all, start, BelowRoots(all, parent, roots, i + 1))
  {
    var r := roots[i];
    assert r in roots && LinkOf(parent, r.id) == None;
    RootsApart(all, parent, roots, i);
    SortNode(r, all, parent, [r.id], start, BelowRoots(all, parent, roots, i));
  }

  /** Sorts the top and, from there, every list the top leads to. */
  method SortForest(roots: seq<Node>, ghost all: map<Id, Node>, ghost parent: map<Id, Id>, ghost start: map<Id, Snap>)
    returns (sorted: seq<Node>)
    requires Shape(all, parent, start) && ListHolds(all, parent, roots, None)
    requires Progress(all, start, {})
    modifies all.Values`children, all.Values`visits
    ensures sorted == SortByTs(roots) && ListHolds(all, parent, sorted, None)
    ensures Progress(all, start, RootedSet(all, parent))
  {
    sorted := SortByTs(roots);
    ListHoldsSorted(all, parent, roots, None);
    var i := 0;
    while i < |sorted|
      invariant 0 <= i <= |sorted|
      invariant Progress(all, start, BelowRoots(all, parent, sorted, i))
    {
      SortTop(sorted, i, all, parent, start);
      i := i + 1;
    }
    assert i == |sorted|;
    RootsReachRooted(all, parent, sorted);
  }

  // ------------------------------------------------------------- filling the tables

  const MAX_NODES := 400

  /** The key under which a record enters the table by GUID or the table by PID; "" if it does not. */
  function TableKey(r: Rec, guid: bool): string {
    if guid then r.guid else if r.guid == "" then r.pid else ""
  }

  /** How a table treats a second record for a key: keep the longest command line or the first record. */
  datatype Policy = Policy(guid: bool, longest: bool, marksFocal: bool)

  /** The row whose record a key ends up with. */
  function Winner(rows: seq<Rec>, p: Policy, key: string): Option<nat> {
    if rows == [] then None
    else
      var before := Winner(rows[..|rows| - 1], p, key);
      var last := rows[|rows| - 1];
      if TableKey(last, p.guid) != key then before
      else match before
        case None => Some(|rows| - 1)
        case Some(w) =>
          if p.longest && w < |rows| && |last.cmdline| > |rows[w].cmdline| then Some(|rows| - 1) else before
  }

  /** The first detection link among the rows of a key from the winning row on. */
  function LinkSince(rows: seq<Rec>, p: Policy, key: string, w: nat): Option<nat> {
    if |rows| <= w then None
    else
      var before := LinkSince(rows[..|rows| - 1], p, key, w);
      if before.Some? || TableKey(rows[|rows| - 1], p.guid) != key then before else rows[|rows| - 1].detection
  }

  function Keys(rows: seq<Rec>, guid: bool): seq<string> {
    if rows == [] then []
    else
      var before := Keys(rows[..|rows| - 1], guid);
      var k := TableKey(rows[|rows| - 1], guid);
      if k == "" || k in before then before else before + [k]
  }

  /** Some row of the key, from the winning row on, is the focal row. */
  predicate FocalSince(rows: seq<Rec>, p: Policy, key: string, w: nat) {
    if |rows| <= w then false
    else
      var last := rows[|rows| - 1];
      FocalSince(rows[..|rows| - 1], p, key, w) || (TableKey(last, p.guid) == key && last.focal)
  }

  lemma {:induction false} FocalSinceIff(rows: seq<Rec>, p: Policy, key: string, w: nat)
    ensures FocalSince(rows, p, key, w) <==>
            exists i :: w <= i < |rows| && rows[i].focal && TableKey(rows[i], p.guid) == key
  {
    if |rows| > w {
      var init := rows[..|rows| - 1];
      FocalSinceIff(init, p, key, w);
      assert forall i :: 0 <= i < |init| ==> init[i] == rows[i];
    }
  }

  /** What the rows so far have made of the entry for a key. */
  ghost predicate EntryFor(rows: seq<Rec>, p: Policy, k: string, e: Rec) {
    var w := Winner(rows, p, k);
    && w.Some? && w.value < |rows|
    && e == rows[w.value].(
         focal := if p.marksFocal then FocalSince(rows, p, k, w.value) else rows[w.value].focal,
         detection := if p.longest then LinkSince(rows, p, k, w.value) else rows[w.value].detection)
  }

  /** A table after the rows so far. */
  ghost predicate Filled(rows: seq<Rec>, p: Policy, order: seq<string>, table: map<string, Rec>) {
    && order == Keys(rows, p.guid)
    && (forall k :: k in table <==> k in order)
    && "" !in order
    && (forall k :: k != "" && k !in order ==> Winner(rows, p, k) == None)
    && (forall k :: k in table ==> EntryFor(rows, p, k, table[k]))
  }

  /** A row of another key leaves the entry alone. */
  lemma OtherKey(rows: seq<Rec>, p: Policy, k: string)
    requires rows != [] && TableKey(rows[|rows| - 1], p.guid) != k
    ensures Winner(rows, p, k) == Winner(rows[..|rows| - 1], p, k)
    ensures forall w: nat :: w < |rows| - 1 ==> LinkSince(rows, p, k, w) == LinkSince(rows[..|rows| - 1], p, k, w)
    ensures forall w: nat :: w < |rows| - 1 ==> (FocalSince(rows, p, k, w) <==> FocalSince(rows[..|rows| - 1], p, k, w))
  {
  }

  /** The winning row has the longest command line of its key and is the first that long. */
  lemma {:induction false} WinnerIsLongest(rows: seq<Rec>, p: Policy, key: string)
    requires p.longest && key != ""
    ensures var w := Winner(rows, p, key);
            && (w == None <==> forall i :: 0 <= i < |rows| ==> TableKey(rows[i], p.guid) != key)
            && (w.Some? ==> w.value < |rows| && TableKey(rows[w.value], p.guid) == key)
            && (w.Some? ==>
                  forall i :: 0 <= i < |rows| && TableKey(rows[i], p.guid) == key ==>
                       && |rows[i].cmdline| <= |rows[w.value].cmdline|
                       && (i < w.value ==> |rows[i].cmdline| < |rows[w.value].cmdline|))
  {
    if rows != [] {
      WinnerIsLongest(rows[..|rows| - 1], p, key);
      assert rows == rows[..|rows| - 1] + [rows[|rows| - 1]];
    }
  }

  /**
   The focal mark survives the merge exactly when no record of the same process
   with a strictly longer command line than all before it comes after the focal row.
   */
  lemma FocalMarkSurvivesIff(rows: seq<Rec>, p: Policy, f: nat)
    requires p.longest && f < |rows| && rows[f].focal && TableKey(rows[f], p.guid) != ""
    requires forall i :: 0 <= i < |rows| && rows[i].focal ==> i == f
    ensures var key := TableKey(rows[f], p.guid);
            && Winner(rows, p, key).Some?
            && (FocalSince(rows, p, key, Winner(rows, p, key).value) <==>
                forall j :: f < j < |rows| && TableKey(rows[j], p.guid) == key ==>
                  exists i :: 0 <= i < j && TableKey(rows[i], p.guid) == key && |rows[i].cmdline| >= |rows[j].cmdline|)
  {
    var key := TableKey(rows[f], p.guid);
    WinnerIsLongest(rows, p, key);
    var w := Winner(rows, p, key).value;
    FocalSinceIff(rows, p, key, w);
    if w <= f {
      forall j | f < j < |rows| && TableKey(rows[j], p.guid) == key
        ensures exists i :: 0 <= i < j && TableKey(rows[i], p.guid) == key && |rows[i].cmdline| >= |rows[j].cmdline|
      {
        assert 0 <= w < j && TableKey(rows[w], p.guid) == key;
      }
    }
  }

  /** It is lost when the process is recorded again with a longer command line. */
  lemma FocalMarkIsLost(order: seq<string>, table: map<string, Rec>)
    requires Filled([Rec("g", "", "", "", "", "cmd", "", true, None),
                     Rec("g", "", "", "", "", "cmd /c", "", false, None)],
                    GuidPolicy(false), order, table)
    ensures "g" in table && !table["g"].focal
  {
    var first := Rec("g", "", "", "", "", "cmd", "", true, None);
    var second := Rec("g", "", "", "", "", "cmd /c", "", false, None);
    var p := GuidPolicy(false);
    assert [first, second][..1] == [first] && [first][..0] == [];
    assert Winner([first], p, "g") == Some(0);
    assert Winner([first, second], p, "g") == Some(1);
    assert !FocalSince([first, second], p, "g", 1);
    assert Keys([first], true) == ["g"];
    assert "g" in table && EntryFor([first, second], p, "g", table["g"]);
  }

  /** One record enters its table: the longest command line wins, marks and links are carried over. */
  method Upsert(ghost before: seq<Rec>, r: Rec, p: Policy, order: seq<string>, table: map<string, Rec>)
    returns (order': seq<string>, table': map<string, Rec>)
    requires TableKey(r, p.guid) != "" && (p.marksFocal ==> p.longest)
    requires Filled(before, p, order, table)
    ensures Filled(before + [r], p, order', table')
  {
    order', table' := order, table;
    var key := TableKey(r, p.guid);
    ghost var rows := before + [r];
    assert rows[..|rows| - 1] == before;
    if key !in table || (p.longest && |r.cmdline| > |table[key].cmdline|) {
      if key !in table { order' := order + [key]; }
      table' := table[key := r];
    }
    if p.longest {
      if p.marksFocal && r.focal { table' := table'[key := table'[key].(focal := true)]; }
      if r.detection.Some? && table'[key].detection.None? {
        table' := table'[key := table'[key].(detection := r.detection)];
      }
    }
    assert EntryFor(rows, p, key, table'[key]);
    OthersKept(before, r, p, order, table, order', table');
  }

  /** The entries of the other keys need not be touched. */
  lemma OthersKept(before: seq<Rec>, r: Rec, p: Policy, order: seq<string>, table: map<string, Rec>,
                   order': seq<string>, table': map<string, Rec>)
    requires Filled(before, p, order, table) && TableKey(r, p.guid) != ""
    requires order' == if TableKey(r, p.guid) in order then order else order + [TableKey(r, p.guid)]
    requires table'.Keys == table.Keys + {TableKey(r, p.guid)}
    requires forall k :: k in table && k != TableKey(r, p.guid) ==> table'[k] == table[k]
    requires EntryFor(before + [r], p, TableKey(r, p.guid), table'[TableKey(r, p.guid)])
    ensures Filled(before + [r], p, order', table')
  {
    var rows := before + [r];
    assert rows[..|rows| - 1] == before;
    forall k | k in table && k != TableKey(r, p.guid) ensures EntryFor(rows, p, k, table[k]) {
      OtherKey(rows, p, k);
    }
    forall k | k != "" && k !in order' ensures Winner(rows, p, k) == None {
      OtherKey(rows, p, k);
    }
  }

  lemma {:induction false} KeysDistinct(rows: seq<Rec>, guid: bool)
    ensures forall i, j :: 0 <= i < j < |Keys(rows, guid)| ==> Keys(rows, guid)[i] != Keys(rows, guid)[j]
  {
    if rows != [] {
      var before, k := Keys(rows[..|rows| - 1], guid), TableKey(rows[|rows| - 1], guid);
      KeysDistinct(rows[..|rows| - 1], guid);
      var all := Keys(rows, guid);
      assert all == before || (all == before + [k] && k !in before);
      forall i, j | 0 <= i < j < |all| ensures all[i] != all[j] {
        assert all[i] == before[i];
      }
    }
  }

  lemma {:induction false} TableSize(order: seq<string>, keys: set<string>)
    requires forall i, j :: 0 <= i < j < |order| ==> order[i] != order[j]
    requires forall k :: k in keys <==> k in order
    ensures |keys| == |order|
    decreases |order|
  {
    if order == [] {
      assert keys == {};
    } else {
      var init, last := order[..|order| - 1], order[|order| - 1];
      assert order == init + [last];
      TableSize(init, keys - {last});
    }
  }

  lemma {:induction false} WinnerKey(rows: seq<Rec>, p: Policy, key: string)
    ensures var w := Winner(rows, p, key);
            w.Some? ==> w.value < |rows| && TableKey(rows[w.value], p.guid) == key
  {
    if rows != [] { WinnerKey(rows[..|rows| - 1], p, key); }
  }

  lemma FilledSkip(before: seq<Rec>, r: Rec, p: Policy, order: seq<string>, table: map<string, Rec>)
    requires TableKey(r, p.guid) == "" && Filled(before, p, order, table)
    ensures Filled(before + [r], p, order, table)
  {
    var rows := before + [r];
    assert rows[..|rows| - 1] == before;
    forall k | k != "" ensures Winner(rows, p, k) == Winner(before, p, k) { OtherKey(rows, p, k); }
    forall k | k in table ensures EntryFor(rows, p, k, table[k]) { OtherKey(rows, p, k); }
  }

  /** A filled table lists each key once, and each record under its own key. */
  lemma FilledListed(rows: seq<Rec>, p: Policy, order: seq<string>, table: map<string, Rec>)
    requires Filled(rows, p, order, table)
    ensures forall i, j :: 0 <= i < j < |order| ==> order[i] != order[j]
    ensures |table| == |order|
    ensures forall k :: k in table ==> TableKey(table[k], p.guid) == k
  {
    KeysDistinct(rows, p.guid);
    TableSize(order, table.Keys);
    assert |table| == |table.Keys|;
    forall k | k in table ensures TableKey(table[k], p.guid) == k {
      assert EntryFor(rows, p, k, table[k]);
      WinnerKey(rows, p, k);
    }
  }

  function GuidPolicy(host: bool): Policy { Policy(true, true, !host) }

  function PidPolicy(host: bool): Policy { Policy(false, host, false) }

  /** The two dictionaries, each with its insertion order. */
  datatype Tables = Tables(gOrder: seq<string>, byGuid: map<string, Rec>, pOrder: seq<string>, byPid: map<string, Rec>)

  ghost predicate BothFilled(host: bool, rows: seq<Rec>, t: Tables) {
    && Filled(rows, GuidPolicy(host), t.gOrder, t.byGuid)
    && Filled(rows, PidPolicy(host), t.pOrder, t.byPid)
  }

  // ------------------------------------------------------------- the tables in the fields of the rows

  /** The row is of this process: by its GUID, or for a row without one by its PID. */
  predicate Of(r: Rec, guid: bool, key: string) {
    key != "" && if guid then r.guid == key else r.guid == "" && r.pid == key
  }

  /** Row `w` is the first of this process with the longest command line. */
  predicate LongestOf(rows: seq<Rec>, guid: bool, key: string, w: nat) {
    && w < |rows| && Of(rows[w], guid, key)
    && forall i :: 0 <= i < |rows| && Of(rows[i], guid, key) ==>
         |rows[i].cmdline| <= |rows[w].cmdline| && (i < w ==> |rows[i].cmdline| < |rows[w].cmdline|)
  }

  predicate FirstOf(rows: seq<Rec>, guid: bool, key: string, w: nat) {
    w < |rows| && Of(rows[w], guid, key) && forall i :: 0 <= i < w ==> !Of(rows[i], guid, key)
  }

  /** `link` is the first detection link among the rows of this process from row `w` on. */
  predicate FirstLink(rows: seq<Rec>, guid: bool, key: string, w: nat, link: Option<nat>) {
    match link
    case None => forall i :: w <= i < |rows| && Of(rows[i], guid, key) ==> rows[i].detection == None
    case Some(_) =>
      exists i :: w <= i < |rows| && Of(rows[i], guid, key) && rows[i].detection == link
                  && forall j :: w <= j < i && Of(rows[j], guid, key) ==> rows[j].detection == None
  }

  lemma {:induction false} LinkSinceIs(rows: seq<Rec>, p: Policy, key: string, w: nat)
    requires key != ""
    ensures FirstLink(rows, p.guid, key, w, LinkSince(rows, p, key, w))
  {
    if |rows| > w {
      var init, last := rows[..|rows| - 1], rows[|rows| - 1];
      LinkSinceIs(init, p, key, w);
      assert rows == init + [last] && (Of(last, p.guid, key) <==> TableKey(last, p.guid) == key);
      var before := LinkSince(init, p, key, w);
      if before.Some? {
        var i :| w <= i < |init| && Of(init[i], p.guid, key) && init[i].detection == before
                 && forall j :: w <= j < i && Of(init[j], p.guid, key) ==> init[j].detection == None;
        assert rows[i] == init[i] && forall j :: w <= j < i ==> rows[j] == init[j];
      } else {
        assert forall i :: w <= i < |init| ==> rows[i] == init[i];
        assert rows[|init|] == last;
      }
    }
  }

  lemma {:induction false} WinnerIsFirst(rows: seq<Rec>, p: Policy, key: string)
    requires !p.longest && key != ""
    ensures var w := Winner(rows, p, key);
            && (w == None <==> forall i :: 0 <= i < |rows| ==> !Of(rows[i], p.guid, key))
            && (w.Some? ==> FirstOf(rows, p.guid, key, w.value))
  {
    if rows != [] {
      var init, last := rows[..|rows| - 1], rows[|rows| - 1];
      WinnerIsFirst(init, p, key);
      assert Of(last, p.guid, key) <==> TableKey(last, p.guid) == key;
      assert rows[|init|] == last && forall i :: 0 <= i < |init| ==> rows[i] == init[i];
      if Winner(init, p, key) == None && Of(last, p.guid, key) { assert FirstOf(rows, p.guid, key, |init|); }
    }
  }

  /** All but the mark and the link are those of this row. */
  predicate SameButMarks(e: Rec, r: Rec) { e == r.(focal := e.focal, detection := e.detection) }

  /**
   The entry of a process is its longest record with the first link from there on.  Around a detection the
   mark of the focal row is carried over to later rows; in the tree of a host every row has its own.
   */
  ghost predicate LongestEntry(rows: seq<Rec>, guid: bool, host: bool, key: string, e: Rec) {
    exists w: nat :: LongestOf(rows, guid, key, w) && SameButMarks(e, rows[w])
                     && FirstLink(rows, guid, key, w, e.detection)
                     && (e.focal <==> if host then rows[w].focal
                                      else exists i :: w <= i < |rows| && Of(rows[i], guid, key) && rows[i].focal)
  }

  /** Around a detection the processes known by PID alone keep their first record as it is. */
  ghost predicate FirstEntry(rows: seq<Rec>, key: string, e: Rec) {
    exists w: nat :: FirstOf(rows, false, key, w) && e == rows[w]
  }

  /** Which processes the two tables hold, and which record each of them has. */
  ghost predicate TablesSay(host: bool, rows: seq<Rec>, t: Tables) {
    && (forall k :: k in t.byGuid <==> exists i :: 0 <= i < |rows| && Of(rows[i], true, k))
    && (forall k :: k in t.byPid <==> exists i :: 0 <= i < |rows| && Of(rows[i], false, k))
    && (forall k :: k in t.byGuid ==> LongestEntry(rows, true, host, k, t.byGuid[k]))
    && (forall k :: k in t.byPid ==>
          if host then LongestEntry(rows, false, host, k, t.byPid[k]) else FirstEntry(rows, k, t.byPid[k]))
  }

  lemma LongestEntryIs(rows: seq<Rec>, p: Policy, host: bool, key: string, e: Rec)
    requires p.longest && key != "" && EntryFor(rows, p, key, e) && (p.marksFocal <==> !host)
    ensures LongestEntry(rows, p.guid, host, key, e)
  {
    WinnerIsLongest(rows, p, key);
    var w := Winner(rows, p, key).value;
    LinkSinceIs(rows, p, key, w);
    FocalSinceIff(rows, p, key, w);
    assert forall i :: 0 <= i < |rows| ==> (Of(rows[i], p.guid, key) <==> TableKey(rows[i], p.guid) == key);
    assert LongestOf(rows, p.guid, key, w);
  }

  lemma {:induction false} KeysAre(rows: seq<Rec>, guid: bool, k: string)
    ensures k in Keys(rows, guid) <==> exists i :: 0 <= i < |rows| && Of(rows[i], guid, k)
  {
    if rows != [] {
      var init, last := rows[..|rows| - 1], rows[|rows| - 1];
      KeysAre(init, guid, k);
      assert Of(last, guid, k) <==> k != "" && TableKey(last, guid) == k;
      assert forall i :: 0 <= i < |init| ==> init[i] == rows[i];
      assert rows[|init|] == last;
    }
  }

  lemma TablesInFields(host: bool, rows: seq<Rec>, t: Tables)
    requires BothFilled(host, rows, t)
    ensures TablesSay(host, rows, t)
  {
    forall k ensures k in t.byGuid <==> exists i :: 0 <= i < |rows| && Of(rows[i], true, k) { KeysAre(rows, true, k); }
    forall k ensures k in t.byPid <==> exists i :: 0 <= i < |rows| && Of(rows[i], false, k) { KeysAre(rows, false, k); }
    forall k | k in t.byGuid ensures LongestEntry(rows, true, host, k, t.byGuid[k]) {
      LongestEntryIs(rows, Policy(true, true, !host), host, k, t.byGuid[k]);
    }
    forall k | k in t.byPid
      ensures if host then LongestEntry(rows, false, host, k, t.byPid[k]) else FirstEntry(rows, k, t.byPid[k])
    {
      PidEntry(host, rows, k, t.byPid[k]);
    }
  }

  lemma PidEntry(host: bool, rows: seq<Rec>, k: string, e: Rec)
    requires k != "" && EntryFor(rows, PidPolicy(host), k, e)
    ensures if host then LongestEntry(rows, false, host, k, e) else FirstEntry(rows, k, e)
  {
    if host {
      LongestEntryIs(rows, PidPolicy(host), host, k, e);
    } else {
      WinnerIsFirst(rows, PidPolicy(host), k);
      assert e == rows[Winner(rows, PidPolicy(host), k).value];
    }
  }

  /** One detection row: by GUID if it has one, else by PID, else not at all. */
  method TakeRow(host: bool, ghost before: seq<Rec>, r: Rec, t: Tables) returns (t': Tables)
    requires BothFilled(host, before, t)
    ensures BothFilled(host, before + [r], t')
    ensures |t'.byGuid| + |t'.byPid| <= |t.byGuid| + |t.byPid| + 1
  {
    t' := t;
    FilledSizes(host, before, t);
    if r.guid != "" {
      FilledSkip(before, r, PidPolicy(host), t.pOrder, t.byPid);
      var order, table := Upsert(before, r, GuidPolicy(host), t.gOrder, t.byGuid);
      t' := t.(gOrder := order, byGuid := table);
    } else if r.pid != "" {
      FilledSkip(before, r, GuidPolicy(host), t.gOrder, t.byGuid);
      var order, table := Upsert(before, r, PidPolicy(host), t.pOrder, t.byPid);
      t' := t.(pOrder := order, byPid := table);
    } else {
      FilledSkip(before, r, GuidPolicy(host), t.gOrder, t.byGuid);
      FilledSkip(before, r, PidPolicy(host), t.pOrder, t.byPid);
    }
    FilledSizes(host, before + [r], t');
    KeysGrow(before, r);
  }

  lemma FilledSizes(host: bool, rows: seq<Rec>, t: Tables)
    requires BothFilled(host, rows, t)
    ensures |t.byGuid| == |Keys(rows, true)| && |t.byPid| == |Keys(rows, false)|
  {
    FilledListed(rows, GuidPolicy(host), t.gOrder, t.byGuid);
    FilledListed(rows, PidPolicy(host), t.pOrder, t.byPid);
  }

  /** Another row adds at most one key to one of the tables. */
  lemma KeysGrow(before: seq<Rec>, r: Rec)
    ensures |Keys(before + [r], true)| + |Keys(before + [r], false)| <= |Keys(before, true)| + |Keys(before, false)| + 1
  {
    assert (before + [r])[..|before|] == before;
  }

  /** The first `n` rows. */
  ghost function FirstRows(rows: seq<Rec>, n: nat): seq<Rec>
    requires n <= |rows|
  {
    if n == 0 then [] else FirstRows(rows, n - 1) + [rows[n - 1]]
  }

  lemma {:induction false} FirstRowsAre(rows: seq<Rec>, n: nat)
    requires n <= |rows|
    ensures FirstRows(rows, n) == rows[..n]
  {
    if n > 0 { FirstRowsAre(rows, n - 1); }
  }

  /** Rows are read until both tables together hold MAX_NODES processes. */
  method FillTables(host: bool, rows: seq<Rec>) returns (t: Tables, truncated: bool, n: nat)
    ensures n <= |rows| && BothFilled(host, FirstRows(rows, n), t)
    ensures |t.byGuid| + |t.byPid| <= MAX_NODES
    ensures if truncated then |t.byGuid| + |t.byPid| == MAX_NODES else n == |rows|
  {
    t, truncated, n := Tables([], map[], [], map[]), false, 0;
    while n < |rows|
      invariant n <= |rows| && BothFilled(host, FirstRows(rows, n), t)
      invariant |t.byGuid| + |t.byPid| < MAX_NODES && !truncated
    {
      t := TakeRow(host, FirstRows(rows, n), rows[n], t);
      n := n + 1;
      if |t.byGuid| + |t.byPid| >= MAX_NODES {
        truncated := true;
        return;
      }
    }
  }

  lemma TablesOfRows(host: bool, rows: seq<Rec>, n: nat, t: Tables)
    requires n <= |rows| && BothFilled(host, FirstRows(rows, n), t)
    ensures TablesSay(host, rows[..n], t)
  {
    TablesInFields(host, FirstRows(rows, n), t);
    FirstRowsAre(rows, n);
  }

  /** The node objects of a table of records. */
  method Materialise(mode: Mode, order: seq<string>, recs: map<string, Rec>) returns (table: map<string, Node>)
    requires forall i, j :: 0 <= i < j < |order| ==> order[i] != order[j]
    requires forall k :: k in recs <==> k in order
    requires forall k :: k in recs ==> KeyOf(mode, recs[k]) == k
    ensures Listed(mode, order, table) && forall k :: k in table ==> table[k].rec == recs[k]
    ensures forall k :: k in table ==> fresh(table[k]) && table[k].children == []
  {
    table := map[];
    for i := 0 to |order|
      invariant forall j :: 0 <= j < i ==> order[j] in table
      invariant forall k :: k in table ==> exists j :: 0 <= j < i && order[j] == k
      invariant forall k :: k in table ==> k in recs && table[k].id == Real(k) && table[k].rec == recs[k]
      invariant forall k :: k in table ==> fresh(table[k]) && table[k].children == []
    {
      var k := order[i];
      assert k in recs;
      var node := new Node(Real(k), recs[k]);
      table := table[k := node];
    }
  }

  lemma ShapeOf(all: map<Id, Node>, parent: map<Id, Id>) returns (start: map<Id, Snap>)
    requires Wired(all, parent)
    ensures Shape(all, parent, start) && Progress(all, start, {})
    ensures forall q :: q in all ==> start[q] == Snap(all[q].children, all[q].visits)
  {
    start := map q | q in all :: Snap(all[q].children, all[q].visits);
    forall q | q in all ensures ListHolds(all, parent, SortByTs(start[q].children), Some(q)) {
      ListHoldsSorted(all, parent, start[q].children, Some(q));
    }
  }

  /** Everything a caller may want to know about a finished tree. */
  ghost predicate Finished(all: map<Id, Node>, parent: map<Id, Id>, start: map<Id, Snap>, roots: seq<Node>)
    reads all.Values
  {
    && Shape(all, parent, start) && (forall q :: q in all ==> start[q].visits == 0)
    && Progress(all, start, RootedSet(all, parent))
    && ListHolds(all, parent, roots, None) && InOrder(roots)
  }

  /** Visits are counted from the beginning of the sort, for which the lists are recorded. */
  ghost method StartCounting(all: map<Id, Node>, parent: map<Id, Id>) returns (start: map<Id, Snap>)
    requires Wired(all, parent)
    modifies all.Values`visits
    ensures Shape(all, parent, start) && Progress(all, start, {})
    ensures forall q :: q in all ==> start[q].visits == 0
  {
    forall o | o in all.Values { o.visits := 0; }
    start := ShapeOf(all, parent);
  }

  /** Stitches one table and sorts the result. */
  method StitchAndSort(mode: Mode, order: seq<string>, recs: map<string, Rec>)
    returns (roots: seq<Node>, table: map<string, Node>, ghost made: map<string, Node>,
             ghost all: map<Id, Node>, ghost parent: map<Id, Id>, ghost start: map<Id, Snap>)
    requires forall i, j :: 0 <= i < j < |order| ==> order[i] != order[j]
    requires forall k :: k in recs <==> k in order
    requires forall k :: k in recs ==> KeyOf(mode, recs[k]) == k
    ensures Listed(mode, order, table) && forall k :: k in table ==> table[k].rec == recs[k]
    ensures IsAll(all, table, made) && IsLinks(parent, mode, table) && MadeFor(mode, table, made)
    ensures Finished(all, parent, start, roots)
  {
    table := Materialise(mode, order, recs);
    var tops;
    tops, made, all, parent := Stitch(mode, order, table);
    assert forall o :: o in all.Values ==> fresh(o) by {
      forall q | q in all ensures fresh(all[q]) {
        match q { case Real(k) => case Made(s) => assert made[s] in made.Values; }
      }
    }
    start := StartCounting(all, parent);
    roots := SortForest(tops, all, parent, start);
    SortByTsSorts(tops);
  }

  /** The links and the objects a finished tree was built from. */
  datatype Plan = Plan(mode: Mode, table: map<string, Node>, made: map<string, Node>,
                       all: map<Id, Node>, parent: map<Id, Id>, start: map<Id, Snap>)

  /** `plan` describes a finished tree over the records `recs`. */
  ghost predicate BuiltFrom(plan: Plan, order: seq<string>, recs: map<string, Rec>, roots: seq<Node>)
    reads plan.all.Values
  {
    && Listed(plan.mode, order, plan.table)
    && (forall k :: k in recs <==> k in plan.table)
    && (forall k :: k in recs ==> plan.table[k].rec == recs[k])
    && IsAll(plan.all, plan.table, plan.made) && IsLinks(plan.parent, plan.mode, plan.table)
    && MadeFor(plan.mode, plan.table, plan.made)
    && Finished(plan.all, plan.parent, plan.start, roots)
  }

  // ------------------------------------------------------------- the tree in terms of the records

  /** The recorded parent of a process, which in the host tree by PID is not the process itself. */
  predicate Fathers(mode: Mode, rec: Rec, q: string) {
    match mode
    case FocalGuid => rec.parentGuid == q
    case HostGuid => rec.parentGuid == q
    case FocalPid => rec.parentPid == q
    case HostPid => rec.parentPid == q && rec.pid != q
  }

  /** Nothing known is above this process: no known parent, and in the host trees no named one either. */
  predicate OnTop(mode: Mode, rec: Rec, keys: set<string>) {
    match mode
    case FocalGuid => rec.parentGuid == "" || rec.parentGuid !in keys
    case FocalPid => rec.parentPid == "" || rec.parentPid !in keys
    case HostGuid => rec.parentGuid == "" && rec.parentImage == ""
    case HostPid => (rec.parentPid == "" || rec.parentPid == rec.pid) && rec.parentImage == ""
  }

  /** Two processes of a host tree whose parent is not known name the same one: by its id, or else by its image. */
  predicate SameUnknownParent(mode: Mode, a: Rec, b: Rec, keys: set<string>) {
    match mode
    case HostGuid =>
      && a.parentGuid !in keys && b.parentGuid !in keys && a.parentGuid == b.parentGuid
      && (a.parentGuid == "" ==> a.parentImage == b.parentImage != "")
    case HostPid =>
      && (a.parentPid !in keys || a.parentPid == a.pid) && (b.parentPid !in keys || b.parentPid == b.pid)
      && a.parentPid == b.parentPid && !OnTop(mode, a, keys) && !OnTop(mode, b, keys)
      && (a.parentPid == "" ==> a.parentImage == b.parentImage)
    case _ => false
  }

  /** A placeholder carries the parent id and the time of a process under it, and nothing else. */
  predicate StandsFor(mode: Mode, made: Rec, child: Rec) {
    && made.guid == (if mode == HostGuid then child.parentGuid else "") && made.pid == child.parentPid
    && made.ts == child.ts && made.cmdline == "" && made.parentGuid == "" && made.parentPid == ""
    && made.parentImage == "" && !made.focal && made.detection == None
  }

  /** The lists of children and the top say what the records say. */
  ghost predicate AsRecorded(plan: Plan, roots: seq<Node>)
    reads plan.all.Values, plan.table.Values, plan.made.Values
  {
    var mode, table, made, keys := plan.mode, plan.table, plan.made, plan.table.Keys;
    && (forall k, q :: k in table && q in table ==> (table[k] in table[q].children <==> Fathers(mode, table[k].rec, q)))
    && (forall k :: k in table ==> (table[k] in roots <==> OnTop(mode, table[k].rec, keys)))
    && (forall k, l :: k in table && l in table ==>
          ((exists s :: s in made && table[k] in made[s].children && table[l] in made[s].children) <==>
           SameUnknownParent(mode, table[k].rec, table[l].rec, keys)))
    && (forall s :: s in made ==> made[s] in roots && exists k :: IsUnder(mode, table, made[s], k))
  }

  ghost predicate IsUnder(mode: Mode, table: map<string, Node>, sp: Node, k: string)
    reads sp
  {
    k in table && table[k] in sp.children && StandsFor(mode, sp.rec, table[k].rec)
  }

  lemma ParentInFields(mode: Mode, rec: Rec, keys: set<string>)
    requires "" !in keys && KeyOf(mode, rec) in keys
    ensures forall q :: q in keys ==> (ParentOf(mode, rec, keys) == Some(Real(q)) <==> Fathers(mode, rec, q))
    ensures ParentOf(mode, rec, keys) == None <==> OnTop(mode, rec, keys)
  {
  }

  lemma PlaceholdersInFields(mode: Mode, a: Rec, b: Rec, keys: set<string>)
    requires "" !in keys && KeyOf(mode, a) in keys && KeyOf(mode, b) in keys
    ensures SameUnknownParent(mode, a, b, keys) <==>
              && ParentOf(mode, a, keys).Some? && ParentOf(mode, a, keys).value.Made?
              && ParentOf(mode, a, keys) == ParentOf(mode, b, keys)
  {
    assert forall x: string, y: string :: "g:" + x != "pi:" + y && "p:" + x != "pi:" + y by {
      forall x: string, y: string ensures "g:" + x != "pi:" + y && "p:" + x != "pi:" + y {
        assert ("g:" + x)[0] != ("pi:" + y)[0] && ("p:" + x)[1] != ("pi:" + y)[1];
      }
    }
    SamePrefixed("g:", a.parentGuid, b.parentGuid);
    SamePrefixed("p:", a.parentPid, b.parentPid);
    SamePrefixed("pi:", a.parentImage, b.parentImage);
  }

  lemma SamePrefixed(p: string, x: string, y: string)
    ensures p + x == p + y <==> x == y
  {
    if p + x == p + y { assert x == (p + x)[|p|..] == (p + y)[|p|..] == y; }
  }

  lemma FinalList(plan: Plan, roots: seq<Node>, q: Id)
    requires Finished(plan.all, plan.parent, plan.start, roots) && q in plan.all
    ensures ListHolds(plan.all, plan.parent, plan.all[q].children, Some(q))
  {
    assert ListHolds(plan.all, plan.parent, plan.start[q].children, Some(q));
    assert ListHolds(plan.all, plan.parent, SortByTs(plan.start[q].children), Some(q));
  }

  lemma InList(plan: Plan, roots: seq<Node>, q: Id, m: Id)
    requires Finished(plan.all, plan.parent, plan.start, roots) && q in plan.all && m in plan.all
    ensures plan.all[m] in plan.all[q].children <==> LinkOf(plan.parent, m) == Some(q)
    ensures plan.all[m] in roots <==> LinkOf(plan.parent, m) == None
  {
    FinalList(plan, roots, q);
  }

  lemma ChildrenRecorded(plan: Plan, order: seq<string>, recs: map<string, Rec>, roots: seq<Node>, k: string, q: string)
    requires BuiltFrom(plan, order, recs, roots) && "" !in plan.table && k in plan.table && q in plan.table
    ensures plan.table[k] in plan.table[q].children <==> Fathers(plan.mode, plan.table[k].rec, q)
    ensures plan.table[k] in roots <==> OnTop(plan.mode, plan.table[k].rec, plan.table.Keys)
  {
    InList(plan, roots, Real(q), Real(k));
    ParentInFields(plan.mode, plan.table[k].rec, plan.table.Keys);
  }

  lemma PlaceholdersRecorded(plan: Plan, order: seq<string>, recs: map<string, Rec>, roots: seq<Node>, k: string,
                             l: string)
    requires BuiltFrom(plan, order, recs, roots) && "" !in plan.table && k in plan.table && l in plan.table
    ensures (exists s :: s in plan.made && plan.table[k] in plan.made[s].children
                         && plan.table[l] in plan.made[s].children)
       <==> SameUnknownParent(plan.mode, plan.table[k].rec, plan.table[l].rec, plan.table.Keys)
  {
    forall s | s in plan.made
      ensures plan.table[k] in plan.made[s].children <==> LinkOf(plan.parent, Real(k)) == Some(Made(s))
      ensures plan.table[l] in plan.made[s].children <==> LinkOf(plan.parent, Real(l)) == Some(Made(s))
    {
      InList(plan, roots, Made(s), Real(k));
      InList(plan, roots, Made(s), Real(l));
    }
    PlaceholdersInFields(plan.mode, plan.table[k].rec, plan.table[l].rec, plan.table.Keys);
    if LinkOf(plan.parent, Real(k)).Some? && LinkOf(plan.parent, Real(k)).value.Made? {
      assert plan.parent[Real(k)] in plan.all;
      assert plan.parent[Real(k)].key in plan.made;
    }
  }

  lemma PlaceholderUsed(plan: Plan, order: seq<string>, recs: map<string, Rec>, roots: seq<Node>, s: string)
    requires BuiltFrom(plan, order, recs, roots) && s in plan.made
    ensures plan.made[s] in roots && exists k :: IsUnder(plan.mode, plan.table, plan.made[s], k)
  {
    var k :| k in plan.table && MadeOf(plan.mode, plan.table[k], plan.table, plan.made[s]);
    assert plan.all[Made(s)].id == Made(s);
    InList(plan, roots, Made(s), Real(k));
    InList(plan, roots, Made(s), Made(s));
    assert IsUnder(plan.mode, plan.table, plan.made[s], k);
  }

  /** A finished tree shows what the records say. */
  lemma TreeAsRecorded(plan: Plan, order: seq<string>, recs: map<string, Rec>, roots: seq<Node>)
    requires BuiltFrom(plan, order, recs, roots) && "" !in plan.table
    ensures AsRecorded(plan, roots)
  {
    forall k, q | k in plan.table && q in plan.table
      ensures plan.table[k] in plan.table[q].children <==> Fathers(plan.mode, plan.table[k].rec, q)
      ensures plan.table[k] in roots <==> OnTop(plan.mode, plan.table[k].rec, plan.table.Keys)
      ensures (exists s :: s in plan.made && plan.table[k] in plan.made[s].children
                           && plan.table[q] in plan.made[s].children)
         <==> SameUnknownParent(plan.mode, plan.table[k].rec, plan.table[q].rec, plan.table.Keys)
    {
      ChildrenRecorded(plan, order, recs, roots, k, q);
      PlaceholdersRecorded(plan, order, recs, roots, k, q);
    }
    forall s | s in plan.made
      ensures plan.made[s] in roots && exists k :: IsUnder(plan.mode, plan.table, plan.made[s], k)
    {
      PlaceholderUsed(plan, order, recs, roots, s);
    }
  }

  lemma KeysFit(rows: seq<Rec>, p: Policy, order: seq<string>, recs: map<string, Rec>, mode: Mode)
    requires Filled(rows, p, order, recs) && ByGuid(mode) == p.guid
    ensures forall i, j :: 0 <= i < j < |order| ==> order[i] != order[j]
    ensures forall k :: k in recs ==> KeyOf(mode, recs[k]) == k
  {
    FilledListed(rows, p, order, recs);
  }

  /** The tree of one of the two tables. */
  method BuildFrom(mode: Mode, order: seq<string>, recs: map<string, Rec>, ghost rows: seq<Rec>, ghost p: Policy)
    returns (roots: seq<Node>, ghost plan: Plan)
    requires Filled(rows, p, order, recs) && ByGuid(mode) == p.guid
    ensures BuiltFrom(plan, order, recs, roots) && plan.mode == mode && AsRecorded(plan, roots)
  {
    KeysFit(rows, p, order, recs, mode);
    var table;
    ghost var made, all, parent, start;
    roots, table, made, all, parent, start := StitchAndSort(mode, order, recs);
    plan := Plan(mode, table, made, all, parent, start);
    TreeAsRecorded(plan, order, recs, roots);
  }

  /**
   The tree by GUID if any record has one, else the tree by PID, else nothing.
   `host` tells the whole-host tree from the tree around one detection.
   */
  method BuildTree(host: bool, rows: seq<Rec>)
    returns (roots: seq<Node>, nodesSeen: nat, truncated: bool, focalGuid: Option<string>,
             ghost n: nat, ghost t: Tables, ghost plan: Plan)
    ensures n <= |rows| && BothFilled(host, FirstRows(rows, n), t) && TablesSay(host, rows[..n], t)
    ensures nodesSeen == |t.byGuid| + |t.byPid| <= 400
    ensures if truncated then nodesSeen == 400 else n == |rows|
    ensures t.byGuid != map[] ==> BuiltFrom(plan, t.gOrder, t.byGuid, roots) &&
                                  plan.mode == if host then HostGuid else FocalGuid
    ensures t.byGuid == map[] && t.byPid != map[] ==> BuiltFrom(plan, t.pOrder, t.byPid, roots) &&
                                                      plan.mode == if host then HostPid else FocalPid
    ensures t.byGuid == map[] && t.byPid == map[] ==> roots == []
    ensures t.byGuid != map[] || t.byPid != map[] ==> AsRecorded(plan, roots)
    ensures match focalGuid
            case Some(g) => g in t.byGuid && t.byGuid[g].focal
            case None => host || forall g :: g in t.byGuid ==> !t.byGuid[g].focal
  {
    var tables, limited, used := FillTables(host, rows);
    t, truncated, n := tables, limited, used;
    TablesOfRows(host, rows, n, tables);
    nodesSeen := |tables.byGuid| + |tables.byPid|;
    roots, focalGuid := [], None;
    if !host { focalGuid := FirstFocal(tables.gOrder, tables.byGuid); }
    plan := Plan(HostPid, map[], map[], map[], map[], map[]);
    if tables.byGuid != map[] {
      var mode := if host then HostGuid else FocalGuid;
      roots, plan := BuildFrom(mode, tables.gOrder, tables.byGuid, FirstRows(rows, n), GuidPolicy(host));
    } else if tables.byPid != map[] {
      var mode := if host then HostPid else FocalPid;
      roots, plan := BuildFrom(mode, tables.pOrder, tables.byPid, FirstRows(rows, n), PidPolicy(host));
    }
  }

  method FirstFocal(order: seq<string>, recs: map<string, Rec>) returns (g: Option<string>)
    requires forall k :: k in recs <==> k in order
    ensures match g
            case Some(k) => k in recs && recs[k].focal
            case None => forall k :: k in recs ==> !recs[k].focal
  {
    for i := 0 to |order|
      invariant forall j :: 0 <= j < i ==> !recs[order[j]].focal
    {
      if recs[order[i]].focal { return Some(order[i]); }
    }
    g := None;
  }

  // ------------------------------------------------------------- consequences

  /** Whatever the links are, a process is in one list of children or at the top, never in two places. */
  lemma OnePlace(all: map<Id, Node>, parent: map<Id, Id>, start: map<Id, Snap>, roots: seq<Node>, m: Id)
    requires Shape(all, parent, start) && ListHolds(all, parent, roots, None) && m in all
    ensures all[m] in roots <==> m !in parent
    ensures forall q :: q in all ==> (all[m] in start[q].children <==> m in parent && parent[m] == q)
  {
    forall q | q in all ensures all[m] in start[q].children <==> m in parent && parent[m] == q {
      assert ListHolds(all, parent, start[q].children, Some(q));
      if all[m] in start[q].children { assert LinkOf(parent, all[m].id) == Some(q); }
    }
  }

  /** Only a process on or below a parent cycle is missing from the displayed trees. */
  lemma MissingIffCycleAbove(all: map<Id, Node>, parent: map<Id, Id>, m: Id)
    requires m in all
    ensures m !in RootedSet(all, parent) <==>
            exists q :: UpChain(parent, q) && q[0] == m && OnCycle(parent, q[|q| - 1])
  {
    UnrootedIffCycleAbove(parent, m);
  }

  /** A process recorded as its own parent is missing, except from the host tree by PID, which tests for it. */
  lemma SelfParent(mode: Mode, table: map<string, Node>, made: map<string, Node>,
                   all: map<Id, Node>, parent: map<Id, Id>, k: string)
    requires IsAll(all, table, made) && IsLinks(parent, mode, table)
    requires k in table && k != "" && KeyOf(mode, table[k].rec) == k
    requires k == if ByGuid(mode) then table[k].rec.parentGuid else table[k].rec.parentPid
    ensures Real(k) in RootedSet(all, parent) <==> mode.HostPid?
  {
    if mode.HostPid? {
      match LinkOf(parent, Real(k)) {
        case None => assert PathTo(parent, [Real(k)], Real(k));
        case Some(q) =>
          assert q.Made? && q !in parent;
          assert PathTo(parent, [q, Real(k)], Real(k));
      }
    } else {
      assert LinkOf(parent, Real(k)) == Some(Real(k));
      assert Leads(parent, [Real(k), Real(k)], Real(k), Real(k));
      assert UpChain(parent, [Real(k)]);
      UnrootedIffCycleAbove(parent, Real(k));
    }
  }

  lemma TopIsBounded(all: map<Id, Node>, parent: map<Id, Id>, roots: seq<Node>)
    requires (forall q :: q in all ==> all[q].id == q) && ListHolds(all, parent, roots, None)
    ensures |roots| <= |set m | m in all && LinkOf(parent, m) == None|
  {
    var tops := set m | m in all && LinkOf(parent, m) == None;
    forall i | 0 <= i < |roots| ensures roots[i] in roots && Ids(roots)[i] in tops { }
    DistinctBound(Ids(roots), tops);
  }

  /** So a single process that is its own parent gives an empty tree, but for the host tree by PID. */
  lemma LoneSelfParent(mode: Mode, node: Node, all: map<Id, Node>, parent: map<Id, Id>, roots: seq<Node>)
    requires node.id == Real("4") && node.rec == Rec("4", "4", "4", "4", "", "", "", false, None)
    requires IsAll(all, map["4" := node], map[]) && IsLinks(parent, mode, map["4" := node])
    requires ListHolds(all, parent, roots, None)
    ensures roots == if mode.HostPid? then [node] else []
  {
    var table := map["4" := node];
    assert forall m :: m in all <==> m == Real("4");
    assert all[Real("4")] == node;
    TopIsBounded(all, parent, roots);
    var link := ParentOf(mode, node.rec, table.Keys);
    assert link == if mode.HostPid? then None else Some(Real("4"));
    assert LinkOf(parent, Real("4")) == link;
    var tops := set m | m in all && LinkOf(parent, m) == None;
    assert tops == if mode.HostPid? then {Real("4")} else {};
    assert mode.HostPid? ==> node in roots;
  }
}
