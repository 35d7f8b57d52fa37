/**
 The export of the relationship graph: nodes in a fixed order, renumbered, with the
 edges between them, both cut at a limit.
 */
module GraphExport {
  import opened Wrappers
  import opened Strings
  import opened Sequences
  import opened GraphEvents
  import opened Graph

  // ------------------------------------------------------------- the order of the nodes

  /** Actors first, then files, objects and peers. */
  function OrderOf(k: Kind): nat {
    match k
    case Process => 0
    case Identity => 1
    case File => 2
    case Object => 3
    case Network => 4
  }

  predicate NodeLe(a: Node, b: Node) {
    if a.kind != b.kind then OrderOf(a.kind) < OrderOf(b.kind)
    else if a.ts != b.ts then Le(a.ts, b.ts)
    else Le(a.title, b.title)
  }

  /** Processes, then identities, files, objects and peers; among one kind by time and then by title. */
  lemma ActorsFirst(a: Node, b: Node)
    requires NodeLe(a, b)
    ensures a.kind == Identity ==> b.kind != Process
    ensures a.kind == File ==> b.kind != Process && b.kind != Identity
    ensures a.kind == Object ==> b.kind == Object || b.kind == Network
    ensures a.kind == Network ==> b.kind == Network
    ensures a.kind == b.kind ==> Le(a.ts, b.ts) && (a.ts == b.ts ==> Le(a.title, b.title))
  {
    LeTotal(a.ts, a.ts);
  }

  function KeyLe(nodes: map<string, Node>): (string, string) -> bool {
    (a: string, b: string) => a in nodes && b in nodes && NodeLe(nodes[a], nodes[b])
  }

  lemma NodeLeTotal(a: Node, b: Node)
    ensures NodeLe(a, b) || NodeLe(b, a)
  {
    LeTotal(a.ts, b.ts);
    LeTotal(a.title, b.title);
  }

  lemma NodeLeTransitive(a: Node, b: Node, c: Node)
    requires NodeLe(a, b) && NodeLe(b, c)
    ensures NodeLe(a, c)
  {
    if a.kind == b.kind == c.kind {
      if a.ts == b.ts == c.ts {
        LeTransitive(a.title, b.title, c.title);
      } else if a.ts != b.ts && b.ts != c.ts {
        LeTransitive(a.ts, b.ts, c.ts);
        if a.ts == c.ts { LeAntisymmetric(a.ts, b.ts); }
      }
    }
  }

  lemma KeyLeTotal(nodes: map<string, Node>)
    ensures TotalOn(nodes.Keys, KeyLe(nodes))
  {
    forall x, y | x in nodes && y in nodes ensures KeyLe(nodes)(x, y) || KeyLe(nodes)(y, x) {
      NodeLeTotal(nodes[x], nodes[y]);
    }
    forall x, y, z | x in nodes && y in nodes && z in nodes && KeyLe(nodes)(x, y) && KeyLe(nodes)(y, z)
      ensures KeyLe(nodes)(x, z)
    {
      NodeLeTransitive(nodes[x], nodes[y], nodes[z]);
    }
  }

  function Arranged(w: World): seq<string> { SortBy(w.nodeOrder, KeyLe(w.nodes)) }

  function Cut<A>(s: seq<A>, n: nat): seq<A> { if |s| <= n then s else s[..n] }

  /** The keys of the exported nodes; the place of a key is the number of its node. */
  function Shown(w: World): seq<string> { Cut(Arranged(w), MAX_NODES) }

  // ------------------------------------------------------------- the edges

  /** An edge between node numbers. */
  datatype OutEdge = OutEdge(src: nat, dst: nat, edge: Edge)

  function Renamed(edges: map<string, Edge>, shown: seq<string>): string -> seq<OutEdge> {
    (k: string) =>
      if k in edges && edges[k].src in shown && edges[k].dst in shown
      then [OutEdge(Position(shown, edges[k].src), Position(shown, edges[k].dst), edges[k])]
      else []
  }

  /** The edges with both ends shown, in insertion order. */
  function Between(w: World, shown: seq<string>): seq<OutEdge> { FlatMap(w.edgeOrder, Renamed(w.edges, shown)) }

  lemma CutAt(s: seq<string>, i: nat, f: string -> seq<OutEdge>, n: nat)
    requires i <= |s| && |FlatMap(s[..i], f)| == n
    ensures Cut(FlatMap(s, f), n) == FlatMap(s[..i], f) && |FlatMap(s, f)| >= n
  {
    FlatMapConcat(s[..i], s[i..], f);
    assert s == s[..i] + s[i..];
  }

  /** The loop over the edge table; it stops when the limit is reached. */
  method ExportEdges(edges: map<string, Edge>, edgeOrder: seq<string>, shown: seq<string>)
    returns (out: seq<OutEdge>, full: bool)
    ensures out == Cut(FlatMap(edgeOrder, Renamed(edges, shown)), MAX_EDGES)
    ensures full <==> |FlatMap(edgeOrder, Renamed(edges, shown))| >= MAX_EDGES
  {
    out, full := [], false;
    ghost var f := Renamed(edges, shown);
    for i := 0 to |edgeOrder|
      invariant out == FlatMap(edgeOrder[..i], f) && |out| < MAX_EDGES && !full
    {
      FlatMapNext(edgeOrder, i, f);
      var more := Renamed(edges, shown)(edgeOrder[i]);
      assert |more| <= 1;
      out := out + more;
      if |out| >= MAX_EDGES {
        CutAt(edgeOrder, i + 1, f, MAX_EDGES);
        return out, true;
      }
    }
    assert edgeOrder[..|edgeOrder|] == edgeOrder;
  }

  /** Nodes and edges of the answer are numbered in the order of `keys` and `out`. */
  method Result(b: Builder) returns (keys: seq<string>, out: seq<OutEdge>)
    modifies b`truncated
    ensures keys == Shown(b.Now()) && out == OutEdges(b.Now()) && b.Now() == old(b.Now())
    ensures b.truncated == (old(b.truncated) || |Between(b.Now(), keys)| >= MAX_EDGES)
  {
    keys := Cut(SortBy(b.nodeOrder, KeyLe(b.nodes)), MAX_NODES);
    var full;
    out, full := ExportEdges(b.edges, b.edgeOrder, keys);
    if full { b.truncated := true; }
  }

  function OutEdges(w: World): seq<OutEdge> { Cut(Between(w, Shown(w)), MAX_EDGES) }

  // ------------------------------------------------------------- a closed subgraph within the limits

  lemma ArrangedIs(w: World)
    requires Valid(w)
    ensures Distinct(Arranged(w)) && |Arranged(w)| == |w.nodeOrder| == |w.nodes|
    ensures forall k :: k in Arranged(w) <==> k in w.nodes
    ensures Ordered(Arranged(w), KeyLe(w.nodes))
  {
    SortByBag(w.nodeOrder, KeyLe(w.nodes));
    BagsOfDistinct(w.nodeOrder, Arranged(w));
    DistinctSize(w.nodeOrder, w.nodes.Keys);
    KeyLeTotal(w.nodes);
    SortByOrdered(w.nodeOrder, KeyLe(w.nodes), w.nodes.Keys);
  }

  lemma CutKeepsTheLeast<A>(all: seq<A>, n: nat, le: (A, A) -> bool, k: A, i: nat)
    requires Ordered(all, le) && k in all && k !in Cut(all, n) && i < |Cut(all, n)|
    ensures le(Cut(all, n)[i], k)
  {
    var j :| 0 <= j < |all| && all[j] == k;
    assert forall m :: 0 <= m < |Cut(all, n)| ==> Cut(all, n)[m] == all[m] && Cut(all, n)[m] in Cut(all, n);
    assert |Cut(all, n)| <= j;
  }

  /** The nodes shown are different nodes of the graph, in order, the least ones, and no more than the limit. */
  lemma ShownNodes(w: World)
    requires Valid(w)
    ensures Distinct(Shown(w)) && |Shown(w)| <= MAX_NODES && Ordered(Shown(w), KeyLe(w.nodes))
    ensures forall k :: k in Shown(w) ==> k in w.nodes
    ensures forall k, i :: k in w.nodes && k !in Shown(w) && 0 <= i < |Shown(w)| ==> KeyLe(w.nodes)(Shown(w)[i], k)
    ensures |w.nodes| <= MAX_NODES ==> forall k :: k in w.nodes ==> k in Shown(w)
  {
    ArrangedIs(w);
    var all, shown := Arranged(w), Shown(w);
    forall k | k in shown ensures k in w.nodes {
      var i :| 0 <= i < |shown| && shown[i] == k;
      assert all[i] == k;
    }
    forall k, i | k in w.nodes && k !in shown && 0 <= i < |shown| ensures KeyLe(w.nodes)(shown[i], k) {
      CutKeepsTheLeast(all, MAX_NODES, KeyLe(w.nodes), k, i);
    }
  }

  lemma {:induction false} BetweenMembers(order: seq<string>, edges: map<string, Edge>, shown: seq<string>, i: nat)
    requires i < |FlatMap(order, Renamed(edges, shown))|
    ensures var e := FlatMap(order, Renamed(edges, shown))[i];
            && e.src < |shown| && e.dst < |shown| && shown[e.src] == e.edge.src && shown[e.dst] == e.edge.dst
            && exists k :: k in order && k in edges && edges[k] == e.edge
  {
    var init, f := order[..|order| - 1], Renamed(edges, shown);
    assert FlatMap(order, f) == FlatMap(init, f) + f(order[|order| - 1]);
    if i < |FlatMap(init, f)| {
      BetweenMembers(init, edges, shown, i);
      var k :| k in init && k in edges && edges[k] == FlatMap(order, f)[i].edge;
      assert k in order;
    } else {
      assert order[|order| - 1] in order;
    }
  }

  /** The export is closed: every edge joins two different exported nodes and stands for an edge of the graph. */
  lemma ExportIsClosed(w: World, i: nat)
    requires Valid(w) && i < |OutEdges(w)|
    ensures |OutEdges(w)| <= MAX_EDGES && |Shown(w)| <= MAX_NODES
    ensures var e := OutEdges(w)[i];
            && e.src < |Shown(w)| && e.dst < |Shown(w)| && e.src != e.dst
            && Shown(w)[e.src] == e.edge.src && Shown(w)[e.dst] == e.edge.dst
            && exists k :: k in w.edges && w.edges[k] == e.edge
  {
    BetweenMembers(w.edgeOrder, w.edges, Shown(w), i);
    assert OutEdges(w)[i] == Between(w, Shown(w))[i];
  }

  lemma AllBetween(order: seq<string>, edges: map<string, Edge>, shown: seq<string>)
    requires forall k :: k in order ==> k in edges && edges[k].src in shown && edges[k].dst in shown
    ensures var all := FlatMap(order, Renamed(edges, shown));
            |all| == |order| && forall i :: 0 <= i < |order| ==> [all[i]] == Renamed(edges, shown)(order[i])
  {
    forall k | k in order ensures |Renamed(edges, shown)(k)| == 1 {}
    OneEach(order, Renamed(edges, shown));
  }

  lemma {:induction false} OneEach(order: seq<string>, f: string -> seq<OutEdge>)
    requires forall k :: k in order ==> |f(k)| == 1
    ensures |FlatMap(order, f)| == |order|
    ensures forall i :: 0 <= i < |order| ==> [FlatMap(order, f)[i]] == f(order[i])
  {
    if order != [] {
      var init, last := order[..|order| - 1], order[|order| - 1];
      assert order == init + [last];
      OneEach(init, f);
    }
  }

  /** A graph within both limits is exported whole: every node once, and edge number i is the i-th edge, renamed. */
  lemma SmallGraphIsExportedWhole(w: World)
    requires Valid(w) && |w.nodes| <= MAX_NODES && |w.edgeOrder| <= MAX_EDGES
    ensures |Shown(w)| == |w.nodes| && forall k :: k in Shown(w) <==> k in w.nodes
    ensures |OutEdges(w)| == |w.edgeOrder|
    ensures forall i :: 0 <= i < |w.edgeOrder| ==>
              OutEdges(w)[i].edge == w.edges[w.edgeOrder[i]]
  {
    ArrangedIs(w);
    ShownNodes(w);
    AllBetween(w.edgeOrder, w.edges, Shown(w));
    forall i | 0 <= i < |w.edgeOrder| ensures OutEdges(w)[i].edge == w.edges[w.edgeOrder[i]] {
      assert w.edgeOrder[i] in w.edgeOrder;
      assert [OutEdges(w)[i]] == Renamed(w.edges, Shown(w))(w.edgeOrder[i]);
    }
  }

  /** What the truncation flag says after `AddEvents` and `Result`. */
  predicate Flagged(w: World) { |w.nodes| >= MAX_NODES || |Between(w, Shown(w))| >= MAX_EDGES }

  /** Some node or edge of the graph is missing from the export. */
  predicate SomethingMissing(w: World) { |Shown(w)| < |w.nodes| || |OutEdges(w)| < |w.edgeOrder| }

  lemma Sizes(w: World)
    requires Valid(w)
    ensures |Shown(w)| == if |w.nodes| <= MAX_NODES then |w.nodes| else MAX_NODES
    ensures |w.nodes| <= MAX_NODES ==> |Between(w, Shown(w))| == |w.edgeOrder|
  {
    ArrangedIs(w);
    if |w.nodes| <= MAX_NODES {
      ShownNodes(w);
      AllBetween(w.edgeOrder, w.edges, Shown(w));
    }
  }

  /** `flag` and `missing` in terms of the sizes of the tables and of the export. */
  lemma FlagArithmetic(cut: bool, nodes: nat, shown: nat, edges: nat, between: nat, out: nat)
    requires cut ==> nodes >= MAX_NODES
    requires shown == if nodes <= MAX_NODES then nodes else MAX_NODES
    requires out == if between <= MAX_EDGES then between else MAX_EDGES
    requires nodes <= MAX_NODES ==> between == edges
    ensures var flag, missing := nodes >= MAX_NODES || between >= MAX_EDGES, cut || shown < nodes || out < edges;
            && (missing ==> flag)
            && (flag && !missing <==>
                  !cut && nodes <= MAX_NODES && edges <= MAX_EDGES && (nodes == MAX_NODES || edges == MAX_EDGES))
  {
  }

  /**
   Whenever an event was not read, or a node or an edge is not exported, the flag is set.
   It is also set for nothing exactly when all events were read and the graph, within both
   limits, reaches one of them.
   */
  lemma FlagCoversCuts(events: seq<Event>, n: nat)
    requires StopsAt(events, n)
    ensures var w := Built(events[..n]);
            && (n < |events| || SomethingMissing(w) ==> Flagged(w))
            && (Flagged(w) && !(n < |events| || SomethingMissing(w)) <==>
                  && n == |events| && |w.nodes| <= MAX_NODES && |w.edgeOrder| <= MAX_EDGES
                  && (|w.nodes| == MAX_NODES || |w.edgeOrder| == MAX_EDGES))
  {
    var w := Built(events[..n]);
    BuiltIsValid(events[..n]);
    Sizes(w);
    FlagArithmetic(n < |events|, |w.nodes|, |Shown(w)|, |w.edgeOrder|, |Between(w, Shown(w))|, |OutEdges(w)|);
  }

  // ------------------------------------------------------------- a flag set for nothing

  /** A process start that only names a GUID of this many letters. */
  function Start(letters: nat): Event {
    Event("1", "", map["PGUID" := seq(letters, _ => 'a')], "", None)
  }

  function Starts(n: nat): seq<Event> { if n == 0 then [] else Starts(n - 1) + [Start(n)] }

  lemma {:induction false} LowerSize(s: string)
    ensures |Lower(s)| == |s|
  {
    if s != "" { LowerSize(s[1..]); }
  }

  lemma StartPlan(n: nat)
    requires n > 0
    ensures EventPlan(Start(n)).OfProcess? && EventPlan(Start(n)).fileKey == None && EventPlan(Start(n)).parent == None
    ensures |EventPlan(Start(n)).self.key| == n + 4
  {
    var f: map<string, string> := map["PGUID" := seq(n, _ => 'a')];
    LowerSize(f["PGUID"]);
    OneField(f);
    assert Decode("1", f) == DecodeProcess("1", f);
  }

  predicate NotPGUID(name: string) { |name| != 5 || name[0] != 'P' }

  lemma NoField(f: map<string, string>, a: string, b: string)
    requires f.Keys == {"PGUID"} && NotPGUID(a) && NotPGUID(b)
    ensures GraphEvents.First(f, [a, b]) == "" && GraphEvents.First(f, [a]) == ""
  {
    assert a !in f.Keys && b !in f.Keys by { assert "PGUID"[0] == 'P'; }
    assert [a, b][1..] == [b] && [a][1..] == [] && [b][1..] == [];
    assert GraphEvents.First(f, []) == "";
    assert GraphEvents.First(f, [b]) == "";
  }

  lemma OnlyField(f: map<string, string>)
    requires f.Keys == {"PGUID"}
    ensures GraphEvents.First(f, ["ProcessGuid", "PGUID"]) == f["PGUID"]
  {
    assert ["ProcessGuid", "PGUID"][1..] == ["PGUID"] && ["PGUID"][1..] == [];
    assert "ProcessGuid" !in f.Keys by { assert |"ProcessGuid"| != |"PGUID"|; }
    assert GraphEvents.First(f, ["PGUID"]) == if f["PGUID"] != "" then f["PGUID"] else "" by {
      assert GraphEvents.First(f, []) == "";
    }
  }

  /** All the fields of a process start but the GUID are blank. */
  lemma OneField(f: map<string, string>)
    requires f.Keys == {"PGUID"}
    ensures DecodeProcess("1", f) == ProcessStart(f["PGUID"], "", "", "", "", "", "", "", "")
  {
    OnlyField(f);
    NoField(f, "ProcessId", "PID");
    NoField(f, "Image", "Proc");
    NoField(f, "CommandLine", "Cmdline");
    NoField(f, "User", "IntegrityLevel");
    NoField(f, "IntegrityLevel", "User");
    NoField(f, "ParentProcessGuid", "ParentPGUID");
    NoField(f, "ParentProcessId", "ParentPID");
    NoField(f, "ParentImage", "ParentProc");
  }

  lemma {:induction false} StartsPrefix(n: nat, m: nat)
    requires m <= n
    ensures |Starts(n)| == n && Starts(n)[..m] == Starts(m)
  {
    if m < n {
      StartsPrefix(n - 1, m);
      assert Starts(n)[..m] == Starts(n - 1)[..m];
    } else if n > 0 {
      StartsPrefix(n - 1, n - 1);
    }
  }

  /** So many nodes with keys below a length, and no edge. */
  ghost predicate Small(w: World, n: nat) {
    |w.nodes| == n && w.edgeOrder == [] && forall k :: k in w.nodes.Keys ==> |k| <= n + 4
  }

  lemma SmallStep(w: World, p: Plan, n: nat)
    requires Small(w, n) && p.OfProcess? && p.fileKey == None && p.parent == None && |p.self.key| == n + 5
    ensures Small(Planned(w, p), n + 1)
  {
    assert LinksFor(w, p) == [];
    assert Planned(w, p) == Observed(w, p.self);
    assert p.self.key !in w.nodes.Keys;
    assert Planned(w, p).nodes.Keys == w.nodes.Keys + {p.self.key};
    assert |Planned(w, p).nodes.Keys| == |w.nodes.Keys| + 1;
  }

  lemma {:induction false} StartsGraph(n: nat)
    ensures Small(Built(Starts(n)), n)
  {
    if n > 0 {
      StartsGraph(n - 1);
      StartPlan(n);
      StartsPrefix(n, n - 1);
      SmallStep(Built(Starts(n - 1)), EventPlan(Start(n)), n - 1);
    }
  }

  /** After 180 process starts every event is read and every node exported, but the flag is set. */
  lemma FullGraphIsFlagged()
    ensures var events := Starts(MAX_NODES);
            StopsAt(events, |events|) && Flagged(Built(events)) && !SomethingMissing(Built(events))
  {
    var events := Starts(MAX_NODES);
    StartsPrefix(MAX_NODES, MAX_NODES);
    StartsGraph(MAX_NODES);
    forall m | 0 <= m < MAX_NODES ensures |Built(events[..m]).nodes| < MAX_NODES {
      StartsPrefix(MAX_NODES, m);
      StartsGraph(m);
    }
    FlagCoversCuts(events, |events|);
    assert |Built(events).edgeOrder| == 0;
  }
}
