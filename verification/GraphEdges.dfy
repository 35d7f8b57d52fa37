/**
 Which edges a graph has, in terms of the events it was built from: what each event asks
 for by its own fields, the types of the nodes that an edge of each kind joins, and how
 often an edge is counted.
 */
module GraphEdges {
  import opened Wrappers
  import opened Strings
  import opened Sequences
  import opened GraphEvents
  import opened Graph

  // ------------------------------------------------------------- what the keys are made of

  /** A process goes by its GUID, else by PID and program name, else by its path; the rest by one text each. */
  lemma KeysInFields(guid: string, pid: string, image: string)
    ensures guid != "" ==> ProcessKey(guid, pid, image) == "p:g:" + Lower(guid)
    ensures guid == "" && pid != "" ==> ProcessKey(guid, pid, image) == "p:i:" + pid + (":" + Lower(Basename(image)))
    ensures guid == "" && pid == "" && image != "" ==> ProcessKey(guid, pid, image) == "p:n:" + NormPath(image)
    ensures FileKey(image) == "f:" + NormPath(image) && NetworkKey(image) == "net:" + Lower(image)
    ensures IdentityKey(image) == "id:" + Lower(image) && ObjectKey(guid, pid) == "obj:" + Lower(guid + ":" + pid)
  {
    Tagged("g:", Lower(guid), "");
    Tagged("i:", pid, ":" + Lower(Basename(image)));
    Tagged("n:", NormPath(image), "");
    assert "p:" + "g:" == "p:g:" && "p:" + "i:" == "p:i:" && "p:" + "n:" == "p:n:";
    assert "i:" + pid + ":" + Lower(Basename(image)) == "i:" + pid + (":" + Lower(Basename(image)));
  }

  lemma Tagged(tag: string, a: string, b: string)
    ensures "p:" + (tag + a) == "p:" + tag + a && "p:" + (tag + a + b) == "p:" + tag + a + b
  {
  }

  // ------------------------------------------------------------- the types an edge joins

  /** The types of the ends of an edge, by its kind. */
  predicate Joins(kind: EdgeKind, src: Kind, dst: Kind) {
    match kind
    case Spawn => src == Process && dst == Process
    case Execute => src == File && dst == Process
    case Create => src == Process && dst == File
    case Audited(_) => src == Identity && dst == Object
    case Resolve => src == Process && dst == Network
    case Connect => src == Process && dst == Network
  }

  predicate Typed(l: Link) { Joins(l.kind, KindOfKey(l.src), KindOfKey(l.dst)) }

  ghost predicate AllTyped(links: seq<Link>) { forall i :: 0 <= i < |links| ==> Typed(links[i]) }

  /** A started process was counted. */
  ghost predicate StartsCounted(links: seq<Link>, log: seq<Touch>) {
    forall i :: 0 <= i < |links| && links[i].kind.Spawn? ==> CountedIn(log, links[i].dst)
  }

  ghost predicate CountedIn(log: seq<Touch>, key: string) {
    exists j :: 0 <= j < |log| && log[j].key == key && log[j].counted
  }

  lemma {:induction false} FirstRunningRuns(nodes: map<string, Node>, order: seq<string>, norm: string)
    ensures FirstRunning(nodes, order, norm).Some? ==> Runs(nodes, FirstRunning(nodes, order, norm).value, norm)
    ensures (exists k :: k in order && Runs(nodes, k, norm)) ==> FirstRunning(nodes, order, norm).Some?
  {
    if order != [] { FirstRunningRuns(nodes, order[1..], norm); }
  }

  /** A plan of one of the events. */
  predicate EventLike(p: Plan) { ValidPlan(p) && (p.OfConnection? ==> p.kind.Resolve? || p.kind.Connect?) }

  lemma EventsPlan(e: Event)
    ensures EventLike(EventPlan(e))
  {
    EventPlanIsValid(e);
  }

  lemma FileIsTyped(w: World, p: Plan)
    requires Valid(w) && ValidPlan(p) && p.OfFile?
    ensures AllTyped(LinksFor(w, p))
  {
    var v := NodesAfter(w, p);
    ValidIsKept();
    NodesAfterKeeps(Valid, w, p);
    FirstRunningRuns(v.nodes, v.nodeOrder, p.norm);
    var running := FirstRunning(v.nodes, v.nodeOrder, p.norm);
    assert running.Some? ==> KindOfKey(running.value) == Process;
    FileLinksTyped(p, running);
  }

  lemma FileLinksTyped(p: Plan, running: Option<string>)
    requires ValidPlan(p) && p.OfFile? && (running.Some? ==> KindOfKey(running.value) == Process)
    ensures AllTyped(FileLinks(p, running))
  {
  }

  lemma OthersAreTyped(w: World, p: Plan)
    requires EventLike(p) && !p.OfFile?
    ensures AllTyped(LinksFor(w, p))
  {
    match p
    case Nothing =>
    case OfProcess(_, fileKey, _) => assert AllTyped(ProcessLinks(p, KnownFile(w.nodes, fileKey)));
    case OfAudit(_, _, _, _) =>
    case OfConnection(_, _, _) =>
  }

  lemma PlanIsTyped(w: World, p: Plan)
    requires Valid(w) && EventLike(p)
    ensures AllTyped(LinksFor(w, p))
  {
    if p.OfFile? { FileIsTyped(w, p); } else { OthersAreTyped(w, p); }
  }

  lemma PlanStartsCounted(w: World, p: Plan)
    requires EventLike(p)
    ensures StartsCounted(LinksFor(w, p), PlanTouches(p))
  {
    match p
    case OfProcess(self, _, _) => assert PlanTouches(p)[0] == TouchOf(self);
    case _ =>
  }

  lemma {:induction false} LinksAreTyped(events: seq<Event>)
    ensures AllTyped(Built(events).links) && StartsCounted(Built(events).links, Built(events).log)
  {
    if events != [] {
      var n := |events| - 1;
      var w, p := Built(events[..n]), EventPlan(events[n]);
      LinksAreTyped(events[..n]);
      BuiltIsValid(events[..n]);
      EventsPlan(events[n]);
      PlanIsTyped(w, p);
      PlanStartsCounted(w, p);
      PlannedFrame(w, p);
      MoreStarts(w.links, w.log, LinksFor(w, p), PlanTouches(p));
    }
  }

  lemma MoreStarts(links: seq<Link>, log: seq<Touch>, more: seq<Link>, touches: seq<Touch>)
    requires StartsCounted(links, log) && StartsCounted(more, touches)
    ensures StartsCounted(links + more, log + touches)
  {
    var all, l := links + more, log + touches;
    forall i | 0 <= i < |all| && all[i].kind.Spawn? ensures CountedIn(l, all[i].dst) {
      if i < |links| {
        var j :| 0 <= j < |log| && log[j].key == links[i].dst && log[j].counted;
        assert l[j] == log[j];
      } else {
        var j :| 0 <= j < |touches| && touches[j].key == more[i - |links|].dst && touches[j].counted;
        assert l[|log| + j] == touches[j];
      }
    }
  }

  lemma {:induction false} CountedHasTimes(log: seq<Touch>, key: string)
    requires CountedIn(log, key)
    ensures TimesCounted(log, key) > 0
  {
    var init, t := log[..|log| - 1], log[|log| - 1];
    if !(t.key == key && t.counted) {
      var j :| 0 <= j < |log| && log[j].key == key && log[j].counted;
      assert init[j] == log[j];
      CountedHasTimes(init, key);
    }
  }

  ghost predicate JoinsTypes(w: World, e: Edge) {
    && e.src in w.nodes && e.dst in w.nodes && Joins(e.kind, w.nodes[e.src].kind, w.nodes[e.dst].kind)
    && (e.kind.Spawn? ==> w.nodes[e.dst].count > 0 && !w.nodes[e.dst].synthetic)
    && (e.inferred <==> e.kind.Execute?)
  }

  lemma {:induction false} InferredIff(links: seq<Link>, key: string)
    requires key in EdgeTable(links)
    ensures EdgeTable(links)[key].inferred <==> EdgeTable(links)[key].kind.Execute?
  {
    var init, l := links[..|links| - 1], links[|links| - 1];
    if key in EdgeTable(init) { InferredIff(init, key); }
  }

  lemma EdgeJoins(w: World, key: string)
    requires Valid(w) && AllTyped(w.links) && StartsCounted(w.links, w.log) && key in w.edges
    ensures JoinsTypes(w, w.edges[key])
  {
    EdgeIsItsFirstLink(w.links, key);
    InferredIff(w.links, key);
    var i: nat :| IsFirstLink(w.links, key, i);
    assert Typed(w.links[i]);
    var dst := w.links[i].dst;
    assert Tracks(w.nodes[dst], w.log, dst) && Tracks(w.nodes[w.links[i].src], w.log, w.links[i].src);
    if w.edges[key].kind.Spawn? {
      CountedHasTimes(w.log, dst);
      CountedStaysReal(w.log, [], dst);
    }
  }

  /**
   In every reachable graph an edge joins nodes of the types that its kind demands, and
   what was started is no mere placeholder.
   */
  lemma EdgesJoinTypes(events: seq<Event>, key: string)
    requires key in Built(events).edges
    ensures JoinsTypes(Built(events), Built(events).edges[key])
  {
    BuiltIsValid(events);
    LinksAreTyped(events);
    EdgeJoins(Built(events), key);
  }

  /** The two times of an edge bracket those of all links that it counts. */
  lemma {:induction false} EdgeTimes(links: seq<Link>, key: string, i: nat)
    requires i < |links| && Proper(links[i]) && EdgeKey(links[i]) == key && links[i].ts != ""
    ensures key in EdgeTable(links)
    ensures var e := EdgeTable(links)[key];
            e.ts != "" && e.lastTs != "" && Le(e.ts, links[i].ts) && Le(links[i].ts, e.lastTs)
  {
    var init, l, ts := links[..|links| - 1], links[|links| - 1], links[i].ts;
    LeTotal(ts, ts);
    if i < |init| {
      assert init[i] == links[i];
      EdgeTimes(init, key, i);
      if EdgeKey(l) == key { BracketStep(EdgeTable(init)[key].ts, EdgeTable(init)[key].lastTs, l.ts, ts); }
    } else if key in EdgeTable(init) {
      BracketStep(EdgeTable(init)[key].ts, EdgeTable(init)[key].lastTs, ts, ts);
    }
  }

  // ------------------------------------------------------------- what an observation asks for

  predicate Named(guid: string, pid: string, image: string) { guid != "" || pid != "" || image != "" }

  /** How often an observation asks for an edge between these keys, of one of the types that are not inferred. */
  function Asked(o: Observation, src: string, dst: string, edgeType: string): nat {
    match o
    case Unhandled => 0
    case ProcessStart(guid, pid, image, _, _, _, parentGuid, parentPid, parentImage) =>
      if && edgeType == "spawn" && Named(guid, pid, image) && Named(parentGuid, parentPid, parentImage) && src != dst
         && src == ProcessKey(parentGuid, parentPid, parentImage) && dst == ProcessKey(guid, pid, image)
      then 1 else 0
    case FileWrite(target, image, guid, pid) =>
      if && edgeType == "create" && target != "" && Named(guid, pid, image)
         && src == ProcessKey(guid, pid, image) && dst == FileKey(target)
      then 1 else 0
    case Audit(actor, domain, account, _, path, objectType, _) =>
      if && edgeType == "audit" && (account != "" || domain != "")
         && src == IdentityKey(actor) && dst == ObjectKey(objectType, path)
      then 1 else 0
    case Connection(image, guid, pid, _, _, _, _, resolved) =>
      if && edgeType == (if resolved then "resolve" else "connect")
         && ConnectionLabel(o) != "" && Named(guid, pid, image)
         && src == ProcessKey(guid, pid, image) && dst == NetworkKey(ConnectionLabel(o))
      then 1 else 0
  }

  function AskedBy(events: seq<Event>, src: string, dst: string, edgeType: string): nat {
    if events == [] then 0
    else AskedBy(events[..|events| - 1], src, dst, edgeType) +
         Asked(ObservationOf(events[|events| - 1]), src, dst, edgeType)
  }

  predicate Fits(l: Link, src: string, dst: string, edgeType: string) {
    l.src == src && l.dst == dst && TypeText(l.kind) == edgeType
  }

  function CountFits(links: seq<Link>, src: string, dst: string, edgeType: string): nat {
    if links == [] then 0
    else CountFits(links[..|links| - 1], src, dst, edgeType) +
         if Fits(links[|links| - 1], src, dst, edgeType) then 1 else 0
  }

  lemma {:induction false} CountFitsConcat(a: seq<Link>, b: seq<Link>, src: string, dst: string, edgeType: string)
    ensures CountFits(a + b, src, dst, edgeType)
         == CountFits(a, src, dst, edgeType) + CountFits(b, src, dst, edgeType)
  {
    if b == [] {
      assert a + b == a;
    } else {
      CountFitsConcat(a, b[..|b| - 1], src, dst, edgeType);
      assert (a + b)[..|a + b| - 1] == a + b[..|b| - 1];
    }
  }

  lemma CountOne(l: Link, src: string, dst: string, edgeType: string)
    ensures CountFits([l], src, dst, edgeType) == if Fits(l, src, dst, edgeType) then 1 else 0
  {
    assert [l][..0] == [];
  }

  predicate Inferred(l: Link) { l.kind.Execute? }

  /** Inferred links do not count for the other types. */
  lemma CountNone(links: seq<Link>, src: string, dst: string, edgeType: string)
    requires |links| <= 1 && edgeType != "execute" && forall i :: 0 <= i < |links| ==> Inferred(links[i])
    ensures CountFits(links, src, dst, edgeType) == 0
  {
    if links != [] { assert links == [links[0]]; CountOne(links[0], src, dst, edgeType); }
  }

  lemma ProcessAsks(p: Plan, known: bool, src: string, dst: string, edgeType: string)
    requires p.OfProcess? && edgeType != "execute"
    ensures CountFits(ProcessLinks(p, known), src, dst, edgeType) ==
            if p.parent.Some? && Fits(Link(p.parent.value.key, p.self.key, Spawn, p.self.ts), src, dst, edgeType)
            then 1 else 0
  {
    var a := if p.fileKey.Some? && known then [Link(p.fileKey.value, p.self.key, Execute, p.self.ts)] else [];
    var b := if p.parent.Some? then [Link(p.parent.value.key, p.self.key, Spawn, p.self.ts)] else [];
    CountFitsConcat(a, b, src, dst, edgeType);
    CountNone(a, src, dst, edgeType);
    if p.parent.Some? { CountOne(b[0], src, dst, edgeType); }
  }

  lemma FileAsks(p: Plan, running: Option<string>, src: string, dst: string, edgeType: string)
    requires p.OfFile? && edgeType != "execute"
    ensures CountFits(FileLinks(p, running), src, dst, edgeType) ==
            if p.actor.Some? && Fits(Link(p.actor.value.key, p.file.key, Create, p.file.ts), src, dst, edgeType)
            then 1 else 0
  {
    if p.actor.Some? {
      var fkey, pkey, ts := p.file.key, p.actor.value.key, p.file.ts;
      var a, b := [Link(pkey, fkey, Create, ts)], IfLinked(p.runsItself, Link(fkey, pkey, Execute, ts));
      var c := if running.Some? then [Link(fkey, running.value, Execute, ts)] else [];
      CountFitsConcat(a + b, c, src, dst, edgeType);
      CountFitsConcat(a, b, src, dst, edgeType);
      CountOne(a[0], src, dst, edgeType);
      CountNone(b, src, dst, edgeType);
      CountNone(c, src, dst, edgeType);
    }
  }

  lemma StartAsks(w: World, o: Observation, ts: string, d: Option<Detection>, src: string, dst: string,
                 edgeType: string)
    requires o.ProcessStart? && edgeType != "execute"
    ensures CountFits(LinksFor(w, PlanOf(o, ts, d)), src, dst, edgeType) == Asked(o, src, dst, edgeType)
  {
    var p := PlanOf(o, ts, d);
    if p.OfProcess? {
      ProcessAsks(p, KnownFile(w.nodes, p.fileKey), src, dst, edgeType);
      assert p.self.key == ProcessKey(o.guid, o.pid, o.image);
      assert p.parent.Some? ==> p.parent.value.key == ProcessKey(o.parentGuid, o.parentPid, o.parentImage);
    }
  }

  lemma WriteAsks(w: World, o: Observation, ts: string, d: Option<Detection>, src: string, dst: string,
                 edgeType: string)
    requires o.FileWrite? && edgeType != "execute"
    ensures CountFits(LinksFor(w, PlanOf(o, ts, d)), src, dst, edgeType) == Asked(o, src, dst, edgeType)
  {
    var p := PlanOf(o, ts, d);
    if p.OfFile? {
      var v := NodesAfter(w, p);
      FileAsks(p, FirstRunning(v.nodes, v.nodeOrder, p.norm), src, dst, edgeType);
      assert p.file.key == FileKey(o.target);
      assert p.actor.Some? ==> p.actor.value.key == ProcessKey(o.guid, o.pid, o.image);
    }
  }

  lemma OtherAsks(w: World, o: Observation, ts: string, d: Option<Detection>, src: string, dst: string,
                 edgeType: string)
    requires (o.Audit? || o.Connection? || o.Unhandled?) && edgeType != "execute"
    ensures CountFits(LinksFor(w, PlanOf(o, ts, d)), src, dst, edgeType) == Asked(o, src, dst, edgeType)
  {
    var p := PlanOf(o, ts, d);
    match p
    case Nothing =>
    case OfAudit(_, _, known, _) =>
      if known { CountOne(AuditLinks(p)[0], src, dst, edgeType); }
    case OfConnection(_, actor, _) =>
      if actor.Some? { CountOne(ConnectionLinks(p)[0], src, dst, edgeType); }
  }

  lemma PlanAsks(w: World, o: Observation, ts: string, d: Option<Detection>, src: string, dst: string, edgeType: string)
    requires edgeType != "execute"
    ensures CountFits(LinksFor(w, PlanOf(o, ts, d)), src, dst, edgeType) == Asked(o, src, dst, edgeType)
  {
    match o
    case ProcessStart(_, _, _, _, _, _, _, _, _) => StartAsks(w, o, ts, d, src, dst, edgeType);
    case FileWrite(_, _, _, _) => WriteAsks(w, o, ts, d, src, dst, edgeType);
    case _ => OtherAsks(w, o, ts, d, src, dst, edgeType);
  }

  lemma {:induction false} LinksAreAsked(events: seq<Event>, src: string, dst: string, edgeType: string)
    requires edgeType != "execute"
    ensures CountFits(Built(events).links, src, dst, edgeType) == AskedBy(events, src, dst, edgeType)
  {
    if events != [] {
      var n := |events| - 1;
      var w, e := Built(events[..n]), events[n];
      LinksAreAsked(events[..n], src, dst, edgeType);
      PlannedFrame(w, EventPlan(e));
      CountFitsConcat(w.links, LinksFor(w, EventPlan(e)), src, dst, edgeType);
      PlanAsks(w, ObservationOf(e), e.ts, e.detection, src, dst, edgeType);
    }
  }

  // ------------------------------------------------------------- edges and their counts

  predicate BarFree(s: string) { '|' !in s }

  predicate Plain(l: Link) { BarFree(l.src) && BarFree(l.dst) }

  function FirstBar(s: string): nat { if s == "" || s[0] == '|' then 0 else 1 + FirstBar(s[1..]) }

  lemma {:induction false} FirstBarAfter(a: string, x: string)
    requires BarFree(a)
    ensures FirstBar(a + "|" + x) == |a|
  {
    if a != "" {
      FirstBarAfter(a[1..], x);
      assert (a + "|" + x)[1..] == a[1..] + "|" + x;
    }
  }

  lemma UpToBar(a: string, x: string, b: string, y: string)
    requires BarFree(a) && BarFree(b) && a + "|" + x == b + "|" + y
    ensures a == b && x == y
  {
    var t := a + "|" + x;
    FirstBarAfter(a, x);
    FirstBarAfter(b, y);
    assert a == t[..|a|] && b == t[..|b|] && x == t[|a| + 1..] && y == t[|b| + 1..];
  }

  /** Without bars in the node keys an edge key tells both ends and the type. */
  lemma EdgeKeyTells(l: Link, src: string, dst: string, edgeType: string)
    requires Plain(l) && BarFree(src) && BarFree(dst)
    ensures EdgeKey(l) == src + "|" + dst + "|" + edgeType <==> Fits(l, src, dst, edgeType)
  {
    if EdgeKey(l) == src + "|" + dst + "|" + edgeType {
      assert l.src + "|" + (l.dst + "|" + TypeText(l.kind)) == EdgeKey(l);
      assert src + "|" + (dst + "|" + edgeType) == src + "|" + dst + "|" + edgeType;
      UpToBar(l.src, l.dst + "|" + TypeText(l.kind), src, dst + "|" + edgeType);
      UpToBar(l.dst, TypeText(l.kind), dst, edgeType);
    }
  }

  lemma {:induction false} LinksAtFits(links: seq<Link>, src: string, dst: string, edgeType: string)
    requires src != "" && dst != "" && src != dst
    ensures LinksAt(links, src + "|" + dst + "|" + edgeType) >= CountFits(links, src, dst, edgeType)
    ensures (forall i :: 0 <= i < |links| ==> Plain(links[i])) && BarFree(src) && BarFree(dst) ==>
              LinksAt(links, src + "|" + dst + "|" + edgeType) == CountFits(links, src, dst, edgeType)
  {
    if links != [] {
      var init, l := links[..|links| - 1], links[|links| - 1];
      LinksAtFits(init, src, dst, edgeType);
      assert links == init + [l];
      if (forall i :: 0 <= i < |links| ==> Plain(links[i])) && BarFree(src) && BarFree(dst) {
        assert forall i :: 0 <= i < |init| ==> Plain(init[i]);
        assert Plain(links[|init|]);
        EdgeKeyTells(l, src, dst, edgeType);
      }
    }
  }

  /** The edge between two keys of one type is counted `n` times, and is there at all only then. */
  ghost predicate Counted(edges: map<string, Edge>, src: string, dst: string, edgeType: string, n: nat) {
    var key := src + "|" + dst + "|" + edgeType;
    && (key in edges <==> n > 0)
    && (key in edges ==>
          && edges[key].src == src && edges[key].dst == dst && TypeText(edges[key].kind) == edgeType
          && edges[key].count == n)
  }

  ghost predicate NoBars(links: seq<Link>) { forall i :: 0 <= i < |links| ==> Plain(links[i]) }

  lemma TableCounts(links: seq<Link>, src: string, dst: string, edgeType: string)
    requires src != "" && dst != "" && src != dst
    ensures CountFits(links, src, dst, edgeType) > 0 ==> src + "|" + dst + "|" + edgeType in EdgeTable(links)
    ensures NoBars(links) && BarFree(src) && BarFree(dst) ==>
              Counted(EdgeTable(links), src, dst, edgeType, CountFits(links, src, dst, edgeType))
  {
    var key := src + "|" + dst + "|" + edgeType;
    LinksAtFits(links, src, dst, edgeType);
    EdgeIsItsFirstLink(links, key);
    if NoBars(links) && BarFree(src) && BarFree(dst) && key in EdgeTable(links) {
      var i: nat :| IsFirstLink(links, key, i);
      EdgeKeyTells(links[i], src, dst, edgeType);
    }
  }

  /** One of the types of edges that are not inferred. */
  predicate Observable(edgeType: string) {
    edgeType == "spawn" || edgeType == "create" || edgeType == "audit" || edgeType == "resolve" || edgeType == "connect"
  }

  /**
   Every edge that some event asks for by its fields is there.  Where no node key contains a
   bar, it joins these keys, has this type and is counted once for each event that asks for
   it, and there is no other.
   */
  lemma EdgesAreAsked(events: seq<Event>, src: string, dst: string, edgeType: string)
    requires Observable(edgeType) && src != "" && dst != "" && src != dst
    ensures AskedBy(events, src, dst, edgeType) > 0 ==> src + "|" + dst + "|" + edgeType in Built(events).edges
    ensures NoBars(Built(events).links) && BarFree(src) && BarFree(dst) ==>
              Counted(Built(events).edges, src, dst, edgeType, AskedBy(events, src, dst, edgeType))
  {
    BuiltIsValid(events);
    assert edgeType != "execute" by { assert "execute"[0] == 'e'; }
    LinksAreAsked(events, src, dst, edgeType);
    TableCounts(Built(events).links, src, dst, edgeType);
  }

  // ------------------------------------------------------------- inferred edges

  lemma {:induction false} LinkCounts(links: seq<Link>, l: Link)
    requires l in links && Proper(l)
    ensures LinksAt(links, EdgeKey(l)) > 0
  {
    var init, last := links[..|links| - 1], links[|links| - 1];
    assert links == init + [last];
    if l in init { LinkCounts(init, l); }
  }

  lemma {:induction false} LinksGrow(events: seq<Event>, n: nat)
    requires n <= |events|
    ensures Built(events[..n]).links <= Built(events).links
  {
    if n < |events| {
      var last := |events| - 1;
      LinksGrow(events[..last], n);
      assert events[..last][..n] == events[..n];
      LinksOfLast(events);
      PrefixOfPrefix(Built(events[..n]).links, Built(events[..last]).links, Built(events).links);
    } else {
      assert events[..n] == events;
    }
  }

  lemma PrefixOfPrefix<A>(a: seq<A>, b: seq<A>, c: seq<A>)
    requires a <= b && b <= c
    ensures a <= c
  {
  }

  lemma LinksOfLast(events: seq<Event>)
    requires events != []
    ensures Built(events[..|events| - 1]).links <= Built(events).links
  {
    PlannedFrame(Built(events[..|events| - 1]), EventPlan(events[|events| - 1]));
  }

  /** What an event asked for when it came is an edge ever after. */
  lemma EdgeIsThere(events: seq<Event>, n: nat, l: Link)
    requires n < |events| && l in LinksFor(Built(events[..n]), EventPlan(events[n])) && Proper(l)
    ensures EdgeKey(l) in Built(events).edges
  {
    NextEvent(events, n);
    PlannedFrame(Built(events[..n]), EventPlan(events[n]));
    LinksGrow(events, n + 1);
    LinkIsEdge(events, l, Built(events[..n + 1]).links);
  }

  lemma LinkIsEdge(events: seq<Event>, l: Link, before: seq<Link>)
    requires l in before && before <= Built(events).links && Proper(l)
    ensures EdgeKey(l) in Built(events).edges
  {
    BuiltIsValid(events);
    LinkCounts(Built(events).links, l);
    EdgeIsItsFirstLink(Built(events).links, EdgeKey(l));
  }

  lemma {:induction false} TouchedMember(log: seq<Touch>, t: Touch)
    requires t in log
    ensures Touched(log, t.key)
  {
    var init, last := log[..|log| - 1], log[|log| - 1];
    assert log == init + [last];
    if t in init { TouchedMember(init, t); }
  }

  lemma {:induction false} InFlatMap<A, B>(s: seq<A>, f: A -> seq<B>, i: nat, x: B)
    requires i < |s| && x in f(s[i])
    ensures x in FlatMap(s, f)
  {
    if i < |s| - 1 { InFlatMap(s[..|s| - 1], f, i, x); }
  }

  /** A file that an earlier event wrote is a file node. */
  lemma WrittenIsKnown(events: seq<Event>, m: nat, key: string)
    requires m < |events| && ObservationOf(events[m]).FileWrite? && ObservationOf(events[m]).target != ""
    requires key == FileKey(ObservationOf(events[m]).target)
    ensures KnownFile(Built(events).nodes, Some(key))
  {
    var t := WriteTouch(ObservationOf(events[m]), events[m].ts, events[m].detection);
    InFlatMap(events, EventTouches, m, t);
    TouchIsKnown(events, t);
    FileKeyKind(ObservationOf(events[m]).target);
  }

  lemma WriteTouch(o: Observation, ts: string, d: Option<Detection>) returns (t: Touch)
    requires o.FileWrite? && o.target != ""
    ensures t in PlanTouches(PlanOf(o, ts, d)) && t.key == FileKey(o.target)
  {
    t := PlanTouches(PlanOf(o, ts, d))[0];
  }

  lemma TouchIsKnown(events: seq<Event>, t: Touch)
    requires t in LogOf(events)
    ensures t.key in Built(events).nodes && Built(events).nodes[t.key].kind == KindOfKey(t.key)
  {
    BuiltIsValid(events);
    TouchedMember(LogOf(events), t);
    assert Tracks(Built(events).nodes[t.key], LogOf(events), t.key);
  }

  lemma FileIsNoProcess(path: string, guid: string, pid: string, image: string)
    ensures FileKey(path) != "" && ProcessKey(guid, pid, image) != "" && FileKey(path) != ProcessKey(guid, pid, image)
  {
    FileKeyKind(path);
    ProcessKeyKind(guid, pid, image);
  }

  lemma KnownStartLinks(w: World, o: Observation, ts: string, d: Option<Detection>)
    requires o.ProcessStart? && o.image != "" && KnownFile(w.nodes, Some(FileKey(o.image)))
    ensures Link(FileKey(o.image), ProcessKey(o.guid, o.pid, o.image), Execute, ts) in LinksFor(w, PlanOf(o, ts, d))
  {
    var p := PlanOf(o, ts, d);
    assert ProcessLinks(p, true)[0] == Link(FileKey(o.image), ProcessKey(o.guid, o.pid, o.image), Execute, ts);
  }

  /** A process started from a file that was written before is executed from it. */
  lemma StartExecutesWritten(events: seq<Event>, m: nat, n: nat)
    requires m < n < |events| && ObservationOf(events[m]).FileWrite? && ObservationOf(events[m]).target != ""
    requires ObservationOf(events[n]).ProcessStart? && ObservationOf(events[n]).image != ""
    requires NormPath(ObservationOf(events[m]).target) == NormPath(ObservationOf(events[n]).image)
    ensures var o := ObservationOf(events[n]);
            FileKey(o.image) + "|" + ProcessKey(o.guid, o.pid, o.image) + "|" + "execute" in Built(events).edges
  {
    var o := ObservationOf(events[n]);
    assert events[..n][m] == events[m];
    WrittenIsKnown(events[..n], m, FileKey(o.image));
    FileIsNoProcess(o.image, o.guid, o.pid, o.image);
    KnownStartLinks(Built(events[..n]), o, events[n].ts, events[n].detection);
    EdgeIsThere(events, n, Link(FileKey(o.image), ProcessKey(o.guid, o.pid, o.image), Execute, events[n].ts));
  }

  lemma SelfWriteLinks(w: World, o: Observation, ts: string, d: Option<Detection>)
    requires o.FileWrite? && o.target != "" && o.image != "" && NormPath(o.image) == NormPath(o.target)
    ensures Link(FileKey(o.target), ProcessKey(o.guid, o.pid, o.image), Execute, ts) in LinksFor(w, PlanOf(o, ts, d))
  {
    var p := PlanOf(o, ts, d);
    var v := NodesAfter(w, p);
    assert FileLinks(p, FirstRunning(v.nodes, v.nodeOrder, p.norm))[1]
        == Link(FileKey(o.target), ProcessKey(o.guid, o.pid, o.image), Execute, ts);
  }

  /** A process that writes over its own image is executed from what it wrote. */
  lemma WriterExecutesItself(events: seq<Event>, n: nat)
    requires n < |events| && ObservationOf(events[n]).FileWrite? && ObservationOf(events[n]).target != ""
    requires ObservationOf(events[n]).image != ""
    requires NormPath(ObservationOf(events[n]).image) == NormPath(ObservationOf(events[n]).target)
    ensures var o := ObservationOf(events[n]);
            FileKey(o.target) + "|" + ProcessKey(o.guid, o.pid, o.image) + "|" + "execute" in Built(events).edges
  {
    var o := ObservationOf(events[n]);
    FileIsNoProcess(o.target, o.guid, o.pid, o.image);
    SelfWriteLinks(Built(events[..n]), o, events[n].ts, events[n].detection);
    EdgeIsThere(events, n, Link(FileKey(o.target), ProcessKey(o.guid, o.pid, o.image), Execute, events[n].ts));
  }

  ghost predicate KeysNamed(log: seq<Touch>) { forall i :: 0 <= i < |log| ==> log[i].key != "" }

  lemma EventKeysNamed(o: Observation, ts: string, d: Option<Detection>)
    ensures KeysNamed(PlanTouches(PlanOf(o, ts, d)))
  {
  }

  lemma {:induction false} LogKeysNamed(events: seq<Event>)
    ensures KeysNamed(LogOf(events))
  {
    if events != [] {
      var e := events[|events| - 1];
      LogKeysNamed(events[..|events| - 1]);
      EventKeysNamed(ObservationOf(e), e.ts, e.detection);
    }
  }

  lemma {:induction false} BlankUntouched(log: seq<Touch>)
    requires KeysNamed(log)
    ensures !Touched(log, "")
  {
    if log != [] { BlankUntouched(log[..|log| - 1]); }
  }

  /** This node is a process whose image, under whatever spelling, is the file. */
  predicate RunsFile(nodes: map<string, Node>, key: string, file: string) {
    && key in nodes && nodes[key].kind == Process
    && Lower(Slashes(CleanPath(Value(nodes[key].attrs, Image)))) == NormPath(file)
  }

  lemma RunningLinks(w: World, p: Plan, key: string) returns (k: string)
    requires Valid(w) && EventLike(p) && p.OfFile? && p.actor.Some? && Runs(NodesAfter(w, p).nodes, key, p.norm)
    requires KeysNamed(w.log) && KeysNamed(PlanTouches(p))
    ensures Runs(NodesAfter(w, p).nodes, k, p.norm)
    ensures KindOfKey(k) == Process && k != "" && Link(p.file.key, k, Execute, p.file.ts) in LinksFor(w, p)
  {
    var v := NodesAfter(w, p);
    ValidIsKept();
    NodesAfterKeeps(Valid, w, p);
    NodesAfterFrame(w, p);
    BlankUntouched(v.log);
    FirstRunningRuns(v.nodes, v.nodeOrder, p.norm);
    k := FirstRunning(v.nodes, v.nodeOrder, p.norm).value;
    var links := FileLinks(p, Some(k));
    assert links[|links| - 1] == Link(p.file.key, k, Execute, p.file.ts);
  }

  lemma WritePlan(o: Observation, ts: string, d: Option<Detection>)
    requires o.FileWrite? && o.target != "" && Named(o.guid, o.pid, o.image)
    ensures var p := PlanOf(o, ts, d);
            && p.OfFile? && p.actor.Some? && p.norm == NormPath(o.target) && p.file.ts == ts
            && p.file.key == FileKey(o.target)
  {
  }

  /** Writing a file that a process node of the graph runs joins the file to such a node. */
  lemma WrittenIsExecuted(events: seq<Event>, n: nat, key: string) returns (k: string)
    requires n < |events| && ObservationOf(events[n]).FileWrite? && ObservationOf(events[n]).target != ""
    requires var o := ObservationOf(events[n]);
             && Named(o.guid, o.pid, o.image)
             && RunsFile(NodesAfter(Built(events[..n]), EventPlan(events[n])).nodes, key, o.target)
    ensures KindOfKey(k) == Process
    ensures RunsFile(NodesAfter(Built(events[..n]), EventPlan(events[n])).nodes, k, ObservationOf(events[n]).target)
    ensures FileKey(ObservationOf(events[n]).target) + "|" + k + "|" + "execute" in Built(events).edges
  {
    var e, target := events[n], ObservationOf(events[n]).target;
    BuiltIsValid(events[..n]);
    EventsPlan(e);
    LogKeysNamed(events[..n]);
    EventKeysNamed(ObservationOf(e), e.ts, e.detection);
    WritePlan(ObservationOf(e), e.ts, e.detection);
    k := RunningLinks(Built(events[..n]), EventPlan(e), key);
    FileKeyKind(target);
    EdgeIsThere(events, n, Link(FileKey(target), k, Execute, e.ts));
  }

  // ------------------------------------------------------------- what the events read

  /** The severities in rising order; anything else ranks below them. */
  lemma RanksRise(d: Detection)
    ensures Lower(d.level) == "critical" <==> Rank(d) == 4
    ensures Lower(d.level) == "high" <==> Rank(d) == 3
    ensures Lower(d.level) == "medium" <==> Rank(d) == 2
    ensures Lower(d.level) == "low" <==> Rank(d) == 1
    ensures Lower(d.level) == "informational" <==> Rank(d) == 0
    ensures -1 <= Rank(d) <= 4
  {
  }
}
