/**
 The relationship graph builder: nodes and edges that grow with every event, and
 the capped export.

 Beside the tables the builder keeps two ghost histories: what touched which node,
 and which links were asked for.  The tables are proved to be functions of them.
 */
module Graph {
  import opened Wrappers
  import opened Strings
  import opened Sequences
  import opened Counting
  import opened GraphEvents

  const MAX_NODES := 180
  const MAX_EDGES := 500

  // ------------------------------------------------------------- times and detections

  function TsMin(a: string, b: string): string {
    if a == "" then b else if b == "" then a else if Le(a, b) then a else b
  }

  function TsMax(a: string, b: string): string {
    if a == "" then b else if b == "" then a else if Le(b, a) then a else b
  }

  datatype Detection = Detection(job: string, line: nat, level: string, ruleTitle: string, ruleId: string)

  function Rank(d: Detection): int {
    match Lower(d.level)
    case "informational" => 0
    case "low" => 1
    case "medium" => 2
    case "high" => 3
    case "critical" => 4
    case _ => -1
  }

  function Better(before: Option<Detection>, d: Option<Detection>): Option<Detection> {
    if d == None then before
    else if before == None then d
    else if Rank(d.value) > Rank(before.value) then d
    else before
  }

  // ------------------------------------------------------------- nodes

  datatype Attr = Image | Guid | Pid | User | Integrity | Path | CreatorImage | Host | Ip | Port | Protocol | Domain
                | Account | ObjectType

  datatype Node = Node(kind: Kind, title: string, attrs: map<Attr, string>, cmdline: string, ts: string, lastTs: string,
                       count: nat, synthetic: bool, detection: Option<Detection>)

  /** What an event says about a node: `kind` is that of the node method called, `title` the label it would give. */
  datatype Sighting = Sighting(kind: Kind, key: string, title: string, attrs: map<Attr, string>, cmdline: string,
                               ts: string, synthetic: bool, counted: bool, offer: Option<Detection>)

  /** A field that is still blank takes the new value. */
  function Fill(known: map<Attr, string>, more: map<Attr, string>): map<Attr, string> {
    map a | a in known.Keys + more.Keys ::
      if a in known && (known[a] != "" || a !in more) then known[a] else more[a]
  }

  /** What an event can add to a node that is there: the path of a file is set on creation only. */
  function Additions(s: Sighting): map<Attr, string> { if s.kind == File then s.attrs - {Path} else s.attrs }

  function NewTitle(s: Sighting): string { if s.kind == Process then Or(s.title, "(不明なプロセス)") else s.title }

  /** A process without an image takes its title when the image becomes known. */
  function TitleAfter(n: Node, s: Sighting): string {
    if s.kind == Process && Value(n.attrs, Image) == "" && Value(s.attrs, Image) != "" then Or(s.title, n.title)
    else n.title
  }

  /** The type of a node is set by the method that creates it and never looked at again. */
  function Seen(n: Option<Node>, s: Sighting): Node {
    match n
    case None => Node(s.kind, NewTitle(s), s.attrs, s.cmdline, s.ts, s.ts, 0, s.synthetic, None)
    case Some(m) =>
      m.(attrs := Fill(m.attrs, Additions(s)), title := TitleAfter(m, s),
         cmdline := if |s.cmdline| > |m.cmdline| then s.cmdline else m.cmdline,
         synthetic := m.synthetic && s.synthetic, ts := TsMin(m.ts, s.ts), lastTs := TsMax(m.lastTs, s.ts))
  }

  function Updated(n: Option<Node>, s: Sighting): Node {
    var m := Seen(n, s);
    if s.counted then m.(count := m.count + 1, detection := Better(m.detection, s.offer)) else m
  }

  // ------------------------------------------------------------- what a node stands for

  /** What the history keeps of a sighting: all but the title. */
  datatype Touch = Touch(key: string, ts: string, synthetic: bool, counted: bool, offer: Option<Detection>,
                         attrs: map<Attr, string>, cmdline: string)

  function TouchOf(s: Sighting): Touch {
    Touch(s.key, s.ts, s.synthetic, s.counted, s.offer, s.attrs, s.cmdline)
  }

  predicate Touched(log: seq<Touch>, key: string) {
    log != [] && (log[|log| - 1].key == key || Touched(log[..|log| - 1], key))
  }

  function First(log: seq<Touch>, key: string): string {
    if log == [] then ""
    else
      var before, t := First(log[..|log| - 1], key), log[|log| - 1];
      if t.key == key then TsMin(before, t.ts) else before
  }

  function Last(log: seq<Touch>, key: string): string {
    if log == [] then ""
    else
      var before, t := Last(log[..|log| - 1], key), log[|log| - 1];
      if t.key == key then TsMax(before, t.ts) else before
  }

  function TimesCounted(log: seq<Touch>, key: string): nat {
    if log == [] then 0
    else
      var before, t := TimesCounted(log[..|log| - 1], key), log[|log| - 1];
      if t.key == key && t.counted then before + 1 else before
  }

  predicate OnlySynthetic(log: seq<Touch>, key: string) {
    log == [] || (OnlySynthetic(log[..|log| - 1], key) && (log[|log| - 1].key == key ==> log[|log| - 1].synthetic))
  }

  function Best(log: seq<Touch>, key: string): Option<Detection> {
    if log == [] then None
    else
      var before, t := Best(log[..|log| - 1], key), log[|log| - 1];
      if t.key == key && t.counted then Better(before, t.offer) else before
  }

  function Value(attrs: map<Attr, string>, a: Attr): string { if a in attrs then attrs[a] else "" }

  /** The first value of a field that is not blank. */
  function FirstValue(log: seq<Touch>, key: string, a: Attr): string {
    if log == [] then ""
    else
      var before, t := FirstValue(log[..|log| - 1], key, a), log[|log| - 1];
      if t.key == key && before == "" then Value(t.attrs, a) else before
  }

  /** The path of a file is the one field that is never completed. */
  predicate Fixed(key: string, a: Attr) { KindOfKey(key) == File && a == Path }

  /** The value of a field in the first touch of the node. */
  function ValueAtFirst(log: seq<Touch>, key: string, a: Attr): string {
    if log == [] then ""
    else
      var init, t := log[..|log| - 1], log[|log| - 1];
      if t.key == key && !Touched(init, key) then Value(t.attrs, a) else ValueAtFirst(init, key, a)
  }

  function FieldOf(log: seq<Touch>, key: string, a: Attr): string {
    if Fixed(key, a) then ValueAtFirst(log, key, a) else FirstValue(log, key, a)
  }

  /** The first of the longest command lines. */
  function LongestCmdline(log: seq<Touch>, key: string): string {
    if log == [] then ""
    else
      var before, t := LongestCmdline(log[..|log| - 1], key), log[|log| - 1];
      if t.key == key && |t.cmdline| > |before| then t.cmdline else before
  }

  ghost predicate Tracks(n: Node, log: seq<Touch>, key: string) {
    && n.kind == KindOfKey(key) && n.ts == First(log, key) && n.lastTs == Last(log, key)
    && n.count == TimesCounted(log, key) && n.synthetic == OnlySynthetic(log, key) && n.detection == Best(log, key)
  }

  lemma {:induction false} Untouched(log: seq<Touch>, key: string)
    requires !Touched(log, key)
    ensures First(log, key) == "" && Last(log, key) == "" && TimesCounted(log, key) == 0
    ensures OnlySynthetic(log, key) && Best(log, key) == None
  {
    if log != [] { Untouched(log[..|log| - 1], key); }
  }

  /** The first time is the least non-empty one observed, the last time the greatest; both were observed. */
  lemma {:induction false} TimesBracket(log: seq<Touch>, key: string)
    ensures forall i :: 0 <= i < |log| && log[i].key == key && log[i].ts != "" ==>
              Le(First(log, key), log[i].ts) && Le(log[i].ts, Last(log, key))
    ensures First(log, key) != "" ==> exists i :: 0 <= i < |log| && log[i].key == key && log[i].ts == First(log, key)
    ensures Last(log, key) != "" ==> exists i :: 0 <= i < |log| && log[i].key == key && log[i].ts == Last(log, key)
    ensures First(log, key) == "" <==> Last(log, key) == ""
  {
    if log != [] {
      var init, t := log[..|log| - 1], log[|log| - 1];
      TimesBracket(init, key);
      assert log == init + [t];
      if t.key == key {
        forall i | 0 <= i < |log| && log[i].key == key && log[i].ts != ""
          ensures Le(First(log, key), log[i].ts) && Le(log[i].ts, Last(log, key))
        {
          BracketStep(First(init, key), Last(init, key), t.ts, log[i].ts);
        }
      }
    }
  }

  lemma BracketStep(first: string, last: string, t: string, x: string)
    requires x != "" && (x == t || (Le(first, x) && Le(x, last) && first != "" && last != ""))
    ensures Le(TsMin(first, t), x) && Le(x, TsMax(last, t))
  {
    LeTotal(first, t);
    LeTotal(last, t);
    LeTotal(x, x);
    if x != t {
      if t != "" && !Le(first, t) { LeTransitive(t, first, x); }
      if t != "" && !Le(t, last) { LeTransitive(x, last, t); }
    }
  }

  /** Offered detections of a node: those of its counted touches. */
  predicate Offered(t: Touch, key: string) { t.key == key && t.counted && t.offer.Some? }

  /** A node holds the first detection among those of the highest rank. */
  lemma {:induction false} HoldsFirstOfHighestRank(log: seq<Touch>, key: string)
    ensures Best(log, key) == None <==> forall i :: 0 <= i < |log| ==> !Offered(log[i], key)
    ensures Best(log, key).Some? ==> exists i :: IsBest(log, key, i)
  {
    if log != [] {
      var init, t := log[..|log| - 1], log[|log| - 1];
      HoldsFirstOfHighestRank(init, key);
      assert log == init + [t];
      if Offered(t, key) && (Best(init, key) == None || Rank(t.offer.value) > Rank(Best(init, key).value)) {
        assert IsBest(log, key, |init|) by {
          if Best(init, key).Some? {
            var j :| IsBest(init, key, j);
          }
        }
      } else if Best(init, key).Some? {
        var j :| IsBest(init, key, j);
        assert IsBest(log, key, j);
      }
    }
  }

  /** Touch `i` offered the detection the node holds; nobody ranked higher, and nobody before it as high. */
  ghost predicate IsBest(log: seq<Touch>, key: string, i: nat) {
    && i < |log| && Offered(log[i], key) && Best(log, key) == log[i].offer
    && forall j :: 0 <= j < |log| && Offered(log[j], key) ==>
         Rank(log[j].offer.value) <= Rank(log[i].offer.value)
         && (j < i ==> Rank(log[j].offer.value) < Rank(log[i].offer.value))
  }

  /** Whatever is counted was really observed. */
  ghost predicate CountedAreReal(log: seq<Touch>) {
    forall i :: 0 <= i < |log| ==> (log[i].counted ==> !log[i].synthetic)
  }

  /** So a counted node is not synthetic, now and after any further touches. */
  lemma {:induction false} CountedStaysReal(log: seq<Touch>, more: seq<Touch>, key: string)
    requires CountedAreReal(log) && TimesCounted(log, key) > 0
    ensures !OnlySynthetic(log, key) && !OnlySynthetic(log + more, key)
    decreases |log| + |more|
  {
    if more != [] {
      var init := more[..|more| - 1];
      CountedStaysReal(log, init, key);
      assert (log + more)[..|log + more| - 1] == log + init;
    } else {
      assert log + more == log;
      var t := log[|log| - 1];
      if !(t.key == key && t.counted) { CountedStaysReal(log[..|log| - 1], [], key); }
      assert log[..|log| - 1] + [] == log[..|log| - 1];
    }
  }

  // ------------------------------------------------------------- edges

  datatype EdgeKind = Spawn | Execute | Create | Audited(action: string) | Resolve | Connect

  function TypeText(k: EdgeKind): string {
    match k
    case Spawn => "spawn"
    case Execute => "execute"
    case Create => "create"
    case Audited(_) => "audit"
    case Resolve => "resolve"
    case Connect => "connect"
  }

  /** A request for an edge; an `execute` edge is inferred. */
  datatype Link = Link(src: string, dst: string, kind: EdgeKind, ts: string)

  datatype Edge = Edge(src: string, dst: string, kind: EdgeKind, inferred: bool, count: nat, ts: string, lastTs: string)

  function EdgeKey(l: Link): string { l.src + "|" + l.dst + "|" + TypeText(l.kind) }

  predicate Proper(l: Link) { l.src != "" && l.dst != "" && l.src != l.dst }

  function NewEdge(l: Link): Edge { Edge(l.src, l.dst, l.kind, l.kind.Execute?, 1, l.ts, l.ts) }

  function Again(e: Edge, l: Link): Edge {
    e.(count := e.count + 1, ts := TsMin(e.ts, l.ts), lastTs := TsMax(e.lastTs, l.ts))
  }

  function Linked(edges: map<string, Edge>, l: Link): map<string, Edge> {
    if !Proper(l) then edges
    else if EdgeKey(l) in edges then edges[EdgeKey(l) := Again(edges[EdgeKey(l)], l)]
    else edges[EdgeKey(l) := NewEdge(l)]
  }

  function EdgeTable(links: seq<Link>): map<string, Edge> {
    if links == [] then map[] else Linked(EdgeTable(links[..|links| - 1]), links[|links| - 1])
  }

  function LinksAt(links: seq<Link>, key: string): nat {
    if links == [] then 0
    else
      var before, l := LinksAt(links[..|links| - 1], key), links[|links| - 1];
      before + if Proper(l) && EdgeKey(l) == key then 1 else 0
  }

  /** An edge has the ends and the type of the first link with its key, and counts all of them. */
  lemma {:induction false} EdgeIsItsFirstLink(links: seq<Link>, key: string)
    ensures key in EdgeTable(links) <==> LinksAt(links, key) > 0
    ensures key in EdgeTable(links) ==>
              EdgeTable(links)[key].count == LinksAt(links, key) && exists i :: IsFirstLink(links, key, i)
  {
    if links != [] {
      var init, l := links[..|links| - 1], links[|links| - 1];
      EdgeIsItsFirstLink(init, key);
      assert links == init + [l];
      if key in EdgeTable(init) {
        var i :| IsFirstLink(init, key, i);
        assert IsFirstLink(links, key, i);
      } else if Proper(l) && EdgeKey(l) == key {
        NoLinkYet(init, key);
        assert IsFirstLink(links, key, |init|);
      }
    }
  }

  ghost predicate IsFirstLink(links: seq<Link>, key: string, i: nat) {
    && i < |links| && key in EdgeTable(links) && Proper(links[i]) && EdgeKey(links[i]) == key
    && EdgeTable(links)[key].src == links[i].src && EdgeTable(links)[key].dst == links[i].dst
    && EdgeTable(links)[key].kind == links[i].kind
    && forall j :: 0 <= j < i ==> !(Proper(links[j]) && EdgeKey(links[j]) == key)
  }

  lemma {:induction false} NoLinkYet(links: seq<Link>, key: string)
    requires LinksAt(links, key) == 0
    ensures forall j :: 0 <= j < |links| ==> !(Proper(links[j]) && EdgeKey(links[j]) == key)
  {
    if links != [] { NoLinkYet(links[..|links| - 1], key); }
  }

  function Hits(edges: map<string, Edge>): map<string, nat> { map k | k in edges :: edges[k].count }

  function ProperLinks(links: seq<Link>): nat {
    if links == [] then 0 else ProperLinks(links[..|links| - 1]) + if Proper(links[|links| - 1]) then 1 else 0
  }

  /** Every link between two different nodes is counted on exactly one edge, even where edge keys clash. */
  lemma {:induction false} EdgeCountsAddUp(links: seq<Link>)
    ensures Total(Hits(EdgeTable(links))) == ProperLinks(links)
  {
    if links == [] {
      assert Hits(map[]) == map[];
    } else {
      var init, l := links[..|links| - 1], links[|links| - 1];
      EdgeCountsAddUp(init);
      if Proper(l) {
        assert Hits(EdgeTable(links)) == Bump(Hits(EdgeTable(init)), EdgeKey(l));
        TotalBumpBy(Hits(EdgeTable(init)), EdgeKey(l), 1);
      }
    }
  }

  // ------------------------------------------------------------- what an event asks for

  predicate NamesProcess(guid: string, pid: string, image: string) { guid != "" || pid != "" || image != "" }

  function ProcessSighting(guid: string, pid: string, image: string, cmdline: string, user: string, integrity: string,
                           ts: string, synthetic: bool, counted: bool, offer: Option<Detection>): Sighting
  {
    Sighting(Process, ProcessKey(guid, pid, image), Basename(image),
             map[Image := CleanPath(image), Guid := guid, Attr.Pid := pid, User := user, Integrity := integrity],
             CleanPath(cmdline), ts, synthetic, counted, offer)
  }

  /** The process that did something: a placeholder unless a GUID or PID identifies it. */
  function ActorOf(guid: string, pid: string, image: string, ts: string): Option<Sighting> {
    if !NamesProcess(guid, pid, image) then None
    else Some(ProcessSighting(guid, pid, image, "", "", "", ts, guid == "" && pid == "", false, None))
  }

  function FileSighting(target: string, image: string, ts: string, d: Option<Detection>): Sighting {
    Sighting(File, FileKey(target), Or(Basename(target), target),
             map[Path := CleanPath(target), CreatorImage := CleanPath(image)], "", ts, false, true, d)
  }

  function NetworkSighting(o: Observation, ts: string, d: Option<Detection>): Sighting
    requires o.Connection?
  {
    Sighting(Network, NetworkKey(ConnectionLabel(o)), ConnectionLabel(o),
             map[Host := o.host, Ip := o.ip, Port := o.port, Protocol := o.protocol,
                 CreatorImage := CleanPath(o.image)],
             "", ts, false, true, d)
  }

  function IdentitySighting(actor: string, domain: string, account: string, ts: string): Sighting {
    Sighting(Identity, IdentityKey(actor), actor, map[Domain := domain, Account := account], "", ts, false, true,
             None)
  }

  function ObjectSighting(title: string, path: string, objectType: string, ts: string, d: Option<Detection>): Sighting {
    Sighting(Object, ObjectKey(objectType, path), Or(title, Or(path, "(不明な対象)")),
             map[Path := path, ObjectType := objectType], "", ts, false, true, d)
  }

  /** The sightings of an event and how they are linked; None of the texts is looked at again. */
  datatype Plan =
    | Nothing
    | OfProcess(self: Sighting, fileKey: Option<string>, parent: Option<Sighting>)
    | OfFile(file: Sighting, actor: Option<Sighting>, runsItself: bool, norm: string)
    | OfAudit(target: Sighting, identity: Sighting, known: bool, action: string)
    | OfConnection(peer: Sighting, actor: Option<Sighting>, kind: EdgeKind)

  function ParentOf(o: Observation, ts: string): Option<Sighting>
    requires o.ProcessStart?
  {
    if !NamesProcess(o.parentGuid, o.parentPid, o.parentImage) then None
    else if ProcessKey(o.parentGuid, o.parentPid, o.parentImage) == ProcessKey(o.guid, o.pid, o.image) then None
    else Some(ProcessSighting(o.parentGuid, o.parentPid, o.parentImage, "", "", "", ts, true, false, None))
  }

  function PlanOf(o: Observation, ts: string, d: Option<Detection>): Plan {
    match o
    case Unhandled => Nothing
    case ProcessStart(guid, pid, image, cmdline, user, integrity, _, _, _) =>
      if !NamesProcess(guid, pid, image) then Nothing
      else OfProcess(ProcessSighting(guid, pid, image, cmdline, user, integrity, ts, false, true, d),
                     if image != "" then Some(FileKey(image)) else None, ParentOf(o, ts))
    case FileWrite(target, image, guid, pid) =>
      if target == "" then Nothing
      else OfFile(FileSighting(target, image, ts, d), ActorOf(guid, pid, image, ts),
                  image != "" && NormPath(image) == NormPath(target), NormPath(target))
    case Audit(actor, domain, account, title, path, objectType, action) =>
      OfAudit(ObjectSighting(title, path, objectType, ts, d), IdentitySighting(actor, domain, account, ts),
              account != "" || domain != "", action)
    case Connection(image, guid, pid, _, _, _, _, resolved) =>
      if ConnectionLabel(o) == "" then Nothing
      else OfConnection(NetworkSighting(o, ts, d), ActorOf(guid, pid, image, ts), if resolved then Resolve else Connect)
  }

  // ------------------------------------------------------------- plans in terms of histories

  function Both(s: Sighting, t: Option<Sighting>): seq<Touch> {
    match t case None => [TouchOf(s)] case Some(u) => [TouchOf(s), TouchOf(u)]
  }

  function PlanTouches(p: Plan): seq<Touch> {
    match p
    case Nothing => []
    case OfProcess(self, _, parent) => Both(self, parent)
    case OfFile(file, actor, _, _) => Both(file, actor)
    case OfAudit(target, identity, _, _) => Both(target, Some(identity))
    case OfConnection(peer, actor, _) => Both(peer, actor)
  }

  function IfLinked(b: bool, l: Link): seq<Link> { if b then [l] else [] }

  function ProcessLinks(p: Plan, fileKnown: bool): seq<Link>
    requires p.OfProcess?
  {
    (if p.fileKey.Some? && fileKnown then [Link(p.fileKey.value, p.self.key, Execute, p.self.ts)] else []) +
    (if p.parent.Some? then [Link(p.parent.value.key, p.self.key, Spawn, p.self.ts)] else [])
  }

  function FileLinks(p: Plan, running: Option<string>): seq<Link>
    requires p.OfFile?
  {
    if p.actor == None then []
    else
      var fkey, pkey, ts := p.file.key, p.actor.value.key, p.file.ts;
      [Link(pkey, fkey, Create, ts)] + IfLinked(p.runsItself, Link(fkey, pkey, Execute, ts)) +
      (if running.Some? then [Link(fkey, running.value, Execute, ts)] else [])
  }

  function AuditLinks(p: Plan): seq<Link>
    requires p.OfAudit?
  {
    IfLinked(p.known, Link(p.identity.key, p.target.key, Audited(p.action), p.target.ts))
  }

  function ConnectionLinks(p: Plan): seq<Link>
    requires p.OfConnection?
  {
    if p.actor == None then [] else [Link(p.actor.value.key, p.peer.key, p.kind, p.peer.ts)]
  }

  predicate KnownFile(nodes: map<string, Node>, fileKey: Option<string>) {
    fileKey.Some? && fileKey.value in nodes && nodes[fileKey.value].kind == File
  }

  predicate Runs(nodes: map<string, Node>, key: string, norm: string) {
    && key in nodes && nodes[key].kind == Process
    && NormPath(if Image in nodes[key].attrs then nodes[key].attrs[Image] else "") == norm
  }

  /** The first process node, in insertion order, whose image is this file. */
  function FirstRunning(nodes: map<string, Node>, order: seq<string>, norm: string): Option<string> {
    if order == [] then None
    else if Runs(nodes, order[0], norm) then Some(order[0])
    else FirstRunning(nodes, order[1..], norm)
  }

  /** Node number i runs the file and no node before it does. */
  ghost predicate IsFirstRunning(nodes: map<string, Node>, order: seq<string>, norm: string, i: nat) {
    i < |order| && Runs(nodes, order[i], norm) && forall j :: 0 <= j < i ==> !Runs(nodes, order[j], norm)
  }

  /** The key of a sighting tells the type its node method sets, and whatever is counted was seen. */
  predicate Fit(s: Sighting) { s.kind == KindOfKey(s.key) && (s.counted ==> !s.synthetic) }

  /** A sighting of the node that an event is about. */
  predicate Main(s: Sighting, kind: Kind) { Fit(s) && s.kind == kind && s.counted }

  /** What holds of the sightings of every event. */
  predicate ValidPlan(p: Plan) {
    match p
    case Nothing => true
    case OfProcess(self, fileKey, parent) =>
      && Main(self, Process) && (fileKey.Some? ==> KindOfKey(fileKey.value) == File)
      && ValidActor(parent) && (parent.Some? ==> parent.value.synthetic && parent.value.key != self.key)
    case OfFile(file, actor, _, _) => Main(file, File) && ValidActor(actor)
    case OfAudit(target, identity, _, _) => Main(target, Object) && Main(identity, Identity)
    case OfConnection(peer, actor, _) => Main(peer, Network) && ValidActor(actor)
  }

  predicate ValidActor(actor: Option<Sighting>) {
    actor.Some? ==> Fit(actor.value) && actor.value.kind == Process && !actor.value.counted
  }

  lemma PlansAreValid(o: Observation, ts: string, d: Option<Detection>)
    ensures ValidPlan(PlanOf(o, ts, d))
  {
    match o
    case Unhandled =>
    case ProcessStart(guid, pid, image, _, _, _, parentGuid, parentPid, parentImage) =>
      ProcessKeyKind(guid, pid, image);
      ProcessKeyKind(parentGuid, parentPid, parentImage);
      FileKeyKind(image);
    case FileWrite(target, image, guid, pid) =>
      ProcessKeyKind(guid, pid, image);
      FileKeyKind(target);
    case Audit(actor, _, _, _, path, objectType, _) =>
      AuditKeysKind(actor, objectType, path);
    case Connection(image, guid, pid, _, _, _, _, _) =>
      ProcessKeyKind(guid, pid, image);
      NetworkKeyKind(ConnectionLabel(o));
  }

  datatype Event = Event(eid: string, channel: string, fields: map<string, string>, ts: string,
                         detection: Option<Detection>)

  function ObservationOf(e: Event): Observation { Decode(e.eid, e.fields) }

  function PresentKey(e: Event): string { Or(e.channel, "(不明)") + "|" + Or(e.eid, "?") }

  /** What the console lists as present: channel and event id, each with a text of its own for none. */
  lemma PresentKeyIs(e: Event)
    ensures e.channel != "" && e.eid != "" ==> PresentKey(e) == e.channel + "|" + e.eid
    ensures e.channel == "" && e.eid != "" ==> PresentKey(e) == "(不明)" + "|" + e.eid
    ensures e.channel != "" && e.eid == "" ==> PresentKey(e) == e.channel + "|" + "?"
    ensures e.channel == "" && e.eid == "" ==> PresentKey(e) == "(不明)" + "|" + "?"
  {
  }

  function EventPlan(e: Event): Plan { PlanOf(ObservationOf(e), e.ts, e.detection) }

  function EventTouches(e: Event): seq<Touch> { PlanTouches(EventPlan(e)) }

  function LogOf(events: seq<Event>): seq<Touch> { FlatMap(events, EventTouches) }

  // ------------------------------------------------------------- the tables

  function Find(nodes: map<string, Node>, key: string): Option<Node> {
    if key in nodes then Some(nodes[key]) else None
  }

  /** The two tables in insertion order, and the two histories. */
  datatype World = World(nodes: map<string, Node>, nodeOrder: seq<string>, edges: map<string, Edge>,
                         edgeOrder: seq<string>, log: seq<Touch>, links: seq<Link>)

  function Observed(w: World, s: Sighting): World {
    w.(nodes := w.nodes[s.key := Updated(Find(w.nodes, s.key), s)],
       nodeOrder := if s.key in w.nodes then w.nodeOrder else w.nodeOrder + [s.key],
       log := w.log + [TouchOf(s)])
  }

  function Tied(w: World, l: Link): World {
    w.(edges := Linked(w.edges, l),
       edgeOrder := if !Proper(l) || EdgeKey(l) in w.edges then w.edgeOrder else w.edgeOrder + [EdgeKey(l)],
       links := w.links + [l])
  }

  function TiedAll(w: World, links: seq<Link>): World {
    if links == [] then w else Tied(TiedAll(w, links[..|links| - 1]), links[|links| - 1])
  }

  function ObservedAll(w: World, s: Sighting, t: Option<Sighting>): World {
    match t case None => Observed(w, s) case Some(u) => Observed(Observed(w, s), u)
  }

  function NodesAfter(w: World, p: Plan): World {
    match p
    case Nothing => w
    case OfProcess(self, _, parent) => ObservedAll(w, self, parent)
    case OfFile(file, actor, _, _) => ObservedAll(w, file, actor)
    case OfAudit(target, identity, _, _) => ObservedAll(w, target, Some(identity))
    case OfConnection(peer, actor, _) => ObservedAll(w, peer, actor)
  }

  /** The links of a plan; two of them depend on which nodes are there. */
  function LinksFor(w: World, p: Plan): seq<Link> {
    match p
    case Nothing => []
    case OfProcess(_, fileKey, _) => ProcessLinks(p, KnownFile(w.nodes, fileKey))
    case OfFile(_, _, _, norm) =>
      var after := NodesAfter(w, p);
      FileLinks(p, FirstRunning(after.nodes, after.nodeOrder, norm))
    case OfAudit(_, _, _, _) => AuditLinks(p)
    case OfConnection(_, _, _) => ConnectionLinks(p)
  }

  function Planned(w: World, p: Plan): World { TiedAll(NodesAfter(w, p), LinksFor(w, p)) }

  // ------------------------------------------------------------- what every event keeps

  ghost predicate NodesOk(nodes: map<string, Node>, order: seq<string>, log: seq<Touch>) {
    && Distinct(order) && (forall k :: k in order <==> k in nodes)
    && (forall k :: k in nodes <==> Touched(log, k))
    && (forall k :: k in nodes ==> Tracks(nodes[k], log, k))
    && CountedAreReal(log)
  }

  ghost predicate EdgesOk(edges: map<string, Edge>, order: seq<string>, links: seq<Link>, nodes: set<string>) {
    && Distinct(order) && (forall k :: k in order <==> k in edges)
    && edges == EdgeTable(links)
    && (forall k :: k in edges ==> edges[k].src in nodes && edges[k].dst in nodes && edges[k].src != edges[k].dst)
  }

  /**
   The tables are what the histories say, every edge joins two different nodes of the
   table, and a key's prefix tells its node's type.
   */
  ghost predicate Valid(w: World) {
    NodesOk(w.nodes, w.nodeOrder, w.log) && EdgesOk(w.edges, w.edgeOrder, w.links, w.nodes.Keys)
  }

  lemma ObservedOk(nodes: map<string, Node>, order: seq<string>, log: seq<Touch>, s: Sighting)
    requires NodesOk(nodes, order, log) && Fit(s)
    ensures NodesOk(nodes[s.key := Updated(Find(nodes, s.key), s)], if s.key in nodes then order else order + [s.key],
                    log + [TouchOf(s)])
  {
    var log', nodes' := log + [TouchOf(s)], nodes[s.key := Updated(Find(nodes, s.key), s)];
    if s.key !in nodes { Untouched(log, s.key); }
    TouchTracked(Find(nodes, s.key), log, s);
    forall k ensures k in nodes' <==> Touched(log', k) { TouchedAppend(log, TouchOf(s), k); }
    forall k | k in nodes' ensures Tracks(nodes'[k], log', k) {
      if k != s.key { OtherTracked(nodes[k], log, k, TouchOf(s)); }
    }
  }

  lemma TouchedAppend(log: seq<Touch>, t: Touch, key: string)
    ensures Touched(log + [t], key) <==> Touched(log, key) || t.key == key
  {
    assert (log + [t])[..|log|] == log;
  }

  /** A touch of another node changes nothing. */
  lemma OtherTracked(n: Node, log: seq<Touch>, key: string, t: Touch)
    requires Tracks(n, log, key) && t.key != key
    ensures Tracks(n, log + [t], key)
  {
    assert (log + [t])[..|log|] == log;
  }

  lemma TouchTracked(n: Option<Node>, log: seq<Touch>, s: Sighting)
    requires s.kind == KindOfKey(s.key)
    requires n.Some? ==> Tracks(n.value, log, s.key)
    requires n == None ==> First(log, s.key) == "" && Last(log, s.key) == "" && TimesCounted(log, s.key) == 0
    requires n == None ==> OnlySynthetic(log, s.key) && Best(log, s.key) == None
    ensures Tracks(Updated(n, s), log + [TouchOf(s)], s.key)
  {
    var log' := log + [TouchOf(s)];
    assert log'[..|log'| - 1] == log;
  }

  lemma TiedOk(edges: map<string, Edge>, order: seq<string>, links: seq<Link>, nodes: set<string>, l: Link)
    requires EdgesOk(edges, order, links, nodes) && l.src in nodes && l.dst in nodes
    ensures EdgesOk(Linked(edges, l), if !Proper(l) || EdgeKey(l) in edges then order else order + [EdgeKey(l)],
                    links + [l], nodes)
  {
    assert (links + [l])[..|links + [l]| - 1] == links;
  }

  lemma MoreNodesOk(edges: map<string, Edge>, order: seq<string>, links: seq<Link>, nodes: set<string>,
                    more: set<string>)
    requires EdgesOk(edges, order, links, nodes)
    ensures EdgesOk(edges, order, links, nodes + more)
  {
  }

  /** One sighting keeps the tables valid. */
  lemma ObservedValid(w: World, s: Sighting)
    requires Valid(w) && Fit(s)
    ensures Valid(Observed(w, s))
  {
    ObservedOk(w.nodes, w.nodeOrder, w.log, s);
    MoreNodesOk(w.edges, w.edgeOrder, w.links, w.nodes.Keys, {s.key});
    assert Observed(w, s).nodes.Keys == w.nodes.Keys + {s.key};
  }

  lemma TiedValid(w: World, l: Link)
    requires Valid(w) && l.src in w.nodes && l.dst in w.nodes
    ensures Valid(Tied(w, l))
  {
    TiedOk(w.edges, w.edgeOrder, w.links, w.nodes.Keys, l);
  }

  /** Whatever both elementary steps keep. */
  ghost predicate Kept(inv: World -> bool) {
    && (forall w: World, s: Sighting :: inv(w) && Fit(s) ==> inv(Observed(w, s)))
    && (forall w: World, l: Link :: inv(w) && l.src in w.nodes && l.dst in w.nodes ==> inv(Tied(w, l)))
  }

  lemma ValidIsKept()
    ensures Kept(Valid)
  {
    forall w: World, s: Sighting | Valid(w) && Fit(s) ensures Valid(Observed(w, s)) { ObservedValid(w, s); }
    forall w: World, l: Link | Valid(w) && l.src in w.nodes && l.dst in w.nodes ensures Valid(Tied(w, l)) {
      TiedValid(w, l);
    }
  }

  lemma {:induction false} TiedAllKeeps(inv: World -> bool, w: World, links: seq<Link>)
    requires Kept(inv) && inv(w)
    requires forall i :: 0 <= i < |links| ==> links[i].src in w.nodes && links[i].dst in w.nodes
    ensures inv(TiedAll(w, links))
  {
    if links != [] {
      var init, l := links[..|links| - 1], links[|links| - 1];
      TiedAllKeeps(inv, w, init);
      TiedAllFrame(w, init);
    }
  }

  lemma {:induction false} TiedAllFrame(w: World, links: seq<Link>)
    ensures var v := TiedAll(w, links);
            v.nodes == w.nodes && v.nodeOrder == w.nodeOrder && v.log == w.log && v.links == w.links + links
  {
    if links != [] { TiedAllFrame(w, links[..|links| - 1]); }
  }

  lemma ObservedAllKeeps(inv: World -> bool, w: World, s: Sighting, t: Option<Sighting>)
    requires Kept(inv) && inv(w)
    requires Fit(s) && (t.Some? ==> Fit(t.value))
    ensures inv(ObservedAll(w, s, t))
  {
  }

  lemma ObservedFrame(w: World, s: Sighting)
    ensures var v := Observed(w, s);
            v.nodes.Keys == w.nodes.Keys + {s.key} && v.log == w.log + [TouchOf(s)] && v.links == w.links
  {
  }

  function KeyIn(t: Option<Sighting>): set<string> { match t case None => {} case Some(u) => {u.key} }

  lemma ObservedTwice(w: World, s: Sighting, u: Sighting)
    ensures var v := Observed(Observed(w, s), u);
            && v.nodes.Keys == w.nodes.Keys + {s.key, u.key} && v.log == w.log + [TouchOf(s), TouchOf(u)]
            && v.links == w.links
  {
    ObservedFrame(w, s);
    ObservedFrame(Observed(w, s), u);
  }

  lemma SizeAfter(before: map<string, Node>, after: map<string, Node>, a: string, b: string)
    requires after.Keys == before.Keys + {a, b}
    ensures |after| <= |before| + 2
  {
    AtMostTwoMore(after.Keys, before.Keys, a, b);
    assert |after| == |after.Keys| && |before| == |before.Keys|;
  }

  lemma ObservedAllFrame(w: World, s: Sighting, t: Option<Sighting>)
    ensures ObservedAll(w, s, t).nodes.Keys == w.nodes.Keys + {s.key} + KeyIn(t)
    ensures ObservedAll(w, s, t).log == w.log + Both(s, t) && ObservedAll(w, s, t).links == w.links
  {
    match t
    case None => ObservedFrame(w, s);
    case Some(u) => ObservedTwice(w, s, u);
  }

  lemma ObservedAllSize(w: World, s: Sighting, t: Option<Sighting>)
    ensures |ObservedAll(w, s, t).nodes| <= |w.nodes| + 2
  {
    ObservedAllFrame(w, s, t);
    SizeAfter(w.nodes, ObservedAll(w, s, t).nodes, s.key, match t case None => s.key case Some(u) => u.key);
  }

  lemma AtMostTwoMore(big: set<string>, small: set<string>, a: string, b: string)
    requires big == small + {a, b}
    ensures |big| <= |small| + 2
  {
    assert big == small + ({a, b} - small);
    SubsetSize({a, b} - small, {a, b});
  }

  lemma {:induction false} FirstRunningIsThere(nodes: map<string, Node>, order: seq<string>, norm: string)
    ensures FirstRunning(nodes, order, norm).Some? ==> FirstRunning(nodes, order, norm).value in nodes
  {
    if order != [] { FirstRunningIsThere(nodes, order[1..], norm); }
  }

  lemma NodesAfterKeeps(inv: World -> bool, w: World, p: Plan)
    requires Kept(inv) && inv(w) && ValidPlan(p)
    ensures inv(NodesAfter(w, p))
  {
    match p
    case Nothing =>
    case OfProcess(self, _, parent) => ObservedAllKeeps(inv, w, self, parent);
    case OfFile(file, actor, _, _) => ObservedAllKeeps(inv, w, file, actor);
    case OfAudit(target, identity, _, _) => ObservedAllKeeps(inv, w, target, Some(identity));
    case OfConnection(peer, actor, _) => ObservedAllKeeps(inv, w, peer, actor);
  }

  predicate Anchored(links: seq<Link>, nodes: set<string>) {
    forall i :: 0 <= i < |links| ==> links[i].src in nodes && links[i].dst in nodes
  }

  lemma ProcessLinksAnchored(p: Plan, known: bool, nodes: set<string>)
    requires p.OfProcess? && p.self.key in nodes && KeyIn(p.parent) <= nodes
    requires p.fileKey.Some? && known ==> p.fileKey.value in nodes
    ensures Anchored(ProcessLinks(p, known), nodes)
  {
  }

  lemma FileLinksAnchored(p: Plan, running: Option<string>, nodes: set<string>)
    requires p.OfFile? && p.file.key in nodes && KeyIn(p.actor) <= nodes && (running.Some? ==> running.value in nodes)
    ensures Anchored(FileLinks(p, running), nodes)
  {
  }

  lemma NodesAfterFrame(w: World, p: Plan)
    ensures NodesAfter(w, p).log == w.log + PlanTouches(p) && NodesAfter(w, p).links == w.links
    ensures Anchored(LinksFor(w, p), NodesAfter(w, p).nodes.Keys)
  {
    var v := NodesAfter(w, p);
    match p
    case Nothing => assert w.log + [] == w.log;
    case OfProcess(self, fileKey, parent) =>
      ObservedAllFrame(w, self, parent);
      ProcessLinksAnchored(p, KnownFile(w.nodes, fileKey), v.nodes.Keys);
    case OfFile(file, actor, _, norm) =>
      ObservedAllFrame(w, file, actor);
      FirstRunningIsThere(v.nodes, v.nodeOrder, norm);
      FileLinksAnchored(p, FirstRunning(v.nodes, v.nodeOrder, norm), v.nodes.Keys);
    case OfAudit(target, identity, _, _) => ObservedAllFrame(w, target, Some(identity));
    case OfConnection(peer, actor, _) => ObservedAllFrame(w, peer, actor);
  }

  lemma NodesAfterSize(w: World, p: Plan)
    ensures |NodesAfter(w, p).nodes| <= |w.nodes| + 2
  {
    match p
    case Nothing =>
    case OfProcess(self, _, parent) => ObservedAllSize(w, self, parent);
    case OfFile(file, actor, _, _) => ObservedAllSize(w, file, actor);
    case OfAudit(target, identity, _, _) => ObservedAllSize(w, target, Some(identity));
    case OfConnection(peer, actor, _) => ObservedAllSize(w, peer, actor);
  }

  lemma PlannedKeeps(inv: World -> bool, w: World, p: Plan)
    requires Kept(inv) && inv(w) && ValidPlan(p)
    ensures inv(Planned(w, p))
  {
    NodesAfterKeeps(inv, w, p);
    NodesAfterFrame(w, p);
    TiedAllKeeps(inv, NodesAfter(w, p), LinksFor(w, p));
  }

  /** An event adds its own touches and links to the histories, no more, and two nodes at most. */
  lemma PlannedFrame(w: World, p: Plan)
    ensures Planned(w, p).log == w.log + PlanTouches(p) && Planned(w, p).links == w.links + LinksFor(w, p)
    ensures |Planned(w, p).nodes| <= |w.nodes| + 2
  {
    NodesAfterFrame(w, p);
    NodesAfterSize(w, p);
    TiedAllFrame(NodesAfter(w, p), LinksFor(w, p));
  }

  /** Every event keeps the tables valid. */
  lemma PlannedValid(w: World, p: Plan)
    requires Valid(w) && ValidPlan(p)
    ensures Valid(Planned(w, p))
  {
    ValidIsKept();
    PlannedKeeps(Valid, w, p);
  }

  // ------------------------------------------------------------- the builder

  class Builder {
    var nodes: map<string, Node>
    var nodeOrder: seq<string>
    var edges: map<string, Edge>
    var edgeOrder: seq<string>
    var present: map<string, nat>
    var processEvents: nat
    var fileEvents: nat
    var networkEvents: nat
    var auditEvents: nat
    var truncated: bool
    ghost var log: seq<Touch>
    ghost var links: seq<Link>

    ghost function Now(): World
      reads this`nodes, this`nodeOrder, this`edges, this`edgeOrder, this`log, this`links
    {
      World(nodes, nodeOrder, edges, edgeOrder, log, links)
    }

    function Tallies(): Tally
      reads this`processEvents, this`fileEvents, this`networkEvents, this`auditEvents
    {
      Tally(processEvents, fileEvents, networkEvents, auditEvents)
    }

    constructor ()
      ensures Now() == Built([])
      ensures present == map[] && !truncated && Tallies() == NoTally()
    {
      nodes, nodeOrder, edges, edgeOrder, present := map[], [], map[], [], map[];
      processEvents, fileEvents, networkEvents, auditEvents := 0, 0, 0, 0;
      truncated := false;
      log, links := [], [];
    }

    /** One sighting: the node is created or completed, and counted if the event is about it. */
    method Observe(s: Sighting)
      modifies this`nodes, this`nodeOrder, this`log
      ensures Now() == Observed(old(Now()), s)
    {
      if s.key !in nodes { nodeOrder := nodeOrder + [s.key]; }
      nodes := nodes[s.key := Updated(Find(nodes, s.key), s)];
      log := log + [TouchOf(s)];
    }

    method ObserveAll(s: Sighting, t: Option<Sighting>)
      modifies this`nodes, this`nodeOrder, this`log
      ensures Now() == ObservedAll(old(Now()), s, t)
    {
      Observe(s);
      if t.Some? { Observe(t.value); }
    }

    method AddEdge(l: Link)
      modifies this`edges, this`edgeOrder, this`links
      ensures Now() == Tied(old(Now()), l)
    {
      links := links + [l];
      if !Proper(l) { return; }
      var key := EdgeKey(l);
      if key in edges {
        edges := edges[key := Again(edges[key], l)];
      } else {
        edges := edges[key := NewEdge(l)];
        edgeOrder := edgeOrder + [key];
      }
    }

    method AddEdges(more: seq<Link>)
      modifies this`edges, this`edgeOrder, this`links
      ensures Now() == TiedAll(old(Now()), more)
    {
      for n := 0 to |more|
        invariant Now() == TiedAll(old(Now()), more[..n])
      {
        assert more[..n + 1][..n] == more[..n];
        AddEdge(more[n]);
      }
      assert more[..|more|] == more;
    }

    /** The search over the node table stops at the first hit. */
    method FindRunning(norm: string) returns (r: Option<string>)
      ensures r == FirstRunning(nodes, nodeOrder, norm)
      ensures match r
              case None => forall k :: k in nodeOrder ==> !Runs(nodes, k, norm)
              case Some(key) => exists i: nat :: IsFirstRunning(nodes, nodeOrder, norm, i) && nodeOrder[i] == key
    {
      for i := 0 to |nodeOrder|
        invariant FirstRunning(nodes, nodeOrder, norm) == FirstRunning(nodes, nodeOrder[i..], norm)
        invariant forall j :: 0 <= j < i ==> !Runs(nodes, nodeOrder[j], norm)
      {
        assert nodeOrder[i..][1..] == nodeOrder[i + 1..];
        if Runs(nodes, nodeOrder[i], norm) {
          assert IsFirstRunning(nodes, nodeOrder, norm, i);
          return Some(nodeOrder[i]);
        }
      }
      r := None;
    }

    method AddPlan(p: Plan)
      modifies this`nodes, this`nodeOrder, this`log, this`edges, this`edgeOrder, this`links
      ensures Now() == Planned(old(Now()), p)
    {
      var more: seq<Link> := [];
      match p {
        case Nothing =>
        case OfProcess(self, fileKey, parent) =>
          more := ProcessLinks(p, KnownFile(nodes, fileKey));
          ObserveAll(self, parent);
        case OfFile(file, actor, _, norm) =>
          ObserveAll(file, actor);
          var other := FindRunning(norm);
          more := FileLinks(p, other);
        case OfAudit(target, identity, _, _) =>
          ObserveAll(target, Some(identity));
          more := AuditLinks(p);
        case OfConnection(peer, actor, _) =>
          ObserveAll(peer, actor);
          more := ConnectionLinks(p);
      }
      AddEdges(more);
    }

    /** A file event without a target is not counted; the others are counted before their texts are checked. */
    method CountObservation(o: Observation)
      modifies this`processEvents, this`fileEvents, this`networkEvents, this`auditEvents
      ensures Tallies() == old(Tallies()).Plus(o)
    {
      match o
      case Unhandled =>
      case ProcessStart(_, _, _, _, _, _, _, _, _) => processEvents := processEvents + 1;
      case FileWrite(target, _, _, _) => if target != "" { fileEvents := fileEvents + 1; }
      case Audit(_, _, _, _, _, _, _) => auditEvents := auditEvents + 1;
      case Connection(_, _, _, _, _, _, _, _) => networkEvents := networkEvents + 1;
    }

    method CountEvent(e: Event)
      modifies this`present, this`processEvents, this`fileEvents, this`networkEvents, this`auditEvents
      ensures Tallies() == old(Tallies()).Plus(ObservationOf(e)) && present == Bump(old(present), PresentKey(e))
    {
      present := Bump(present, PresentKey(e));
      CountObservation(ObservationOf(e));
    }

    method AddEvent(e: Event)
      modifies this
      ensures Now() == Planned(old(Now()), EventPlan(e))
      ensures Tallies() == old(Tallies()).Plus(ObservationOf(e)) && present == Bump(old(present), PresentKey(e))
      ensures truncated == (old(truncated) || (EventPlan(e).OfFile? && |nodes| >= MAX_NODES))
    {
      CountEvent(e);
      AddCapped(EventPlan(e));
    }

    method AddCapped(p: Plan)
      modifies this`nodes, this`nodeOrder, this`log, this`edges, this`edgeOrder, this`links, this`truncated
      ensures Now() == Planned(old(Now()), p)
      ensures truncated == (old(truncated) || (p.OfFile? && |nodes| >= MAX_NODES))
    {
      AddPlan(p);
      if p.OfFile? && |nodes| >= MAX_NODES { truncated := true; }
    }

    /** Events are added until the node limit is reached; the graph never grows beyond one node more. */
    method AddEvents(events: seq<Event>) returns (n: nat)
      requires Now() == Built([]) && !truncated && Tallies() == NoTally()
      modifies this
      ensures n <= |events| && Now() == Built(events[..n]) && Tallies() == TallyOf(events[..n])
      ensures |nodes| <= MAX_NODES + 1
      ensures StopsAt(events, n)
      ensures truncated <==> |nodes| >= MAX_NODES
    {
      n := 0;
      while n < |events|
        invariant n <= |events| && |nodes| < MAX_NODES && !truncated
        invariant SmallBefore(events, n)
        invariant Now() == Built(events[..n]) && Tallies() == TallyOf(events[..n])
      {
        NextEvent(events, n);
        SmallNext(events, n);
        PlannedFrame(Now(), EventPlan(events[n]));
        AddEvent(events[n]);
        n := n + 1;
        if |nodes| >= MAX_NODES {
          truncated := true;
          break;
        }
      }
    }
  }

  /** The tables after a list of events. */
  function Built(events: seq<Event>): World {
    if events == [] then World(map[], [], map[], [], [], [])
    else Planned(Built(events[..|events| - 1]), EventPlan(events[|events| - 1]))
  }

  /** The number of events read: all of them, unless the node limit is reached before. */
  ghost predicate StopsAt(events: seq<Event>, n: nat) {
    n <= |events| && (n < |events| ==> |Built(events[..n]).nodes| >= MAX_NODES) && SmallBefore(events, n)
  }

  ghost predicate SmallBefore(events: seq<Event>, n: nat)
    requires n <= |events|
  {
    forall m :: 0 <= m < n ==> |Built(events[..m]).nodes| < MAX_NODES
  }

  lemma SmallNext(events: seq<Event>, n: nat)
    requires n < |events| && SmallBefore(events, n) && |Built(events[..n]).nodes| < MAX_NODES
    ensures SmallBefore(events, n + 1)
  {
  }

  /** In every state that events can lead to, the tables are valid and the touches are those of the events. */
  lemma {:induction false} BuiltIsValid(events: seq<Event>)
    ensures Valid(Built(events)) && Built(events).log == LogOf(events)
  {
    if events == [] {
      EmptyIsValid();
    } else {
      var n := |events| - 1;
      BuiltIsValid(events[..n]);
      EventPlanIsValid(events[n]);
      PlannedValid(Built(events[..n]), EventPlan(events[n]));
      PlannedFrame(Built(events[..n]), EventPlan(events[n]));
    }
  }

  lemma EmptyIsValid()
    ensures Valid(World(map[], [], map[], [], [], []))
  {
  }

  lemma EventPlanIsValid(e: Event)
    ensures ValidPlan(EventPlan(e))
  {
    PlansAreValid(ObservationOf(e), e.ts, e.detection);
  }

  datatype Tally = Tally(processes: nat, files: nat, networks: nat, audits: nat) {
    function Plus(o: Observation): Tally {
      match o
      case Unhandled => this
      case ProcessStart(_, _, _, _, _, _, _, _, _) => this.(processes := processes + 1)
      case FileWrite(target, _, _, _) => if target == "" then this else this.(files := files + 1)
      case Audit(_, _, _, _, _, _, _) => this.(audits := audits + 1)
      case Connection(_, _, _, _, _, _, _, _) => this.(networks := networks + 1)
    }
  }

  function NoTally(): Tally { Tally(0, 0, 0, 0) }

  lemma NextEvent(events: seq<Event>, n: nat)
    requires n < |events|
    ensures Built(events[..n + 1]) == Planned(Built(events[..n]), EventPlan(events[n]))
    ensures TallyOf(events[..n + 1]) == TallyOf(events[..n]).Plus(ObservationOf(events[n]))
  {
    assert events[..n + 1][..n] == events[..n];
  }

  function TallyOf(events: seq<Event>): Tally {
    if events == [] then NoTally()
    else TallyOf(events[..|events| - 1]).Plus(ObservationOf(events[|events| - 1]))
  }

  // ------------------------------------------------------------- what the graph means

  /** Any node of any reachable graph, in terms of the touches of the events. */
  lemma EveryNodeMeans(events: seq<Event>, key: string)
    requires key in Built(events).nodes
    ensures var n, log := Built(events).nodes[key], LogOf(events);
            && n.kind == KindOfKey(key)
            && (forall i :: 0 <= i < |log| && log[i].key == key && log[i].ts != "" ==>
                  Le(n.ts, log[i].ts) && Le(log[i].ts, n.lastTs))
            && (n.count > 0 ==> !n.synthetic)
            && (n.detection == None <==> forall i :: 0 <= i < |log| ==> !Offered(log[i], key))
            && (n.detection.Some? ==> exists i :: IsBest(log, key, i))
  {
    BuiltIsValid(events);
    var log := LogOf(events);
    TimesBracket(log, key);
    HoldsFirstOfHighestRank(log, key);
    if Built(events).nodes[key].count > 0 { CountedStaysReal(log, [], key); }
  }

  lemma {:induction false} TouchedStays(a: seq<Touch>, b: seq<Touch>, key: string)
    requires Touched(a, key)
    ensures Touched(a + b, key)
  {
    if b == [] {
      assert a + b == a;
    } else {
      TouchedStays(a, b[..|b| - 1], key);
      assert (a + b)[..|a + b| - 1] == a + b[..|b| - 1];
    }
  }

  lemma LaterStaysReal(log: seq<Touch>, nodes: map<string, Node>, order: seq<string>, more: seq<Touch>,
                       later: map<string, Node>, laterOrder: seq<string>, key: string)
    requires NodesOk(nodes, order, log) && NodesOk(later, laterOrder, log + more)
    requires key in nodes && nodes[key].count > 0
    ensures key in later && !later[key].synthetic
  {
    CountedStaysReal(log, more, key);
    TouchedStays(log, more, key);
  }

  /** Once counted, a node never becomes a placeholder again. */
  lemma CountedNodesStayReal(events: seq<Event>, more: seq<Event>, key: string)
    requires key in Built(events).nodes && Built(events).nodes[key].count > 0
    ensures key in Built(events + more).nodes && !Built(events + more).nodes[key].synthetic
  {
    BuiltIsValid(events);
    BuiltIsValid(events + more);
    FlatMapConcat(events, more, EventTouches);
    var v, w := Built(events), Built(events + more);
    LaterStaysReal(v.log, v.nodes, v.nodeOrder, LogOf(more), w.nodes, w.nodeOrder, key);
  }

  /** Blank fields of a node are filled by the first value seen, and the longest command line is kept. */
  ghost predicate Filled(w: World, a: Attr) {
    && (forall k :: k in w.nodes <==> Touched(w.log, k))
    && (forall k :: k in w.nodes ==> Value(w.nodes[k].attrs, a) == FieldOf(w.log, k, a))
    && (forall k :: k in w.nodes ==> w.nodes[k].cmdline == LongestCmdline(w.log, k))
  }

  lemma {:induction false} UntouchedFields(log: seq<Touch>, key: string, a: Attr)
    requires !Touched(log, key)
    ensures FieldOf(log, key, a) == "" && LongestCmdline(log, key) == ""
  {
    if log != [] { UntouchedFields(log[..|log| - 1], key, a); }
  }

  lemma FieldsAppend(log: seq<Touch>, t: Touch, key: string, a: Attr)
    ensures FieldOf(log + [t], key, a) ==
            if t.key == key && (if Fixed(key, a) then !Touched(log, key) else FieldOf(log, key, a) == "")
            then Value(t.attrs, a) else FieldOf(log, key, a)
    ensures LongestCmdline(log + [t], key) ==
            if t.key == key && |t.cmdline| > |LongestCmdline(log, key)| then t.cmdline else LongestCmdline(log, key)
  {
    assert (log + [t])[..|log|] == log;
  }

  lemma FilledIsKept(a: Attr)
    ensures Kept((w: World) => Filled(w, a))
  {
    var inv := (w: World) => Filled(w, a);
    forall w: World, s: Sighting | inv(w) && Fit(s) ensures inv(Observed(w, s)) {
      ObservedFills(w, s, a);
    }
  }

  lemma ObservedFills(w: World, s: Sighting, a: Attr)
    requires Filled(w, a) && Fit(s)
    ensures Filled(Observed(w, s), a)
  {
    var v := Observed(w, s);
    ObservedTouched(w, s);
    forall k | k in v.nodes
      ensures Value(v.nodes[k].attrs, a) == FieldOf(v.log, k, a) && v.nodes[k].cmdline == LongestCmdline(v.log, k)
    {
      if k == s.key { SeenFills(w, s, a); } else { FieldsAppend(w.log, TouchOf(s), k, a); }
    }
  }

  lemma SeenFills(w: World, s: Sighting, a: Attr)
    requires Filled(w, a) && Fit(s)
    ensures var v := Observed(w, s);
            && s.key in v.nodes && Value(v.nodes[s.key].attrs, a) == FieldOf(v.log, s.key, a)
            && v.nodes[s.key].cmdline == LongestCmdline(v.log, s.key)
  {
    if s.key !in w.nodes { UntouchedFields(w.log, s.key, a); }
    UpdatedFields(Find(w.nodes, s.key), w.log, s, a);
  }

  lemma ObservedTouched(w: World, s: Sighting)
    requires forall k :: k in w.nodes <==> Touched(w.log, k)
    ensures forall k :: k in Observed(w, s).nodes <==> Touched(Observed(w, s).log, k)
  {
    forall k ensures k in Observed(w, s).nodes <==> Touched(Observed(w, s).log, k) {
      TouchedAppend(w.log, TouchOf(s), k);
    }
  }

  lemma UpdatedFields(n: Option<Node>, log: seq<Touch>, s: Sighting, a: Attr)
    requires Fit(s) && (n.Some? <==> Touched(log, s.key))
    requires n.Some? ==> Value(n.value.attrs, a) == FieldOf(log, s.key, a)
    requires n.Some? ==> n.value.cmdline == LongestCmdline(log, s.key)
    requires n == None ==> FieldOf(log, s.key, a) == "" && LongestCmdline(log, s.key) == ""
    ensures Value(Updated(n, s).attrs, a) == FieldOf(log + [TouchOf(s)], s.key, a)
    ensures Updated(n, s).cmdline == LongestCmdline(log + [TouchOf(s)], s.key)
  {
    FieldsAppend(log, TouchOf(s), s.key, a);
    SeenValue(n, s, a);
  }

  lemma SeenValue(n: Option<Node>, s: Sighting, a: Attr)
    ensures Value(Updated(n, s).attrs, a) ==
            if n == None then Value(s.attrs, a)
            else if s.kind == File && a == Path then Value(n.value.attrs, a)
            else if Value(n.value.attrs, a) != "" then Value(n.value.attrs, a)
            else Value(s.attrs, a)
  {
  }

  lemma {:induction false} BuiltIsFilled(events: seq<Event>, a: Attr)
    ensures Filled(Built(events), a)
  {
    if events != [] {
      var n := |events| - 1;
      BuiltIsFilled(events[..n], a);
      EventPlanIsValid(events[n]);
      FilledIsKept(a);
      PlannedKeeps((w: World) => Filled(w, a), Built(events[..n]), EventPlan(events[n]));
    }
  }

  lemma {:induction false} FirstValueIs(log: seq<Touch>, key: string, a: Attr) returns (i: nat)
    requires FirstValue(log, key, a) != ""
    ensures i < |log| && log[i].key == key && Value(log[i].attrs, a) == FirstValue(log, key, a)
    ensures forall j :: 0 <= j < i && log[j].key == key ==> Value(log[j].attrs, a) == ""
  {
    var init := log[..|log| - 1];
    if FirstValue(init, key, a) != "" {
      i := FirstValueIs(init, key, a);
    } else {
      i := |log| - 1;
      AllBlank(init, key, a);
    }
  }

  lemma {:induction false} AllBlank(log: seq<Touch>, key: string, a: Attr)
    requires FirstValue(log, key, a) == ""
    ensures forall j :: 0 <= j < |log| && log[j].key == key ==> Value(log[j].attrs, a) == ""
  {
    if log != [] { AllBlank(log[..|log| - 1], key, a); }
  }

  lemma {:induction false} LongestIs(log: seq<Touch>, key: string)
    ensures forall j :: 0 <= j < |log| && log[j].key == key ==> |log[j].cmdline| <= |LongestCmdline(log, key)|
    ensures LongestCmdline(log, key) == "" ||
            exists j :: 0 <= j < |log| && log[j].key == key && log[j].cmdline == LongestCmdline(log, key)
  {
    if log != [] {
      var init := log[..|log| - 1];
      LongestIs(init, key);
      assert log == init + [log[|init|]];
      if LongestCmdline(log, key) == LongestCmdline(init, key) && LongestCmdline(init, key) != "" {
        var j :| 0 <= j < |init| && init[j].key == key && init[j].cmdline == LongestCmdline(init, key);
        assert log[j].cmdline == LongestCmdline(log, key);
      }
    }
  }

  lemma {:induction false} FirstTouchIs(log: seq<Touch>, key: string, a: Attr) returns (i: nat)
    requires Touched(log, key)
    ensures i < |log| && log[i].key == key && Value(log[i].attrs, a) == ValueAtFirst(log, key, a)
    ensures forall j :: 0 <= j < i ==> log[j].key != key
  {
    var init := log[..|log| - 1];
    if Touched(init, key) {
      i := FirstTouchIs(init, key, a);
    } else {
      i := |log| - 1;
      NeverTouched(init, key);
    }
  }

  lemma {:induction false} NeverTouched(log: seq<Touch>, key: string)
    requires !Touched(log, key)
    ensures forall j :: 0 <= j < |log| ==> log[j].key != key
  {
    if log != [] { NeverTouched(log[..|log| - 1], key); }
  }

  /**
   A field of a node is the first value that any event gave it, blank only if none did; the
   path of a file is what the first event gave.  The command line is a longest one.
   */
  lemma FieldsAreTheFirstSeen(events: seq<Event>, key: string, a: Attr)
    requires key in Built(events).nodes
    ensures var v, log := Value(Built(events).nodes[key].attrs, a), LogOf(events);
            if Fixed(key, a) then
              exists i :: 0 <= i < |log| && log[i].key == key && Value(log[i].attrs, a) == v
                          && forall j :: 0 <= j < i ==> log[j].key != key
            else if v == "" then forall j :: 0 <= j < |log| && log[j].key == key ==> Value(log[j].attrs, a) == ""
            else exists i :: 0 <= i < |log| && log[i].key == key && Value(log[i].attrs, a) == v
                             && forall j :: 0 <= j < i && log[j].key == key ==> Value(log[j].attrs, a) == ""
    ensures var c, log := Built(events).nodes[key].cmdline, LogOf(events);
            && (forall j :: 0 <= j < |log| && log[j].key == key ==> |log[j].cmdline| <= |c|)
            && (c == "" || exists j :: 0 <= j < |log| && log[j].key == key && log[j].cmdline == c)
  {
    BuiltIsFilled(events, a);
    BuiltIsValid(events);
    var log := LogOf(events);
    LongestIs(log, key);
    if Fixed(key, a) {
      var i := FirstTouchIs(log, key, a);
    } else if Value(Built(events).nodes[key].attrs, a) == "" {
      AllBlank(log, key, a);
    } else {
      var i := FirstValueIs(log, key, a);
    }
  }

  // ------------------------------------------------------------- counts by kind

  function SumCounts(nodes: map<string, Node>, order: seq<string>, kind: Kind): nat {
    if order == [] then 0
    else
      var before, k := SumCounts(nodes, order[..|order| - 1], kind), order[|order| - 1];
      if k in nodes && nodes[k].kind == kind then before + nodes[k].count else before
  }

  function SumTimes(log: seq<Touch>, order: seq<string>, kind: Kind): nat {
    if order == [] then 0
    else
      var before, k := SumTimes(log, order[..|order| - 1], kind), order[|order| - 1];
      if KindOfKey(k) == kind then before + TimesCounted(log, k) else before
  }

  function OneIf(b: bool): nat { if b then 1 else 0 }

  function CountsFor(t: Touch, kind: Kind): nat { OneIf(t.counted && KindOfKey(t.key) == kind) }

  function CountedOf(log: seq<Touch>, kind: Kind): nat {
    if log == [] then 0 else CountedOf(log[..|log| - 1], kind) + CountsFor(log[|log| - 1], kind)
  }

  lemma {:induction false} SumsAgree(nodes: map<string, Node>, order: seq<string>, log: seq<Touch>, kind: Kind)
    requires forall k :: k in order ==> k in nodes && Tracks(nodes[k], log, k)
    ensures SumCounts(nodes, order, kind) == SumTimes(log, order, kind)
  {
    if order != [] {
      var init := order[..|order| - 1];
      assert forall k :: k in init ==> k in order;
      SumsAgree(nodes, init, log, kind);
      assert order[|order| - 1] in order;
    }
  }

  lemma {:induction false} EmptyLogSums(order: seq<string>, kind: Kind)
    ensures SumTimes([], order, kind) == 0
  {
    if order != [] { EmptyLogSums(order[..|order| - 1], kind); }
  }

  /** One touch adds to one key's count only. */
  lemma {:induction false} TouchAdds(log: seq<Touch>, t: Touch, order: seq<string>, kind: Kind)
    requires Distinct(order)
    ensures SumTimes(log + [t], order, kind)
         == SumTimes(log, order, kind) + if t.key in order then CountsFor(t, kind) else 0
  {
    if order != [] {
      var init, k := order[..|order| - 1], order[|order| - 1];
      TouchAdds(log, t, init, kind);
      assert (log + [t])[..|log + [t]| - 1] == log;
      assert order == init + [k] && k !in init;
    }
  }

  lemma {:induction false} SumsCountTouches(log: seq<Touch>, order: seq<string>, kind: Kind)
    requires Distinct(order) && forall k :: Touched(log, k) ==> k in order
    ensures SumTimes(log, order, kind) == CountedOf(log, kind)
  {
    if log == [] {
      EmptyLogSums(order, kind);
    } else {
      var init, t := log[..|log| - 1], log[|log| - 1];
      assert log == init + [t];
      assert Touched(log, t.key);
      SumsCountTouches(init, order, kind);
      TouchAdds(init, t, order, kind);
    }
  }

  /** Which kinds of node an event counts: an audit event counts its target and its actor. */
  predicate Counts(p: Plan, kind: Kind) {
    match p
    case Nothing => false
    case OfProcess(_, _, _) => kind == Process
    case OfFile(_, _, _, _) => kind == File
    case OfAudit(_, _, _, _) => kind == Object || kind == Identity
    case OfConnection(_, _, _) => kind == Network
  }

  function Accepted(events: seq<Event>, kind: Kind): nat {
    if events == [] then 0
    else Accepted(events[..|events| - 1], kind) + OneIf(Counts(EventPlan(events[|events| - 1]), kind))
  }

  lemma {:induction false} CountedConcat(a: seq<Touch>, b: seq<Touch>, kind: Kind)
    ensures CountedOf(a + b, kind) == CountedOf(a, kind) + CountedOf(b, kind)
  {
    if b == [] {
      assert a + b == a;
    } else {
      CountedConcat(a, b[..|b| - 1], kind);
      assert (a + b)[..|a + b| - 1] == a + b[..|b| - 1];
    }
  }

  lemma CountedTwo(a: Touch, b: Touch, kind: Kind)
    ensures CountedOf([a], kind) == CountsFor(a, kind)
    ensures CountedOf([a, b], kind) == CountsFor(a, kind) + CountsFor(b, kind)
  {
    assert [a][..0] == [];
    assert [a, b][..1] == [a];
  }

  lemma PlanCounts(p: Plan, kind: Kind)
    requires ValidPlan(p)
    ensures CountedOf(PlanTouches(p), kind) == OneIf(Counts(p, kind))
  {
    match p
    case Nothing =>
    case OfProcess(self, _, parent) =>
      CountedTwo(TouchOf(self), TouchOf(if parent.Some? then parent.value else self), kind);
    case OfFile(file, actor, _, _) =>
      CountedTwo(TouchOf(file), TouchOf(if actor.Some? then actor.value else file), kind);
    case OfAudit(target, identity, _, _) => CountedTwo(TouchOf(target), TouchOf(identity), kind);
    case OfConnection(peer, actor, _) =>
      CountedTwo(TouchOf(peer), TouchOf(if actor.Some? then actor.value else peer), kind);
  }

  lemma {:induction false} LogCountsAccepted(events: seq<Event>, kind: Kind)
    ensures CountedOf(LogOf(events), kind) == Accepted(events, kind)
  {
    if events != [] {
      var init, e := events[..|events| - 1], events[|events| - 1];
      LogCountsAccepted(init, kind);
      EventPlanIsValid(e);
      PlanCounts(EventPlan(e), kind);
      CountedConcat(LogOf(init), EventTouches(e), kind);
    }
  }

  /** The node counts of each kind add up to the events accepted for that kind. */
  lemma CountsMatchAccepted(events: seq<Event>, kind: Kind)
    ensures SumCounts(Built(events).nodes, Built(events).nodeOrder, kind) == Accepted(events, kind)
  {
    BuiltIsValid(events);
    var w := Built(events);
    SumsAgree(w.nodes, w.nodeOrder, w.log, kind);
    SumsCountTouches(w.log, w.nodeOrder, kind);
    LogCountsAccepted(events, kind);
  }

  /** Process and network events that name nothing are on the event counter but on no node. */
  function Nameless(events: seq<Event>, network: bool): nat {
    if events == [] then 0
    else Nameless(events[..|events| - 1], network) + OneIf(IsNameless(ObservationOf(events[|events| - 1]), network))
  }

  predicate IsNameless(o: Observation, network: bool) {
    if network then o.Connection? && ConnectionLabel(o) == ""
    else o.ProcessStart? && !NamesProcess(o.guid, o.pid, o.image)
  }

  lemma TallyStep(t: Tally, o: Observation, ts: string, d: Option<Detection>)
    ensures var p, u := PlanOf(o, ts, d), t.Plus(o);
            && u.processes == t.processes + OneIf(Counts(p, Process)) + OneIf(IsNameless(o, false))
            && u.networks == t.networks + OneIf(Counts(p, Network)) + OneIf(IsNameless(o, true))
            && u.files == t.files + OneIf(Counts(p, File)) && u.audits == t.audits + OneIf(Counts(p, Object))
            && Counts(p, Object) == Counts(p, Identity)
  {
  }

  /** The event counters against the node counts. */
  lemma {:induction false} TalliesMatchNodes(events: seq<Event>)
    ensures var t := TallyOf(events);
            && t.files == Accepted(events, File)
            && t.audits == Accepted(events, Object) == Accepted(events, Identity)
            && t.processes == Accepted(events, Process) + Nameless(events, false)
            && t.networks == Accepted(events, Network) + Nameless(events, true)
  {
    if events != [] {
      var init, e := events[..|events| - 1], events[|events| - 1];
      TalliesMatchNodes(init);
      TallyStep(TallyOf(init), ObservationOf(e), e.ts, e.detection);
    }
  }
}
