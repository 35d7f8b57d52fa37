/**
 Which nodes a graph has, in terms of the events it was built from: what each event says
 about the nodes it names, and what every reachable graph shows of it.
 */
module GraphNodes {
  import opened Wrappers
  import opened Strings
  import opened GraphEvents
  import opened Graph
  import opened GraphEdges

  // ------------------------------------------------------------- what an observation says

  /** A sighting of what an event is about: real, counted, with the event's detection. */
  predicate Main(t: Touch, key: string, ts: string, d: Option<Detection>) {
    t.key == key && t.ts == ts && t.counted && !t.synthetic && t.offer == d
  }

  /** A sighting of a process that is only mentioned; it stays a placeholder if `made`. */
  predicate Mentioned(t: Touch, ts: string, made: bool, guid: string, pid: string, image: string) {
    && t.key == ProcessKey(guid, pid, image) && t.ts == ts && !t.counted && t.synthetic == made && t.offer == None
    && t.cmdline == "" && Value(t.attrs, Image) == CleanPath(image) && Value(t.attrs, Guid) == guid
    && Value(t.attrs, Attr.Pid) == pid && Value(t.attrs, User) == "" && Value(t.attrs, Integrity) == ""
  }

  /** The touches of an event are this one and, if `more`, one of such a process. */
  predicate FollowedBy(touches: seq<Touch>, more: bool, ts: string, made: bool, guid: string, pid: string,
                       image: string)
  {
    |touches| == (if more then 2 else 1) && (more ==> Mentioned(touches[1], ts, made, guid, pid, image))
  }

  /** A process start shows the process with all its fields, and a parent with another key as a placeholder. */
  lemma StartShows(o: Observation, ts: string, d: Option<Detection>)
    requires o.ProcessStart? && Named(o.guid, o.pid, o.image)
    ensures var touches, key := PlanTouches(PlanOf(o, ts, d)), ProcessKey(o.guid, o.pid, o.image);
            && FollowedBy(touches,
                          Named(o.parentGuid, o.parentPid, o.parentImage)
                          && ProcessKey(o.parentGuid, o.parentPid, o.parentImage) != key,
                          ts, true, o.parentGuid, o.parentPid, o.parentImage)
            && Main(touches[0], key, ts, d) && touches[0].cmdline == CleanPath(o.cmdline)
            && Value(touches[0].attrs, Image) == CleanPath(o.image) && Value(touches[0].attrs, Guid) == o.guid
            && Value(touches[0].attrs, Attr.Pid) == o.pid && Value(touches[0].attrs, User) == o.user
            && Value(touches[0].attrs, Integrity) == o.integrity
  {
  }

  /** A file write shows the file, and the writer, real if a GUID or PID names it. */
  lemma WriteShows(o: Observation, ts: string, d: Option<Detection>)
    requires o.FileWrite? && o.target != ""
    ensures var touches := PlanTouches(PlanOf(o, ts, d));
            && FollowedBy(touches, Named(o.guid, o.pid, o.image), ts, o.guid == "" && o.pid == "", o.guid, o.pid,
                          o.image)
            && Main(touches[0], FileKey(o.target), ts, d)
            && Value(touches[0].attrs, Path) == CleanPath(o.target)
            && Value(touches[0].attrs, CreatorImage) == CleanPath(o.image)
  {
  }

  /** A connection shows the peer, and the process, real if a GUID or PID names it. */
  lemma ConnectionShows(o: Observation, ts: string, d: Option<Detection>)
    requires o.Connection? && (o.host != "" || o.ip != "")
    ensures var touches := PlanTouches(PlanOf(o, ts, d));
            && FollowedBy(touches, Named(o.guid, o.pid, o.image), ts, o.guid == "" && o.pid == "", o.guid, o.pid,
                          o.image)
            && Main(touches[0], NetworkKey(PeerText(o)), ts, d)
            && Value(touches[0].attrs, Host) == o.host && Value(touches[0].attrs, Ip) == o.ip
            && Value(touches[0].attrs, Port) == o.port && Value(touches[0].attrs, Protocol) == o.protocol
            && Value(touches[0].attrs, CreatorImage) == CleanPath(o.image)
  {
    LabelIs(o);
  }

  lemma LabelIs(o: Observation)
    requires o.Connection? && (o.host != "" || o.ip != "")
    ensures ConnectionLabel(o) == PeerText(o) != ""
  {
    var base := if o.host != "" then o.host else o.ip;
    assert base + "" == base && base + ":" + o.port == base + (":" + o.port);
  }

  /** The host, or else the address, with the port behind it. */
  function PeerText(o: Observation): string
    requires o.Connection?
  {
    (if o.host != "" then o.host else o.ip) + if o.port != "" then ":" + o.port else ""
  }

  /** An audited change shows the object with the detection, and the one who did it without. */
  lemma AuditShows(o: Observation, ts: string, d: Option<Detection>)
    requires o.Audit?
    ensures var touches := PlanTouches(PlanOf(o, ts, d));
            && |touches| == 2
            && Main(touches[0], ObjectKey(o.objectType, o.path), ts, d)
            && Value(touches[0].attrs, Path) == o.path && Value(touches[0].attrs, ObjectType) == o.objectType
            && Main(touches[1], IdentityKey(o.actor), ts, None)
            && Value(touches[1].attrs, Domain) == o.domain && Value(touches[1].attrs, Account) == o.account
  {
  }

  /** The label a node gets when it is created. */
  predicate Labelled(o: Observation, p: Plan) {
    match o
    case Unhandled => true
    case ProcessStart(_, _, image, _, _, _, _, _, _) =>
      p.OfProcess? ==> Seen(None, p.self).title == if Basename(image) != "" then Basename(image) else "(不明なプロセス)"
    case FileWrite(target, _, _, _) =>
      p.OfFile? ==> Seen(None, p.file).title == if Basename(target) != "" then Basename(target) else target
    case Audit(actor, _, _, title, path, _, _) =>
      p.OfAudit? ==>
        && Seen(None, p.identity).title == actor
        && Seen(None, p.target).title == if title != "" then title else if path != "" then path else "(不明な対象)"
    case Connection(_, _, _, _, _, _, _, _) => p.OfConnection? ==> Seen(None, p.peer).title == PeerText(o)
  }

  lemma LabelsInFields(o: Observation, ts: string, d: Option<Detection>)
    ensures Labelled(o, PlanOf(o, ts, d))
  {
    if o.Connection? && (o.host != "" || o.ip != "") { LabelIs(o); }
  }

  /** A process that is there keeps its label until its image becomes known. */
  lemma LabelFollowsImage(m: Node, guid: string, pid: string, image: string, ts: string)
    ensures Seen(Some(m), ProcessSighting(guid, pid, image, "", "", "", ts, true, false, None)).title ==
            if Value(m.attrs, Image) == "" && CleanPath(image) != "" && Basename(image) != "" then Basename(image)
            else m.title
  {
  }

  // ------------------------------------------------------------- what the graph shows

  /** The event is drawn, and this is the node it is about. */
  predicate About(o: Observation, kind: Kind, key: string) {
    match o
    case Unhandled => false
    case ProcessStart(guid, pid, image, _, _, _, _, _, _) =>
      Named(guid, pid, image) && kind == Process && key == ProcessKey(guid, pid, image)
    case FileWrite(target, _, _, _) => target != "" && kind == File && key == FileKey(target)
    case Audit(_, _, _, _, path, objectType, _) => kind == Object && key == ObjectKey(objectType, path)
    case Connection(_, _, _, host, ip, _, _, _) =>
      (host != "" || ip != "") && kind == Network && key == NetworkKey(PeerText(o))
  }

  lemma AboutIsMain(o: Observation, ts: string, d: Option<Detection>, kind: Kind, key: string)
    requires About(o, kind, key)
    ensures var touches := PlanTouches(PlanOf(o, ts, d)); |touches| > 0 && Main(touches[0], key, ts, d)
    ensures KindOfKey(key) == kind
  {
    match o
    case ProcessStart(guid, pid, image, _, _, _, _, _, _) =>
      StartShows(o, ts, d);
      ProcessKeyKind(guid, pid, image);
    case FileWrite(target, _, _, _) =>
      WriteShows(o, ts, d);
      FileKeyKind(target);
    case Audit(actor, _, _, _, path, objectType, _) =>
      AuditShows(o, ts, d);
      AuditKeysKind(actor, objectType, path);
    case Connection(_, _, _, _, _, _, _, _) =>
      ConnectionShows(o, ts, d);
      NetworkKeyKind(PeerText(o));
  }

  /** The node is a real one of this type, covers the time of the event and has a detection that ranks no lower. */
  predicate Shows(n: Node, kind: Kind, ts: string, d: Option<Detection>) {
    && n.kind == kind && n.count > 0 && !n.synthetic
    && (ts != "" ==> Le(n.ts, ts) && Le(ts, n.lastTs))
    && (d.Some? ==> n.detection.Some? && Rank(n.detection.value) >= Rank(d.value))
  }

  lemma TouchIsShown(events: seq<Event>, t: Touch, ts: string, d: Option<Detection>)
    requires t in LogOf(events) && Main(t, t.key, ts, d)
    ensures t.key in Built(events).nodes && Shows(Built(events).nodes[t.key], KindOfKey(t.key), ts, d)
  {
    var log, key := LogOf(events), t.key;
    TouchedMember(log, t);
    BuiltIsValid(events);
    var i :| 0 <= i < |log| && log[i] == t;
    CountedHasTimes(log, key);
    assert Tracks(Built(events).nodes[key], log, key);
    EveryNodeMeans(events, key);
    if d.Some? {
      assert Offered(log[i], key);
      HoldsFirstOfHighestRank(log, key);
      var j: nat :| IsBest(log, key, j);
    }
  }

  /** Whatever came before and after, a drawn event is seen in the graph at the node it is about. */
  lemma EventIsShown(events: seq<Event>, n: nat, kind: Kind, key: string)
    requires n < |events| && About(ObservationOf(events[n]), kind, key)
    ensures key in Built(events).nodes && Shows(Built(events).nodes[key], kind, events[n].ts, events[n].detection)
  {
    var e := events[n];
    AboutIsMain(ObservationOf(e), e.ts, e.detection, kind, key);
    var t := EventTouches(e)[0];
    InFlatMap(events, EventTouches, n, t);
    TouchIsShown(events, t, e.ts, e.detection);
  }

  /** And so is a parent or an actor that is only mentioned, though it may be a placeholder. */
  lemma MentionedIsShown(events: seq<Event>, n: nat, guid: string, pid: string, image: string)
    requires n < |events| && Named(guid, pid, image) && Mentions(ObservationOf(events[n]), guid, pid, image)
    ensures var nodes, key := Built(events).nodes, ProcessKey(guid, pid, image);
            key in nodes && nodes[key].kind == Process && (IsReal(ObservationOf(events[n])) ==> !nodes[key].synthetic)
  {
    var e := events[n];
    var o, log, key := ObservationOf(e), LogOf(events), ProcessKey(guid, pid, image);
    MentionedTouch(o, e.ts, e.detection, guid, pid, image);
    var t :| t in EventTouches(e) && t.key == key && (IsReal(o) ==> !t.synthetic);
    InFlatMap(events, EventTouches, n, t);
    TouchedMember(log, t);
    BuiltIsValid(events);
    assert Tracks(Built(events).nodes[key], log, key);
    ProcessKeyKind(guid, pid, image);
    if IsReal(o) { SeenReal(log, t); }
  }

  /** The observation names this process as a parent, a writer or a peer's process. */
  predicate Mentions(o: Observation, guid: string, pid: string, image: string) {
    match o
    case ProcessStart(ownGuid, ownPid, ownImage, _, _, _, parentGuid, parentPid, parentImage) =>
      Named(ownGuid, ownPid, ownImage) && parentGuid == guid && parentPid == pid && parentImage == image
    case FileWrite(target, writer, writerGuid, writerPid) =>
      target != "" && writerGuid == guid && writerPid == pid && writer == image
    case Connection(program, processGuid, processPid, host, ip, _, _, _) =>
      (host != "" || ip != "") && processGuid == guid && processPid == pid && program == image
    case _ => false
  }

  /** A writer or a peer's process with a GUID or PID is no placeholder. */
  predicate IsReal(o: Observation) {
    match o
    case FileWrite(_, _, guid, pid) => guid != "" || pid != ""
    case Connection(_, guid, pid, _, _, _, _, _) => guid != "" || pid != ""
    case _ => false
  }

  lemma MentionedTouch(o: Observation, ts: string, d: Option<Detection>, guid: string, pid: string, image: string)
    requires Named(guid, pid, image) && Mentions(o, guid, pid, image)
    ensures exists t :: t in PlanTouches(PlanOf(o, ts, d)) && t.key == ProcessKey(guid, pid, image)
                        && (IsReal(o) ==> !t.synthetic)
  {
    var touches := PlanTouches(PlanOf(o, ts, d));
    match o
    case ProcessStart(_, _, _, _, _, _, _, _, _) =>
      StartShows(o, ts, d);
      assert touches[|touches| - 1] in touches;
    case FileWrite(_, _, _, _) =>
      WriteShows(o, ts, d);
      assert touches[1] in touches;
    case Connection(_, _, _, _, _, _, _, _) =>
      ConnectionShows(o, ts, d);
      assert touches[1] in touches;
  }

  lemma {:induction false} SeenReal(log: seq<Touch>, t: Touch)
    requires t in log && !t.synthetic
    ensures !OnlySynthetic(log, t.key)
  {
    var init, last := log[..|log| - 1], log[|log| - 1];
    assert log == init + [last];
    if t in init { SeenReal(init, t); }
  }
}
