/**
 What the relationship graph reads from an event: the merged fields, keyed by name,
 become one of four kinds of observation.  The node keys are made here as well.
 */
module GraphEvents {
  import opened Wrappers
  import opened Strings

  // ------------------------------------------------------------- texts

  function First(fields: map<string, string>, names: seq<string>): string {
    if names == [] then ""
    else if names[0] in fields && fields[names[0]] != "" then fields[names[0]]
    else First(fields, names[1..])
  }

  function Or(a: string, b: string): string { if a != "" then a else b }

  /** Splits at the first separator; without one the second part is None. */
  function Cut(s: string, c: char): (string, Option<string>) {
    if s == "" then ("", None)
    else if s[0] == c then ("", Some(s[1..]))
    else
      var rest := Cut(s[1..], c);
      ([s[0]] + rest.0, rest.1)
  }

  function CleanPath(value: string): string {
    var s := Strip(value);
    if |s| >= 2 && s[0] == s[|s| - 1] && (s[0] == '"' || s[0] == '\'') then s[1..|s| - 1] else s
  }

  function TrimSlashes(s: string): string {
    if s != "" && s[|s| - 1] == '/' then TrimSlashes(s[..|s| - 1]) else s
  }

  function Slashes(s: string): string { TrimSlashes(Replace(s, "\\", "/")) }

  function AfterLastSlash(s: string): string {
    if s == "" || s[|s| - 1] == '/' then "" else AfterLastSlash(s[..|s| - 1]) + [s[|s| - 1]]
  }

  function Basename(value: string): string {
    var s := CleanPath(value);
    if s == "" then ""
    else
      var program := if s[0] == '"' || s[0] == '\'' then s else Cut(s, ' ').0;
      var t := Slashes(program);
      Or(AfterLastSlash(t), t)
  }

  function NormPath(value: string): string { Lower(Slashes(CleanPath(value))) }

  /** A backslash becomes a slash, everything else stays. */
  lemma {:induction false} ForwardSlashes(s: string)
    ensures var t := Replace(s, "\\", "/");
            |t| == |s| && forall i :: 0 <= i < |s| ==> t[i] == if s[i] == '\\' then '/' else s[i]
  {
    if s != "" { ForwardSlashes(s[1..]); }
  }

  /** Slashes at the end go, and only these. */
  lemma {:induction false} TrimSlashesIs(s: string)
    ensures var t := TrimSlashes(s);
            && t <= s && (t != "" ==> t[|t| - 1] != '/') && forall i :: |t| <= i < |s| ==> s[i] == '/'
  {
    if s != "" && s[|s| - 1] == '/' { TrimSlashesIs(s[..|s| - 1]); }
  }

  /** Without a slash a text is its own last part. */
  lemma {:induction false} NoSlash(s: string)
    requires '/' !in s
    ensures AfterLastSlash(s) == s
  {
    if s != "" {
      NoSlash(s[..|s| - 1]);
      assert s == s[..|s| - 1] + [s[|s| - 1]];
    }
  }

  /** Quotes around a text are taken off if they are alike, and nothing else is but the blanks at its ends. */
  lemma Unquoted(p: string)
    ensures CleanPath("\"" + p + "\"") == p && CleanPath("'" + p + "'") == p
    ensures CleanPath("\"" + p + "'") == "\"" + p + "'"
    ensures '"' !in p && '\'' !in p ==> CleanPath(p) == Strip(p)
  {
    var s, t, u := "\"" + p + "\"", "'" + p + "'", "\"" + p + "'";
    assert s[0] == s[|s| - 1] == '"' && s[1..|s| - 1] == p;
    assert t[0] == t[|t| - 1] == '\'' && t[1..|t| - 1] == p;
    assert u[0] == '"' && u[|u| - 1] == '\'';
    var a, b := StripIs(p);
    assert forall i :: 0 <= i < |Strip(p)| ==> Strip(p)[i] == p[|a| + i];
  }

  lemma {:induction false} TrimAlike(a: string, b: string)
    requires Lower(a) == Lower(b)
    ensures Lower(TrimSlashes(a)) == Lower(TrimSlashes(b))
  {
    LowerAlike(a, b);
    if a != "" {
      var c, d := a[..|a| - 1], b[..|b| - 1];
      assert LowerChar(a[|a| - 1]) == LowerChar(b[|b| - 1]);
      if a[|a| - 1] == '/' {
        LowerAlike(c, d);
        TrimAlike(c, d);
      }
    }
  }

  /** Two spellings of a path that differ in case and in the direction of their slashes are one path. */
  lemma SpellingsMeet(p: string, q: string)
    requires CleanPath(p) == p && CleanPath(q) == q && |p| == |q|
    requires forall i :: 0 <= i < |p| ==> LowerChar(p[i]) == LowerChar(q[i]) || (p[i] == '\\' && q[i] == '/')
    ensures NormPath(p) == NormPath(q)
  {
    ForwardSlashes(p);
    ForwardSlashes(q);
    LowerAlike(Replace(p, "\\", "/"), Replace(q, "\\", "/"));
    TrimAlike(Replace(p, "\\", "/"), Replace(q, "\\", "/"));
  }

  lemma {:induction false} CutAt(a: string, c: char, b: string)
    requires c !in a
    ensures Cut(a + [c] + b, c) == (a, Some(b))
  {
    if a != "" {
      CutAt(a[1..], c, b);
      assert (a + [c] + b)[1..] == a[1..] + [c] + b && [a[0]] + a[1..] == a;
    } else {
      assert ("" + [c] + b)[1..] == b;
    }
  }

  lemma {:induction false} AfterSlashAt(r: string, n: nat)
    requires n < |r| && r[n] == '/' && forall i :: n < i < |r| ==> r[i] != '/'
    ensures AfterLastSlash(r) == r[n + 1..]
  {
    if n < |r| - 1 {
      AfterSlashAt(r[..|r| - 1], n);
      assert r[n + 1..] == r[..|r| - 1][n + 1..] + [r[|r| - 1]];
    }
  }

  lemma LastPart(dir: string, slash: char, name: string)
    requires slash == '/' || slash == '\\'
    requires name != "" && forall i :: 0 <= i < |name| ==> name[i] != '/' && name[i] != '\\'
    ensures AfterLastSlash(Slashes(dir + [slash] + name)) == name
  {
    var p, n := dir + [slash] + name, |dir|;
    var r := Replace(p, "\\", "/");
    ForwardSlashes(p);
    assert forall i :: n < i < |p| ==> p[i] == name[i - n - 1];
    assert forall i :: n < i < |p| ==> r[i] == p[i] && r[i] != '/';
    assert r[n + 1..] == name;
    assert TrimSlashes(r) == r;
    AfterSlashAt(r, n);
  }

  /** The program of a command line: what follows the last slash or backslash, up to the arguments. */
  lemma ProgramOf(dir: string, slash: char, name: string, args: string, line: string)
    requires slash == '/' || slash == '\\'
    requires name != "" && forall i :: 0 <= i < |name| ==> name[i] != '/' && name[i] != '\\'
    requires ' ' !in dir + [slash] + name && line == dir + [slash] + name + [' '] + args && CleanPath(line) == line
    requires line[0] != '"' && line[0] != '\''
    ensures Basename(line) == name
  {
    CutAt(dir + [slash] + name, ' ', args);
    LastPart(dir, slash, name);
  }

  // ------------------------------------------------------------- keys

  datatype Kind = Process | Identity | File | Object | Network

  function ProcessKey(guid: string, pid: string, image: string): string {
    if guid != "" then "p:" + ("g:" + Lower(guid))
    else if pid != "" then "p:" + ("i:" + pid + ":" + Lower(Basename(image)))
    else if image != "" then "p:" + ("n:" + NormPath(image))
    else "p:" + "unknown"
  }

  function FileKey(path: string): string { "f:" + NormPath(path) }

  function NetworkKey(title: string): string { "net:" + Lower(title) }

  function IdentityKey(title: string): string { "id:" + Lower(title) }

  function ObjectKey(objectType: string, path: string): string { "obj:" + Lower(objectType + ":" + path) }

  /** The first character of a key tells the type of its node. */
  function KindOfKey(key: string): Kind {
    if key == "" then Process
    else if key[0] == 'f' then File
    else if key[0] == 'n' then Network
    else if key[0] == 'i' then Identity
    else if key[0] == 'o' then Object
    else Process
  }

  lemma ProcessKeyKind(guid: string, pid: string, image: string)
    ensures KindOfKey(ProcessKey(guid, pid, image)) == Process
  {
    assert ProcessKey(guid, pid, image)[0] == 'p';
  }

  lemma FileKeyKind(path: string)
    ensures KindOfKey(FileKey(path)) == File
  {
    assert FileKey(path)[0] == 'f';
  }

  lemma NetworkKeyKind(title: string)
    ensures KindOfKey(NetworkKey(title)) == Network
  {
    assert NetworkKey(title)[0] == 'n';
  }

  lemma AuditKeysKind(actor: string, objectType: string, path: string)
    ensures KindOfKey(IdentityKey(actor)) == Identity && KindOfKey(ObjectKey(objectType, path)) == Object
  {
    assert IdentityKey(actor)[0] == 'i' && ObjectKey(objectType, path)[0] == 'o';
  }

  // ------------------------------------------------------------- observations

  datatype Observation =
    | Unhandled
    | ProcessStart(guid: string, pid: string, image: string, cmdline: string, user: string, integrity: string,
                   parentGuid: string, parentPid: string, parentImage: string)
    | FileWrite(target: string, image: string, guid: string, pid: string)
    | Audit(actor: string, domain: string, account: string, title: string, path: string, objectType: string,
            action: string)
    | Connection(image: string, guid: string, pid: string, host: string, ip: string, port: string, protocol: string,
                 resolved: bool)

  function Pid(s: string): string { Strip(s) }

  function NoDash(s: string): string {
    var t := Strip(s);
    if t == "-" || t == "N/A" || t == "n/a" then "" else s
  }

  function ProtocolName(p: string): string { if p == "6" then "TCP" else if p == "17" then "UDP" else p }

  function ActorLabel(domain: string, account: string): string {
    if account != "" && Contains(account, "\\") then account
    else if domain != "" && account != "" then domain + "\\" + account
    else Or(account, "(不明な実行者)")
  }

  /** The first component of a distinguished name, without its attribute name. */
  function ShortName(path: string): string {
    var first := Cut(path, ',').0;
    match Cut(first, '=').1
    case None => Take(first, 60)
    case Some(rest) => Take(rest, 60)
  }

  /** The first component of `CN=name,OU=...`, without its attribute and cut to sixty characters. */
  lemma ShortNameIs(attribute: string, name: string, rest: string)
    requires ',' !in attribute && '=' !in attribute && ',' !in name
    ensures ShortName(attribute + "=" + name + "," + rest) == Take(name, 60)
  {
    var first := attribute + "=" + name;
    CutAt(first, ',', rest);
    CutAt(attribute, '=', name);
  }

  function DecodeProcess(eid: string, f: map<string, string>): Observation {
    if eid == "1" then
      ProcessStart(First(f, ["ProcessGuid", "PGUID"]), Pid(First(f, ["ProcessId", "PID"])), First(f, ["Image", "Proc"]),
                   First(f, ["CommandLine", "Cmdline"]), First(f, ["User"]), First(f, ["IntegrityLevel"]),
                   First(f, ["ParentProcessGuid", "ParentPGUID"]), Pid(First(f, ["ParentProcessId", "ParentPID"])),
                   First(f, ["ParentImage", "ParentProc"]))
    else
      ProcessStart("", Pid(First(f, ["NewProcessId", "PID"])), First(f, ["NewProcessName", "Image", "Proc"]),
                   First(f, ["CommandLine", "Cmdline"]), First(f, ["SubjectUserName", "TargetUserName", "User"]),
                   First(f, ["MandatoryLabel", "TokenElevationType", "IntegrityLevel"]),
                   "", Pid(First(f, ["ProcessId", "ParentPID"])),
                   First(f, ["ParentProcessName", "ParentImage", "ParentProc"]))
  }

  function DecodeFile(f: map<string, string>): Observation {
    FileWrite(First(f, ["TargetFilename", "FileName", "ObjectName"]), First(f, ["Image", "Proc", "ProcessName"]),
              First(f, ["ProcessGuid", "PGUID"]), Pid(First(f, ["ProcessId", "PID"])))
  }

  function DecodeAudit(eid: string, f: map<string, string>): Observation {
    var domain := First(f, ["SubjectDomainName", "TargetDomainName"]);
    var account := First(f, ["SubjectUserName", "TargetUserName"]);
    var actor := ActorLabel(domain, account);
    var target := First(f, ["TargetUserName", "TargetUserSid"]);
    match eid
    case "4719" => Audit(actor, domain, account, "監査ポリシー", "", "policy", "監査ポリシー変更")
    case "1102" => Audit(actor, domain, account, "監査ログ", "", "log", "監査ログ消去")
    case "4738" =>
      var title := Or(target, "(不明なアカウント)");
      Audit(actor, domain, account, title, title, "account", "アカウント変更")
    case "4702" =>
      var title := Or(target, "(不明なアカウント)");
      Audit(actor, domain, account, title, title, "account", "パスワードリセット")
    case "4742" =>
      var title := Or(target, "(不明なコンピューター)");
      Audit(actor, domain, account, title, title, "computer", "コンピューター変更")
    case "5136" =>
      var path := Or(First(f, ["ObjectDN", "ObjectName"]), "(不明なオブジェクト)");
      var attr := First(f, ["AttributeLDAPDisplayName"]);
      Audit(actor, domain, account, Or(ShortName(path), Take(path, 60)), path, "directory",
            "属性変更" + if attr != "" then " (" + attr + ")" else "")
    case _ =>
      var path := Or(First(f, ["ObjectName", "ObjectType"]), "(不明なオブジェクト)");
      Audit(actor, domain, account, ShortName(path), path, "object", "オブジェクト操作")
  }

  function DecodeConnection(eid: string, f: map<string, string>): Observation {
    var image, guid := First(f, ["Image", "Proc", "ProcessName"]), First(f, ["ProcessGuid", "PGUID"]);
    var pid := Pid(First(f, ["ProcessId", "PID"]));
    if eid == "22" then
      Connection(image, guid, pid, NoDash(First(f, ["QueryName", "Query", "DestinationHostname"])), "", "", "DNS",
                 true)
    else if eid == "5156" then
      Connection(First(f, ["Application", "Image", "ProcessName"]), "",
                 Pid(First(f, ["ProcessId", "PID", "ProcessID"])),
                 "", NoDash(First(f, ["DestAddress", "DestinationIp", "DestinationIP"])),
                 Pid(First(f, ["DestPort", "DestinationPort"])), ProtocolName(First(f, ["Protocol"])), false)
    else
      Connection(image, guid, pid, NoDash(First(f, ["DestinationHostname", "DestinationHostName"])),
                 NoDash(First(f, ["DestinationIp", "DestinationIP"])), Pid(First(f, ["DestinationPort"])),
                 ProtocolName(First(f, ["Protocol"])), false)
  }

  function Decode(eid: string, f: map<string, string>): Observation {
    if eid == "1" || eid == "4688" then DecodeProcess(eid, f)
    else if eid == "11" || eid == "15" then DecodeFile(f)
    else if eid == "3" || eid == "22" || eid == "5156" then DecodeConnection(eid, f)
    else if eid == "5136" || eid == "4662" || eid == "4719" || eid == "4738" || eid == "4702" || eid == "1102"
            || eid == "4742" then DecodeAudit(eid, f)
    else Unhandled
  }

  function ConnectionLabel(o: Observation): string
    requires o.Connection?
  {
    var base := Or(o.host, o.ip);
    if base == "" || o.port == "" then base else base + ":" + o.port
  }

  // ------------------------------------------------------------- what the fields of an event mean

  /** The value read is the first of the named fields that is not blank. */
  lemma {:induction false} FirstIsFirstFilled(f: map<string, string>, names: seq<string>, i: nat)
    requires i < |names| && names[i] in f && f[names[i]] != ""
    requires forall j :: 0 <= j < i ==> names[j] !in f || f[names[j]] == ""
    ensures First(f, names) == f[names[i]]
  {
    if i > 0 {
      assert names[0] !in f || f[names[0]] == "";
      assert forall j :: 0 <= j < i - 1 ==> names[1..][j] == names[j + 1];
      FirstIsFirstFilled(f, names[1..], i - 1);
    }
  }

  lemma {:induction false} NothingFilled(f: map<string, string>, names: seq<string>)
    requires forall j :: 0 <= j < |names| ==> names[j] !in f || f[names[j]] == ""
    ensures First(f, names) == ""
  {
    if names != [] {
      assert names[0] !in f || f[names[0]] == "";
      assert forall j :: 0 <= j < |names| - 1 ==> names[1..][j] == names[j + 1];
      NothingFilled(f, names[1..]);
    }
  }

  /** A process start of the Sysmon sensor, in its own field names. */
  lemma SysmonStart(f: map<string, string>)
    requires Filled(f, {"ProcessGuid", "ProcessId", "Image", "CommandLine", "User", "IntegrityLevel",
                        "ParentProcessGuid", "ParentProcessId", "ParentImage"})
    ensures Decode("1", f) == ProcessStart(f["ProcessGuid"], Strip(f["ProcessId"]), f["Image"], f["CommandLine"],
                                           f["User"], f["IntegrityLevel"], f["ParentProcessGuid"],
                                           Strip(f["ParentProcessId"]), f["ParentImage"])
  {
  }

  /** All these fields are there and not blank. */
  predicate Filled(f: map<string, string>, names: set<string>) { forall n :: n in names ==> n in f && f[n] != "" }

  /** In a process start of the Security log the new process has fields of its own, and the others are the parent's. */
  lemma SecurityStart(f: map<string, string>)
    requires Filled(f, {"NewProcessId", "NewProcessName", "CommandLine", "SubjectUserName", "MandatoryLabel",
                        "ProcessId", "ParentProcessName"})
    ensures Decode("4688", f) == ProcessStart("", Strip(f["NewProcessId"]), f["NewProcessName"], f["CommandLine"],
                                              f["SubjectUserName"], f["MandatoryLabel"], "", Strip(f["ProcessId"]),
                                              f["ParentProcessName"])
  {
  }

  lemma WithoutGuids(f: map<string, string>)
    requires Filled(f, {"ProcessId", "Image", "ParentProcessId", "ParentImage"})
    requires "ProcessGuid" !in f && "PGUID" !in f && "ParentProcessGuid" !in f && "ParentPGUID" !in f
    ensures var o := Decode("1", f);
            && o.ProcessStart? && o.guid == "" && o.pid == Strip(f["ProcessId"]) && o.image == f["Image"]
            && o.parentGuid == "" && o.parentPid == Strip(f["ParentProcessId"]) && o.parentImage == f["ParentImage"]
  {
    NothingFilled(f, ["ProcessGuid", "PGUID"]);
    NothingFilled(f, ["ParentProcessGuid", "ParentPGUID"]);
  }

  lemma NewProcess(f: map<string, string>)
    requires Filled(f, {"NewProcessId", "NewProcessName", "ProcessId", "ParentProcessName"})
    ensures var o := Decode("4688", f);
            && o.ProcessStart? && o.guid == "" && o.pid == Strip(f["NewProcessId"]) && o.image == f["NewProcessName"]
            && o.parentGuid == "" && o.parentPid == Strip(f["ProcessId"]) && o.parentImage == f["ParentProcessName"]
  {
  }

  /** The node of a process and the node of its parent. */
  function StartKeys(o: Observation): (string, string)
    requires o.ProcessStart?
  {
    (ProcessKey(o.guid, o.pid, o.image), ProcessKey(o.parentGuid, o.parentPid, o.parentImage))
  }

  /** Both sensors give a process started without GUIDs the same node, and its parent as well. */
  lemma SensorsAgree(f: map<string, string>, g: map<string, string>)
    requires Filled(f, {"ProcessId", "Image", "ParentProcessId", "ParentImage"})
    requires "ProcessGuid" !in f && "PGUID" !in f && "ParentProcessGuid" !in f && "ParentPGUID" !in f
    requires Filled(g, {"NewProcessId", "NewProcessName", "ProcessId", "ParentProcessName"})
    requires f["ProcessId"] == g["NewProcessId"] && f["Image"] == g["NewProcessName"]
    requires f["ParentProcessId"] == g["ProcessId"] && f["ParentImage"] == g["ParentProcessName"]
    ensures Decode("1", f).ProcessStart? && Decode("4688", g).ProcessStart?
    ensures StartKeys(Decode("1", f)) == StartKeys(Decode("4688", g))
  {
    WithoutGuids(f);
    NewProcess(g);
  }

  /** A file write names the file and the process that wrote it. */
  lemma SysmonWrite(f: map<string, string>, eid: string)
    requires eid == "11" || eid == "15"
    requires Filled(f, {"TargetFilename", "Image", "ProcessGuid", "ProcessId"})
    ensures Decode(eid, f) == FileWrite(f["TargetFilename"], f["Image"], f["ProcessGuid"], Strip(f["ProcessId"]))
  {
  }

  /** A DNS query names the host; its answer is not looked at. */
  lemma SysmonQuery(f: map<string, string>)
    requires Filled(f, {"QueryName", "Image", "ProcessGuid", "ProcessId"})
    ensures Decode("22", f) == Connection(f["Image"], f["ProcessGuid"], Strip(f["ProcessId"]), NoDash(f["QueryName"]),
                                          "", "", "DNS", true)
  {
  }

  /** A connection of the Sysmon sensor has a host or an address, a port and a protocol. */
  lemma SysmonConnection(f: map<string, string>)
    requires Filled(f, {"Image", "ProcessGuid", "ProcessId", "DestinationHostname", "DestinationIp",
                        "DestinationPort", "Protocol"})
    ensures Decode("3", f) == Connection(f["Image"], f["ProcessGuid"], Strip(f["ProcessId"]),
                                         NoDash(f["DestinationHostname"]), NoDash(f["DestinationIp"]),
                                         Strip(f["DestinationPort"]), ProtocolName(f["Protocol"]), false)
  {
  }

  /** A connection the Security log permitted has an address only, and its process has no GUID. */
  lemma SecurityConnection(f: map<string, string>)
    requires Filled(f, {"Application", "ProcessId", "DestAddress", "DestPort", "Protocol"})
    ensures Decode("5156", f) == Connection(f["Application"], "", Strip(f["ProcessId"]), "", NoDash(f["DestAddress"]),
                                            Strip(f["DestPort"]), ProtocolName(f["Protocol"]), false)
  {
  }

  /** A blank peer and two protocol numbers are rewritten; everything else is shown as it is. */
  lemma PeerTexts(s: string)
    ensures NoDash(s) == "" <==> s == "" || Strip(s) == "-" || Strip(s) == "N/A" || Strip(s) == "n/a"
    ensures NoDash(s) != "" ==> NoDash(s) == s
    ensures ProtocolName("6") == "TCP" && ProtocolName("17") == "UDP"
    ensures s != "6" && s != "17" ==> ProtocolName(s) == s
  {
  }

  /** Connections of both sensors to one address and port meet in one node, whatever the protocol. */
  lemma PeersMeet(f: map<string, string>, g: map<string, string>)
    requires Filled(f, {"Application", "ProcessId", "DestAddress", "DestPort", "Protocol"})
    requires Filled(g, {"Image", "ProcessGuid", "ProcessId", "DestinationHostname", "DestinationIp",
                        "DestinationPort", "Protocol"})
    requires g["DestinationHostname"] == "-" && f["DestAddress"] == g["DestinationIp"]
    requires f["DestPort"] == g["DestinationPort"]
    ensures Decode("5156", f).Connection? && Decode("3", g).Connection?
    ensures NetworkKey(ConnectionLabel(Decode("5156", f))) == NetworkKey(ConnectionLabel(Decode("3", g)))
  {
    SecurityConnection(f);
    SysmonConnection(g);
    assert NoDash("-") == "";
  }

  predicate IsAudit(eid: string) {
    eid == "4719" || eid == "1102" || eid == "4738" || eid == "4702" || eid == "4742" || eid == "5136" || eid == "4662"
  }

  lemma AuditIsDecoded(eid: string, f: map<string, string>)
    requires IsAudit(eid)
    ensures Decode(eid, f) == DecodeAudit(eid, f)
  {
  }

  lemma AuditNames(eid: string, f: map<string, string>, domain: string, account: string)
    requires domain == First(f, ["SubjectDomainName", "TargetDomainName"])
    requires account == First(f, ["SubjectUserName", "TargetUserName"])
    ensures var o := DecodeAudit(eid, f);
            o.domain == domain && o.account == account && o.actor == ActorLabel(domain, account)
  {
  }

  /** The account as `DOMAIN\\user`, unless the domain is there already. */
  lemma AuditActor(eid: string, f: map<string, string>)
    requires Filled(f, {"SubjectDomainName", "SubjectUserName"}) && !Contains(f["SubjectUserName"], "\\")
    ensures var o := DecodeAudit(eid, f);
            && o.Audit? && o.domain == f["SubjectDomainName"] && o.account == f["SubjectUserName"]
            && o.actor == f["SubjectDomainName"] + "\\" + f["SubjectUserName"]
  {
    FirstIsFirstFilled(f, ["SubjectDomainName", "TargetDomainName"], 0);
    FirstIsFirstFilled(f, ["SubjectUserName", "TargetUserName"], 0);
    AuditNames(eid, f, f["SubjectDomainName"], f["SubjectUserName"]);
  }

  /** The type of the object, its path and what is done to it. */
  predicate Targets(o: Observation, objectType: string, path: string, action: string) {
    o.Audit? && o.objectType == objectType && o.path == path && o.action == action
  }

  lemma FixedTargets(f: map<string, string>)
    ensures Targets(DecodeAudit("4719", f), "policy", "", "監査ポリシー変更")
    ensures Targets(DecodeAudit("1102", f), "log", "", "監査ログ消去")
  {
  }

  lemma AccountTargets(f: map<string, string>, account: string)
    requires account == First(f, ["TargetUserName", "TargetUserSid"]) != ""
    ensures Targets(DecodeAudit("4738", f), "account", account, "アカウント変更")
    ensures Targets(DecodeAudit("4702", f), "account", account, "パスワードリセット")
    ensures Targets(DecodeAudit("4742", f), "computer", account, "コンピューター変更")
  {
  }

  /** A directory object goes by its distinguished name, and the action names the attribute. */
  lemma DirectoryTarget(f: map<string, string>, path: string, attr: string)
    requires path == First(f, ["ObjectDN", "ObjectName"]) != "" && attr == First(f, ["AttributeLDAPDisplayName"]) != ""
    ensures Targets(DecodeAudit("5136", f), "directory", path, "属性変更" + " (" + attr + ")")
  {
    assert "属性変更" + (" (" + attr + ")") == "属性変更" + " (" + attr + ")";
  }

  lemma ObjectTarget(f: map<string, string>, path: string)
    requires path == First(f, ["ObjectName", "ObjectType"]) != ""
    ensures Targets(DecodeAudit("4662", f), "object", path, "オブジェクト操作")
  {
  }
}
