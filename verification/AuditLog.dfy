/**
 The hash-chained audit log.

 Each line of the file is a JSON object that stores the digest of the previous
 entry and the digest of its own payload chained onto it.  The digest function
 and the canonical JSON printer are parameters: nothing is assumed of them except
 where a lemma says so, and digests are required to differ on the texts of the two
 files at hand only.
 */
module AuditLog {
  import opened Wrappers
  import opened Strings
  import opened Sequences

  datatype Json =
    | Null
    | Bool(b: bool)
    | Num(x: real)
    | Str(s: string)
    | Arr(items: seq<Json>)
    | Obj(fields: map<string, Json>)
  {
    /** Python's truth value. */
    predicate Truthy() {
      match this
      case Null => false
      case Bool(b) => b
      case Num(x) => x != 0.0
      case Str(s) => s != ""
      case Arr(items) => items != []
      case Obj(fields) => |fields| != 0
    }
  }

  type Record = map<string, Json>

  function Get(r: Record, key: string): Json {
    if key in r then r[key] else Null
  }

  /** The six fields the digest covers. */
  datatype Payload = Payload(ts: Json, action: Json, actor: Json, objectType: Json, objectId: Json, detail: Json)

  function OrEmpty(detail: Json): Json {
    if detail.Truthy() then detail else Obj(map[])
  }

  /** Anything that counts as false is stored as an empty object. */
  lemma OrEmptyIs(detail: Json)
    ensures detail == Null || detail == Bool(false) || detail == Num(0.0) || detail == Str("") || detail == Arr([]) ==>
              OrEmpty(detail) == Obj(map[])
    ensures detail == Bool(true) || detail.Obj? ==> OrEmpty(detail) == detail
    ensures detail.Num? && detail.x != 0.0 ==> OrEmpty(detail) == detail
    ensures detail.Str? && detail.s != "" ==> OrEmpty(detail) == detail
    ensures detail.Arr? && detail.items != [] ==> OrEmpty(detail) == detail
  {
  }

  function EntryPayload(r: Record): Payload {
    Payload(Get(r, "ts"), Get(r, "action"), Get(r, "actor"), Get(r, "object_type"), Get(r, "object_id"),
            OrEmpty(Get(r, "detail")))
  }

  /** A line of the file as the reader sees it: `Scalar` is valid JSON that is not an object. */
  datatype Line = Blank | Garbled | Scalar | Entry(rec: Record)

  datatype Verdict =
    | Sound(entries: nat, last: string)
    | Broken(entries: nat, line: nat)
    | Raised(line: nat)

  const GENESIS := "GENESIS"

  /** The digest of a text and the canonical text of a payload. */
  datatype Primitives = Primitives(sha: string -> string, canon: Payload -> string) {

    function EntryHash(prev: string, p: Payload): string {
      sha(prev + "\n" + canon(p))
    }

    /** Whether `line` is the entry that may follow an entry with digest `prev`. */
    predicate Extends(line: Line, prev: string) {
      line.Entry?
      && Get(line.rec, "prev_hash") == Str(prev)
      && Get(line.rec, "hash") == Str(EntryHash(prev, EntryPayload(line.rec)))
    }

    /** The verdict on `lines`, given the digest and the number of entries before them. */
    function VerifyFrom(lines: seq<Line>, prev: string, n: nat, at: nat): Verdict {
      if lines == [] then Sound(n, prev)
      else match lines[0]
        case Blank => VerifyFrom(lines[1..], prev, n, at + 1)
        case Garbled => Broken(n + 1, at + 1)
        case Scalar => Raised(at + 1)
        case Entry(rec) =>
          if Extends(lines[0], prev)
          then VerifyFrom(lines[1..], EntryHash(prev, EntryPayload(rec)), n + 1, at + 1)
          else Broken(n + 1, at + 1)
    }

    function Verdict(lines: seq<Line>): Verdict {
      VerifyFrom(lines, GENESIS, 0, 0)
    }

    /** The record `append` writes for a payload. */
    function Written(prev: string, p: Payload): Record {
      map["ts" := p.ts, "action" := p.action, "actor" := p.actor, "object_type" := p.objectType,
          "object_id" := p.objectId, "detail" := p.detail,
          "prev_hash" := Str(prev), "hash" := Str(EntryHash(prev, p))]
    }

    /** Digests are 64 lower-case hexadecimal digits (section 6.2 of FIPS 180-4, printed in base 16). */
    ghost predicate HexDigests() {
      forall m :: |sha(m)| == 64 && forall i :: 0 <= i < 64 ==> IsHex(sha(m)[i])
    }
  }

  predicate IsHex(c: char) { '0' <= c <= '9' || 'a' <= c <= 'f' }

  // ------------------------------------------------------------- what loading sees

  function CountOf(lines: seq<Line>): nat {
    if lines == [] then 0
    else CountOf(lines[..|lines| - 1]) + (if lines[|lines| - 1].Blank? then 0 else 1)
  }

  /** The digest stored in the last entry that stores a non-empty one. */
  function HeadOf(lines: seq<Line>): string {
    if lines == [] then GENESIS
    else
      var l := lines[|lines| - 1];
      if l.Entry? && Get(l.rec, "hash").Str? && Get(l.rec, "hash").s != ""
      then Get(l.rec, "hash").s
      else HeadOf(lines[..|lines| - 1])
  }

  // ------------------------------------------------------------- what tail returns

  function Keeps(rec: Record, caseId: string): bool {
    var detail := OrEmpty(Get(rec, "detail"));
    detail.Obj? && (Get(detail.fields, "case_id") == Str(caseId) || Get(rec, "object_id") == Str(caseId))
  }

  /** Reading a field of something that is not an object raises in the console. */
  predicate FilterRaises(l: Line, caseId: string) {
    caseId != "" && (l.Scalar? || (l.Entry? && !OrEmpty(Get(l.rec, "detail")).Obj?))
  }

  function Selected(lines: seq<Line>, caseId: string): seq<Line> {
    if lines == [] then []
    else
      var l := lines[|lines| - 1];
      var before := Selected(lines[..|lines| - 1], caseId);
      if Wanted(l, caseId) then before + [l] else before
  }

  predicate Wanted(l: Line, caseId: string) {
    l.Scalar? || (l.Entry? && (caseId == "" || Keeps(l.rec, caseId)))
  }

  /** A case finds an entry the console wrote by the entry's object or by the case named in its detail. */
  lemma WantedWritten(pr: Primitives, prev: string, p: Payload, caseId: string)
    requires p.detail.Obj? && caseId != ""
    ensures Wanted(Entry(pr.Written(prev, p)), caseId) <==>
            p.objectId == Str(caseId)
            || ("case_id" in p.detail.fields && p.detail.fields["case_id"] == Str(caseId))
  {
    assert Get(pr.Written(prev, p), "detail") == p.detail;
  }

  /** What a selection leaves out: blank and unreadable lines, and with a case the entries of the others. */
  lemma {:induction false} SelectedMeans(lines: seq<Line>, caseId: string, l: Line)
    ensures l in Selected(lines, caseId) <==>
            l in lines && (l.Scalar? || (l.Entry? && (caseId == "" || Keeps(l.rec, caseId))))
  {
    if lines != [] {
      var init := lines[..|lines| - 1];
      SelectedMeans(init, caseId, l);
      assert lines == init + [lines[|init|]];
    }
  }

  /** The bounded window: one more line pushes the oldest one out. */
  lemma Slide<T>(s: seq<T>, x: T, n: nat)
    requires n >= 1
    ensures var w := LastOf(s, n) + [x]; LastOf(s + [x], n) == if |w| > n then w[1..] else w
  {
  }

  function LastOf<T>(s: seq<T>, n: nat): seq<T> {
    if |s| <= n then s else s[|s| - n..]
  }

  class Log {
    const prim: Primitives
    var file: seq<Line>
    var lastHash: string
    var count: nat

    /** The in-memory head and count are the ones a verification of the file arrives at. */
    ghost predicate InStep()
      reads this
    {
      prim.Verdict(file) == Sound(count, lastHash)
    }

    constructor (prim: Primitives, file: seq<Line>)
      ensures this.prim == prim && this.file == file && lastHash == GENESIS && count == 0
    {
      this.prim, this.file := prim, file;
      lastHash, count := GENESIS, 0;
    }

    /** Rebuilds the head and the count from the file; a line that is JSON but no object raises. */
    method Load() returns (raised: bool)
      modifies this`lastHash, this`count
      requires lastHash == GENESIS && count == 0
      ensures raised <==> Scalar in file
      ensures !raised ==> count == CountOf(file) && lastHash == HeadOf(file)
      ensures !raised && prim.HexDigests() && prim.Verdict(file).Sound? ==> InStep()
    {
      raised := false;
      var i := 0;
      while i < |file|
        invariant 0 <= i <= |file|
        invariant Scalar !in file[..i]
        invariant count == CountOf(file[..i]) && lastHash == HeadOf(file[..i])
      {
        assert file[..i + 1][..i] == file[..i];
        match file[i] {
          case Blank =>
          case Garbled => count := count + 1;
          case Scalar => raised := true; return;
          case Entry(rec) =>
            count := count + 1;
            var h := Get(rec, "hash");
            if h.Str? && h.s != "" { lastHash := h.s; }
        }
        i := i + 1;
      }
      assert file[..i] == file;
      if prim.HexDigests() && prim.Verdict(file).Sound? {
        LoadMatchesVerdict(prim, file);
      }
    }

    /** Appends one entry; an action that is blank is refused and changes nothing. */
    method Append(now: real, action: string, actor: string, defaultActor: string,
                  objectType: string, objectId: string, detail: Json)
      returns (record: Option<Record>)
      modifies this`file, this`lastHash, this`count
      ensures record.None? <==> Take(Strip(action), 80) == ""
      ensures record.None? ==> file == old(file) && lastHash == old(lastHash) && count == old(count)
      ensures record.Some? ==>
                var p := Payload(Num(now), Str(Take(Strip(action), 80)),
                                 Str(Take(if actor != "" then actor else defaultActor, 80)),
                                 Str(Take(objectType, 40)), Str(Take(objectId, 200)), OrEmpty(detail));
                && record.value == prim.Written(old(lastHash), p)
                && EntryPayload(record.value) == p
                && file == old(file) + [Entry(record.value)]
                && lastHash == prim.sha(old(lastHash) + "\n" + prim.canon(p))
                && count == old(count) + 1
      ensures old(InStep()) ==> InStep()
      ensures !old(prim.Verdict(file).Sound?) ==> prim.Verdict(file) == old(prim.Verdict(file))
    {
      var act := Take(Strip(action), 80);
      if act == "" { return None; }
      var who := if actor != "" then actor else defaultActor;
      var p := Payload(Num(now), Str(act), Str(Take(who, 80)), Str(Take(objectType, 40)),
                       Str(Take(objectId, 200)), OrEmpty(detail));
      var prev := lastHash;
      var digest := prim.EntryHash(prev, p);
      var rec := prim.Written(prev, p);
      VerdictOfAppend(prim, file, prev, p);
      file := file + [Entry(rec)];
      lastHash := digest;
      count := count + 1;
      record := Some(rec);
    }

    method Verify() returns (v: Verdict)
      ensures v == prim.Verdict(file)
    {
      var prev, n, i := GENESIS, 0, 0;
      while i < |file|
        invariant 0 <= i <= |file|
        invariant prim.Verdict(file) == prim.VerifyFrom(file[i..], prev, n, i)
      {
        match file[i] {
          case Blank =>
          case Garbled => n := n + 1; return Broken(n, i + 1);
          case Scalar => return Raised(i + 1);
          case Entry(rec) =>
            n := n + 1;
            if Get(rec, "prev_hash") != Str(prev) { return Broken(n, i + 1); }
            var expected := prim.EntryHash(prev, EntryPayload(rec));
            if Get(rec, "hash") != Str(expected) { return Broken(n, i + 1); }
            prev := expected;
        }
        assert file[i..][1..] == file[i + 1..];
        i := i + 1;
      }
      v := Sound(n, prev);
    }

    /** The newest entries, oldest first: a zero limit means 200, and 5000 is the most. */
    method Tail(limit: int, caseId: string) returns (out: Option<seq<Line>>)
      ensures out.None? <==> exists l :: l in file && FilterRaises(l, caseId)
      ensures out.Some? ==>
                var asked := if limit == 0 then 200 else limit;
                var n := if asked < 1 then 1 else if asked > 5000 then 5000 else asked;
                out.value == LastOf(Selected(file, caseId), n)
    {
      var asked := if limit == 0 then 200 else limit;
      var n := if asked < 1 then 1 else if asked > 5000 then 5000 else asked;
      var window: seq<Line> := [];
      var i := 0;
      while i < |file|
        invariant 0 <= i <= |file|
        invariant forall l :: l in file[..i] ==> !FilterRaises(l, caseId)
        invariant window == LastOf(Selected(file[..i], caseId), n)
      {
        assert file[..i + 1][..i] == file[..i] && file[..i + 1] == file[..i] + [file[i]];
        var l := file[i];
        if FilterRaises(l, caseId) { return None; }
        if Wanted(l, caseId) {
          Slide(Selected(file[..i], caseId), l, n);
          window := window + [l];
          if |window| > n { window := window[1..]; }
        }
        i := i + 1;
      }
      assert file[..i] == file;
      out := Some(window);
    }
  }

  // ------------------------------------------------------------- the verdict

  /** A prefix that is sound hands its digest and count on; any other prefix decides the verdict. */
  lemma {:induction false} VerdictOfConcat(pr: Primitives, a: seq<Line>, b: seq<Line>, prev: string, n: nat, at: nat)
    ensures var v := pr.VerifyFrom(a, prev, n, at);
            pr.VerifyFrom(a + b, prev, n, at) ==
            if v.Sound? then pr.VerifyFrom(b, v.last, v.entries, at + |a|) else v
  {
    if a == [] {
      assert a + b == b;
    } else {
      assert (a + b)[1..] == a[1..] + b;
      match a[0] {
        case Blank => VerdictOfConcat(pr, a[1..], b, prev, n, at + 1);
        case Garbled =>
        case Scalar =>
        case Entry(rec) =>
          if pr.Extends(a[0], prev) {
            VerdictOfConcat(pr, a[1..], b, pr.EntryHash(prev, EntryPayload(rec)), n + 1, at + 1);
          }
      }
    }
  }

  /** Once a line is broken, whatever is written later leaves the same line reported. */
  lemma BrokenStaysBroken(pr: Primitives, a: seq<Line>, more: seq<Line>)
    requires !pr.Verdict(a).Sound?
    ensures pr.Verdict(a + more) == pr.Verdict(a)
  {
    VerdictOfConcat(pr, a, more, GENESIS, 0, 0);
  }

  lemma VerdictOfAppend(pr: Primitives, lines: seq<Line>, prev: string, p: Payload)
    ensures p.detail == OrEmpty(p.detail) ==> EntryPayload(pr.Written(prev, p)) == p
    ensures var v := pr.Verdict(lines);
            var w := pr.Verdict(lines + [Entry(pr.Written(prev, p))]);
            && (v.Sound? && v.last == prev && p.detail == OrEmpty(p.detail) ==>
                  w == Sound(v.entries + 1, pr.EntryHash(prev, p)))
            && (!v.Sound? ==> w == v)
  {
    VerdictOfConcat(pr, lines, [Entry(pr.Written(prev, p))], GENESIS, 0, 0);
    var v := pr.Verdict(lines);
    if v.Sound? && v.last == prev && p.detail == OrEmpty(p.detail) {
      var e := Entry(pr.Written(prev, p));
      assert pr.Extends(e, prev);
      assert pr.VerifyFrom([e], prev, v.entries, |lines|)
          == pr.VerifyFrom([e][1..], pr.EntryHash(prev, p), v.entries + 1, |lines| + 1);
    }
  }

  predicate Breaks(pr: Primitives, l: Line, prev: string) {
    l.Garbled? || (l.Entry? && !pr.Extends(l, prev))
  }

  /** `verify` reports line k exactly when everything before k is chained and line k is not. */
  lemma FirstBrokenLineIff(pr: Primitives, lines: seq<Line>, n: nat, k: nat)
    ensures pr.Verdict(lines) == Broken(n, k) <==>
            && 1 <= k <= |lines| && pr.Verdict(lines[..k - 1]).Sound?
            && pr.Verdict(lines[..k - 1]).entries + 1 == n
            && Breaks(pr, lines[k - 1], pr.Verdict(lines[..k - 1]).last)
  {
    if 1 <= k <= |lines| {
      var a, b := lines[..k - 1], lines[k - 1..];
      assert lines == a + b;
      VerdictOfConcat(pr, a, b, GENESIS, 0, 0);
      if !pr.Verdict(a).Sound? {
        StopsInside(pr, a, GENESIS, 0, 0);
      } else if !Breaks(pr, b[0], pr.Verdict(a).last) {
        StopsInside(pr, b[1..], pr.Verdict(a).last, pr.Verdict(a).entries, k);
        if b[0].Entry? {
          var next := pr.EntryHash(pr.Verdict(a).last, EntryPayload(b[0].rec));
          StopsInside(pr, b[1..], next, pr.Verdict(a).entries + 1, k);
        }
      }
    } else {
      StopsInside(pr, lines, GENESIS, 0, 0);
    }
  }

  /** A verdict that stops names one of the lines it was given. */
  lemma {:induction false} StopsInside(pr: Primitives, lines: seq<Line>, prev: string, n: nat, at: nat)
    ensures var v := pr.VerifyFrom(lines, prev, n, at); !v.Sound? ==> at < v.line <= at + |lines|
  {
    if lines != [] {
      match lines[0] {
        case Blank => StopsInside(pr, lines[1..], prev, n, at + 1);
        case Garbled =>
        case Scalar =>
        case Entry(rec) => StopsInside(pr, lines[1..], pr.EntryHash(prev, EntryPayload(rec)), n + 1, at + 1);
      }
    }
  }

  function Entries(lines: seq<Line>): seq<Record> {
    if lines == [] then []
    else (if lines[0].Entry? then [lines[0].rec] else []) + Entries(lines[1..])
  }

  /** What the entry before position i stores as its digest. */
  function Before(es: seq<Record>, first: string, i: nat): Json
    requires i <= |es|
  {
    if i == 0 then Str(first) else Get(es[i - 1], "hash")
  }

  predicate Linked(pr: Primitives, es: seq<Record>, first: string, i: nat)
    requires i < |es|
  {
    var prev := Before(es, first, i);
    prev.Str? && pr.Extends(Entry(es[i]), prev.s)
  }

  /** The chain said without a scan: each entry stores its predecessor's digest and its own. */
  ghost predicate Chained(pr: Primitives, es: seq<Record>, first: string) {
    forall i: nat :: i < |es| ==> Linked(pr, es, first, i)
  }

  lemma LinkShift(pr: Primitives, rec: Record, tail: seq<Record>, first: string, i: nat)
    requires i < |tail| && pr.Extends(Entry(rec), first)
    ensures Linked(pr, [rec] + tail, first, i + 1)
        <==> Linked(pr, tail, pr.EntryHash(first, EntryPayload(rec)), i)
  {
    var es := [rec] + tail;
    assert es[i + 1] == tail[i];
    if i > 0 { assert es[i] == tail[i - 1]; }
  }

  lemma ChainedCons(pr: Primitives, rec: Record, tail: seq<Record>, first: string)
    ensures Chained(pr, [rec] + tail, first) <==>
            pr.Extends(Entry(rec), first) && Chained(pr, tail, pr.EntryHash(first, EntryPayload(rec)))
  {
    var es, h := [rec] + tail, pr.EntryHash(first, EntryPayload(rec));
    assert Linked(pr, es, first, 0) <==> pr.Extends(Entry(rec), first);
    if pr.Extends(Entry(rec), first) {
      forall i: nat | i < |tail| ensures Linked(pr, es, first, i + 1) <==> Linked(pr, tail, h, i) {
        LinkShift(pr, rec, tail, first, i);
      }
      if Chained(pr, tail, h) {
        forall i: nat | i < |es| ensures Linked(pr, es, first, i) {
          if i > 0 { assert Linked(pr, tail, h, i - 1); }
        }
      }
      if Chained(pr, es, first) {
        forall i: nat | i < |tail| ensures Linked(pr, tail, h, i) {
          assert Linked(pr, es, first, i + 1);
        }
      }
    }
  }

  lemma {:induction false} ChainedFromIff(pr: Primitives, lines: seq<Line>, prev: string, n: nat, at: nat)
    ensures pr.VerifyFrom(lines, prev, n, at).Sound? <==>
            Garbled !in lines && Scalar !in lines && Chained(pr, Entries(lines), prev)
  {
    if lines != [] {
      var rest := lines[1..];
      assert lines == [lines[0]] + rest;
      match lines[0] {
        case Blank =>
          assert Entries(lines) == Entries(rest);
          ChainedFromIff(pr, rest, prev, n, at + 1);
        case Garbled =>
        case Scalar =>
        case Entry(rec) =>
          ChainedFromIff(pr, rest, pr.EntryHash(prev, EntryPayload(rec)), n + 1, at + 1);
          ChainedCons(pr, rec, Entries(rest), prev);
      }
    }
  }

  /** `verify` accepts a file exactly when every entry is chained onto the one before it. */
  lemma VerifyAcceptsIff(pr: Primitives, lines: seq<Line>)
    ensures pr.Verdict(lines).Sound? <==>
            Garbled !in lines && Scalar !in lines && Chained(pr, Entries(lines), GENESIS)
  {
    ChainedFromIff(pr, lines, GENESIS, 0, 0);
  }

  // ------------------------------------------------------------- loading and runs

  /** Loading a sound file finds the head and the count that verification computes. */
  lemma {:induction false} LoadMatchesVerdict(pr: Primitives, lines: seq<Line>)
    requires pr.HexDigests() && pr.Verdict(lines).Sound?
    ensures pr.Verdict(lines) == Sound(CountOf(lines), HeadOf(lines))
  {
    if lines != [] {
      var init, l := lines[..|lines| - 1], lines[|lines| - 1];
      assert lines == init + [l];
      VerdictOfConcat(pr, init, [l], GENESIS, 0, 0);
      LoadMatchesVerdict(pr, init);
      var v := pr.Verdict(init);
      assert [l][1..] == [];
      if l.Entry? {
        assert |pr.EntryHash(v.last, EntryPayload(l.rec))| == 64;
      }
    }
  }

  datatype Op = Appended(p: Payload) | Restarted

  datatype Memory = Memory(file: seq<Line>, last: string, count: nat)

  function Step(pr: Primitives, m: Memory, op: Op): Memory {
    match op
    case Appended(p) =>
      Memory(m.file + [Entry(pr.Written(m.last, p))], pr.EntryHash(m.last, p), m.count + 1)
    case Restarted => Memory(m.file, HeadOf(m.file), CountOf(m.file))
  }

  function Run(pr: Primitives, m: Memory, ops: seq<Op>): Memory
    decreases |ops|
  {
    if ops == [] then m else Run(pr, Step(pr, m, ops[0]), ops[1..])
  }

  /** The payloads `append` builds: a missing detail has become an empty object. */
  predicate Storable(ops: seq<Op>) {
    forall i :: 0 <= i < |ops| && ops[i].Appended? ==> ops[i].p.detail == OrEmpty(ops[i].p.detail)
  }

  /** Appends and restarts in any order keep a sound file sound and the memory in step with it. */
  lemma {:induction false} RunsStaySound(pr: Primitives, m: Memory, ops: seq<Op>)
    requires pr.HexDigests() && Storable(ops)
    requires pr.Verdict(m.file) == Sound(m.count, m.last)
    ensures var e := Run(pr, m, ops); pr.Verdict(e.file) == Sound(e.count, e.last)
    decreases |ops|
  {
    if ops != [] {
      var next := Step(pr, m, ops[0]);
      match ops[0] {
        case Appended(p) => VerdictOfAppend(pr, m.file, m.last, p);
        case Restarted => LoadMatchesVerdict(pr, m.file);
      }
      assert Storable(ops[1..]) by {
        forall i | 0 <= i < |ops[1..]| && ops[1..][i].Appended?
          ensures ops[1..][i].p.detail == OrEmpty(ops[1..][i].p.detail)
        {
          assert ops[1..][i] == ops[i + 1];
        }
      }
      RunsStaySound(pr, next, ops[1..]);
    }
  }

  /** Once a line is broken, appends and restarts in any order leave the same verdict. */
  lemma {:induction false} RunsStayBroken(pr: Primitives, m: Memory, ops: seq<Op>)
    requires !pr.Verdict(m.file).Sound?
    ensures pr.Verdict(Run(pr, m, ops).file) == pr.Verdict(m.file)
    decreases |ops|
  {
    if ops != [] {
      if ops[0].Appended? {
        BrokenStaysBroken(pr, m.file, [Entry(pr.Written(m.last, ops[0].p))]);
      }
      RunsStayBroken(pr, Step(pr, m, ops[0]), ops[1..]);
    }
  }

  // ------------------------------------------------------------- tamper evidence

  function Payloads(lines: seq<Line>): seq<Payload> {
    if lines == [] then []
    else
      var l := lines[|lines| - 1];
      Payloads(lines[..|lines| - 1]) + (if l.Entry? then [EntryPayload(l.rec)] else [])
  }

  function Canons(pr: Primitives, lines: seq<Line>): seq<string> { Map(Payloads(lines), pr.canon) }

  /** The digest a chain over these canonical payloads ends with. */
  function Head(pr: Primitives, cs: seq<string>): string
    decreases |cs|, 1
  {
    if cs == [] then GENESIS else pr.sha(Material(pr, cs))
  }

  function Material(pr: Primitives, cs: seq<string>): string
    requires cs != []
    decreases |cs|, 0
  {
    Head(pr, cs[..|cs| - 1]) + "\n" + cs[|cs| - 1]
  }

  lemma {:induction false} SoundHead(pr: Primitives, lines: seq<Line>)
    requires pr.Verdict(lines).Sound?
    ensures pr.Verdict(lines) == Sound(|Canons(pr, lines)|, Head(pr, Canons(pr, lines)))
  {
    if lines != [] {
      var init, l := lines[..|lines| - 1], lines[|lines| - 1];
      assert lines == init + [l];
      VerdictOfConcat(pr, init, [l], GENESIS, 0, 0);
      SoundHead(pr, init);
      assert [l][1..] == [];
      if l.Entry? {
        var v, p := pr.Verdict(init), EntryPayload(l.rec);
        var cs := Canons(pr, lines);
        assert Payloads(lines)[..|Payloads(init)|] == Payloads(init);
        assert cs == Canons(pr, init) + [pr.canon(p)];
        assert cs[..|cs| - 1] == Canons(pr, init);
        assert Material(pr, cs) == v.last + "\n" + pr.canon(p);
        assert pr.Extends(l, v.last);
        assert pr.Verdict(lines) == pr.VerifyFrom([l][1..], pr.EntryHash(v.last, p), v.entries + 1, |init| + 1);
        assert Head(pr, cs) == pr.sha(Material(pr, cs));
        assert pr.EntryHash(v.last, p) == pr.sha(Material(pr, cs));
      } else {
        assert Canons(pr, lines) == Canons(pr, init);
      }
    }
  }

  lemma HeadHasNoNewline(pr: Primitives, cs: seq<string>)
    requires pr.HexDigests()
    ensures '\n' !in Head(pr, cs)
    ensures cs != [] ==> Head(pr, cs) != GENESIS
  {
    if cs != [] {
      var h := Head(pr, cs);
      forall i | 0 <= i < |h| ensures h[i] != '\n' { assert IsHex(h[i]); }
    }
  }

  function FirstNewline(s: string): nat {
    if s == "" || s[0] == '\n' then 0 else 1 + FirstNewline(s[1..])
  }

  lemma {:induction false} FirstNewlineAfter(p: string, c: string)
    requires '\n' !in p
    ensures FirstNewline(p + "\n" + c) == |p|
  {
    if p != "" {
      assert (p + "\n" + c)[1..] == p[1..] + "\n" + c;
      FirstNewlineAfter(p[1..], c);
    } else {
      assert p + "\n" + c == ['\n'] + c;
    }
  }

  /** The newline in the hashed material separates digest and payload unambiguously. */
  lemma MaterialSplits(p: string, c: string, q: string, d: string)
    requires '\n' !in p && '\n' !in q && p + "\n" + c == q + "\n" + d
    ensures p == q && c == d
  {
    FirstNewlineAfter(p, c);
    FirstNewlineAfter(q, d);
    var m := p + "\n" + c;
    assert p == m[..|p|] && q == (q + "\n" + d)[..|q|];
    assert c == m[|p| + 1..] && d == (q + "\n" + d)[|q| + 1..];
  }

  /** The text that was hashed for entry number `i`, counted from one. */
  function Hashed(pr: Primitives, cs: seq<string>, i: nat): string
    requires 0 < i <= |cs|
  {
    Material(pr, cs[..i])
  }

  /** Entry `i` of one log and entry `j` of the other hash different texts to the same digest. */
  predicate Clash(pr: Primitives, a: seq<string>, b: seq<string>, i: nat, j: nat) {
    && 0 < i <= |a| && 0 < j <= |b| && Hashed(pr, a, i) != Hashed(pr, b, j)
    && pr.sha(Hashed(pr, a, i)) == pr.sha(Hashed(pr, b, j))
  }

  /** No two different texts among those hashed for the two logs share a digest. */
  ghost predicate ClashFree(pr: Primitives, a: seq<string>, b: seq<string>) {
    forall i: nat, j: nat :: !Clash(pr, a, b, i, j)
  }

  /** Two different payload sequences with one head clash at two of their own entries. */
  lemma {:induction false} ClashOf(pr: Primitives, a: seq<string>, b: seq<string>) returns (i: nat, j: nat)
    requires pr.HexDigests() && Head(pr, a) == Head(pr, b) && a != b
    ensures Clash(pr, a, b, i, j)
    decreases |a|
  {
    HeadHasNoNewline(pr, a);
    HeadHasNoNewline(pr, b);
    i, j := |a|, |b|;
    assert a[..i] == a && b[..j] == b;
    if Material(pr, a) == Material(pr, b) {
      var a', b' := a[..i - 1], b[..j - 1];
      HeadHasNoNewline(pr, a');
      HeadHasNoNewline(pr, b');
      MaterialSplits(Head(pr, a'), a[i - 1], Head(pr, b'), b[j - 1]);
      assert a == a' + [a[i - 1]] && b == b' + [b[j - 1]];
      i, j := ClashOf(pr, a', b');
      assert a'[..i] == a[..i] && b'[..j] == b[..j];
    }
  }

  /**
   Two logs that both verify and report the same last digest hold the same canonical
   payloads in the same order, unless two different texts that were hashed for these very
   logs share a digest.
   */
  lemma TamperEvidence(pr: Primitives, original: seq<Line>, altered: seq<Line>)
    requires pr.HexDigests()
    requires pr.Verdict(original).Sound? && pr.Verdict(altered).Sound?
    requires pr.Verdict(original).last == pr.Verdict(altered).last
    ensures || Canons(pr, original) == Canons(pr, altered)
            || exists i: nat, j: nat :: Clash(pr, Canons(pr, original), Canons(pr, altered), i, j)
  {
    SoundHead(pr, original);
    SoundHead(pr, altered);
    if Canons(pr, original) != Canons(pr, altered) {
      var i, j := ClashOf(pr, Canons(pr, original), Canons(pr, altered));
    }
  }

  /** The canonical printer tells the payloads of these logs apart. */
  ghost predicate Printed(pr: Primitives, a: seq<Payload>, b: seq<Payload>) {
    forall p, q :: p in a && q in b && pr.canon(p) == pr.canon(q) ==> p == q
  }

  lemma SamePrints(pr: Primitives, a: seq<Payload>, b: seq<Payload>)
    requires Printed(pr, a, b) && Map(a, pr.canon) == Map(b, pr.canon)
    ensures a == b
  {
    assert |a| == |Map(a, pr.canon)| == |Map(b, pr.canon)| == |b|;
    forall k | 0 <= k < |a| ensures a[k] == b[k] {
      assert pr.canon(a[k]) == Map(a, pr.canon)[k] == Map(b, pr.canon)[k] == pr.canon(b[k]);
    }
  }

  /**
   As long as digest and printer tell apart what is in the two files, any edit, deletion or
   reordering of payloads makes `verify` fail or report another last digest, and nothing
   else changes that digest.
   */
  lemma EditsAreNoticed(pr: Primitives, original: seq<Line>, altered: seq<Line>)
    requires pr.HexDigests() && pr.Verdict(original).Sound?
    requires ClashFree(pr, Canons(pr, original), Canons(pr, altered))
    requires Printed(pr, Payloads(original), Payloads(altered))
    ensures Payloads(altered) != Payloads(original) ==>
              !pr.Verdict(altered).Sound? || pr.Verdict(altered).last != pr.Verdict(original).last
    ensures Payloads(altered) == Payloads(original) && pr.Verdict(altered).Sound? ==>
              pr.Verdict(altered) == pr.Verdict(original)
  {
    SoundHead(pr, original);
    if pr.Verdict(altered).Sound? {
      SoundHead(pr, altered);
      if pr.Verdict(altered).last == pr.Verdict(original).last {
        TamperEvidence(pr, original, altered);
        SamePrints(pr, Payloads(original), Payloads(altered));
      }
    }
  }

  /** The digest covers the payload and the two links, and nothing else an entry may carry. */
  lemma OtherFieldsAreNotCovered(pr: Primitives, lines: seq<Line>, i: nat, key: string, value: Json)
    requires i < |lines| && lines[i].Entry?
    requires key !in {"ts", "action", "actor", "object_type", "object_id", "detail", "prev_hash", "hash"}
    ensures pr.Verdict(lines[i := Entry(lines[i].rec[key := value])]) == pr.Verdict(lines)
  {
    var l' := Entry(lines[i].rec[key := value]);
    var a, b, b' := lines[..i], lines[i..], [l'] + lines[i + 1..];
    assert lines == a + b && lines[i := l'] == a + b';
    VerdictOfConcat(pr, a, b, GENESIS, 0, 0);
    VerdictOfConcat(pr, a, b', GENESIS, 0, 0);
    assert EntryPayload(l'.rec) == EntryPayload(lines[i].rec);
    assert b[1..] == b'[1..];
  }
}
