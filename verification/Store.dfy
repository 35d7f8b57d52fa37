/**
 The detection store: jobs, detections and the per-rule feedback counters.

 The SQLite tables are maps.  Every method is proved against a function on the
 tables, and the properties over runs are proved about those functions.
 */
module Store {
  import opened Wrappers
  import opened Strings

  // ------------------------------------------------------------- rows

  /** The fields of a parsed log line that reach the table; None stands for a missing or null value. */
  datatype Event = Event(ruleId: Option<string>, ruleTitle: Option<string>, level: Option<string>,
                         ts: Option<string>, computer: Option<string>, channel: Option<string>, eventId: Option<string>)

  datatype Verdict = TP | FP

  datatype Row = Row(ruleId: string, ruleTitle: Option<string>, level: string,
                     ts: Option<string>, computer: Option<string>, channel: Option<string>, eventId: Option<string>,
                     raw: string, verdict: Option<Verdict>, verdictAt: Option<real>)

  /** A numbered line handed to `insert_detections`. */
  datatype Item = Item(line: nat, raw: string, event: Event)

  function NormalizeLevel(level: Option<string>): string {
    match level
    case None => ""
    case Some(l) =>
      match Lower(l)
      case "crit" => "critical"
      case "med" => "medium"
      case "info" => "informational"
      case other => other
  }

  function OrBlank(s: Option<string>): string {
    match s case None => "" case Some(t) => t
  }

  /** The rule's own identifier, or a digest of its title and channel. */
  function StableRuleId(e: Event, sha1: string -> string): string {
    var rid := Strip(OrBlank(e.ruleId));
    if rid != "" then rid
    else "h:" + Take(sha1(OrBlank(e.ruleTitle) + "|" + OrBlank(e.channel)), 16)
  }

  function RowOf(i: Item, sha1: string -> string): Row {
    Row(StableRuleId(i.event, sha1), i.event.ruleTitle, NormalizeLevel(i.event.level), i.event.ts,
        i.event.computer, i.event.channel, i.event.eventId, i.raw, None, None)
  }

  // ------------------------------------------------------------- what a row must say

  /** The severity in lower case, with three abbreviations written out. */
  predicate LevelReads(stored: string, level: Option<string>) {
    match level
    case None => stored == ""
    case Some(l) =>
      var low := Lower(l);
      && (low == "crit" ==> stored == "critical")
      && (low == "med" ==> stored == "medium")
      && (low == "info" ==> stored == "informational")
      && (low != "crit" && low != "med" && low != "info" ==> stored == low)
  }

  /** The stripped id, or `h:` and the first 16 digits of a digest of title and channel. */
  predicate RuleIdReads(stored: string, e: Event, sha1: string -> string) {
    var id, digest := Strip(OrBlank(e.ruleId)), sha1(OrBlank(e.ruleTitle) + "|" + OrBlank(e.channel));
    if id != "" then stored == id
    else "h:" <= stored && stored[2..] <= digest && |stored| == if |digest| < 16 then 2 + |digest| else 18
  }

  /** Column by column a row says what the line said, whatever verdict it may have received since. */
  predicate Says(row: Row, raw: string, e: Event, sha1: string -> string) {
    && row.raw == raw && row.ts == e.ts && row.ruleTitle == e.ruleTitle && row.computer == e.computer
    && row.channel == e.channel && row.eventId == e.eventId
    && LevelReads(row.level, e.level) && RuleIdReads(row.ruleId, e, sha1)
  }

  lemma RowSays(i: Item, sha1: string -> string)
    ensures Says(RowOf(i, sha1), i.raw, i.event, sha1)
  {
    var digest := sha1(OrBlank(i.event.ruleTitle) + "|" + OrBlank(i.event.channel));
    assert ("h:" + Take(digest, 16))[2..] == Take(digest, 16) <= digest;
  }

  datatype Key = Key(job: string, line: nat)

  datatype Job = Job(indexedLines: nat, detectionCount: nat)

  datatype Feedback = Feedback(ruleTitle: Option<string>, tp: nat, fp: nat, lastAt: real)

  datatype Tables = Tables(jobs: map<string, Job>, detections: map<Key, Row>, feedback: map<string, Feedback>)

  // ------------------------------------------------------------- what the statements do

  /** INSERT OR IGNORE of one row after another. */
  function Inserted(d: map<Key, Row>, job: string, items: seq<Item>, sha1: string -> string): map<Key, Row> {
    if items == [] then d
    else
      var before := Inserted(d, job, items[..|items| - 1], sha1);
      var last := items[|items| - 1];
      if Key(job, last.line) in before then before else before[Key(job, last.line) := RowOf(last, sha1)]
  }

  function Bumped(jobs: map<string, Job>, job: string, added: nat): map<string, Job> {
    if job in jobs
    then jobs[job := Job(jobs[job].indexedLines + added, jobs[job].detectionCount + added)]
    else jobs
  }

  function IndexedLines(jobs: map<string, Job>, job: string): nat {
    if job in jobs then jobs[job].indexedLines else 0
  }

  function Judged(d: map<Key, Row>, k: Key, v: Option<Verdict>, now: real): map<Key, Row>
    requires k in d
  {
    d[k := d[k].(verdict := v, verdictAt := if v == None then None else Some(now))]
  }

  /** The detections of a rule that carry a verdict. */
  function Voters(d: map<Key, Row>, rule: string, v: Verdict): set<Key> {
    set k | k in d && d[k].ruleId == rule && d[k].verdict == Some(v)
  }

  function Tally(d: map<Key, Row>, rule: string, v: Verdict): nat { |Voters(d, rule, v)| }

  function WithVerdict(t: Tables, k: Key, v: Option<Verdict>, now: real): Tables
    requires k in t.detections
  {
    var d := Judged(t.detections, k, v, now);
    var rule := t.detections[k].ruleId;
    t.(detections := d,
       feedback := t.feedback[rule := Feedback(t.detections[k].ruleTitle, Tally(d, rule, TP), Tally(d, rule, FP), now)])
  }

  function WithoutJob(t: Tables, job: string): Tables {
    t.(jobs := t.jobs - {job}, detections := map k | k in t.detections && k.job != job :: t.detections[k])
  }

  function Cleared(): Tables { Tables(map[], map[], map[]) }

  datatype VerdictArg = Clear | Mark(v: Verdict) | Unknown(text: string)

  datatype FeedbackResult =
    | Rejected
    | NoSuchRow
    | Updated(before: Option<Verdict>, after: Option<Verdict>, ruleId: string, tp: nat, fp: nat)

  class Store {
    const sha1: string -> string
    var jobs: map<string, Job>
    var detections: map<Key, Row>
    var feedback: map<string, Feedback>

    function Now(): Tables
      reads this
    {
      Tables(jobs, detections, feedback)
    }

    constructor (sha1: string -> string)
      ensures Now() == Cleared() && this.sha1 == sha1
    {
      this.sha1 := sha1;
      jobs, detections, feedback := map[], map[], map[];
    }

    /** The job row a boot reindex mints; an existing row keeps its counters. */
    method MintJob(job: string)
      modifies this`jobs
      ensures jobs == if job in old(jobs) then old(jobs) else old(jobs)[job := Job(0, 0)]
    {
      if job !in jobs { jobs := jobs[job := Job(0, 0)]; }
    }

    /** Returns the number of rows that were not there before. */
    method InsertDetections(job: string, rows: seq<Item>) returns (n: nat)
      modifies this`detections
      ensures detections == Inserted(old(detections), job, rows, sha1)
      ensures |detections| == |old(detections)| + n
      ensures forall k :: k in old(detections) ==> k in detections && detections[k] == old(detections)[k]
      ensures forall k :: k in detections && k !in old(detections) ==> ComesFrom(rows, job, k, detections[k], sha1)
      ensures forall i :: 0 <= i < |rows| ==> Key(job, rows[i].line) in detections
    {
      n := 0;
      var i := 0;
      while i < |rows|
        invariant 0 <= i <= |rows|
        invariant detections == Inserted(old(detections), job, rows[..i], sha1)
        invariant |detections| == |old(detections)| + n
      {
        assert rows[..i + 1][..i] == rows[..i];
        var key := Key(job, rows[i].line);
        if key !in detections {
          detections := detections[key := RowOf(rows[i], sha1)];
          n := n + 1;
        }
        i := i + 1;
      }
      assert rows[..i] == rows;
      InsertedKeeps(old(detections), job, rows, sha1);
      forall k | k in detections && k !in old(detections) ensures ComesFrom(rows, job, k, detections[k], sha1) {
        InsertedSource(old(detections), job, rows, sha1, k);
      }
      forall m | 0 <= m < |rows| ensures Key(job, rows[m].line) in detections {
        InsertedHas(old(detections), job, rows, sha1, m);
      }
    }

    method BumpIndexedLines(job: string, added: nat)
      modifies this`jobs
      ensures jobs == Bumped(old(jobs), job, added)
      ensures job in jobs ==>
                && jobs[job].indexedLines == old(jobs[job].indexedLines) + added
                && jobs[job].detectionCount == old(jobs[job].detectionCount) + added
    {
      if job in jobs {
        jobs := jobs[job := Job(jobs[job].indexedLines + added, jobs[job].detectionCount + added)];
      }
    }

    /** Sets or clears one verdict and re-derives the counters of its rule. */
    method RecordFeedback(job: string, line: nat, verdict: VerdictArg, now: real) returns (r: FeedbackResult)
      modifies this`detections, this`feedback
      ensures r.Rejected? <==> verdict.Unknown?
      ensures r.NoSuchRow? <==> !verdict.Unknown? && Key(job, line) !in old(detections)
      ensures !r.Updated? ==> Now() == old(Now())
      ensures r.Updated? ==>
                var k, v := Key(job, line), if verdict.Mark? then Some(verdict.v) else None;
                && k in old(detections) && Now() == WithVerdict(old(Now()), k, v, now)
                && r.before == old(detections)[k].verdict && r.after == v && r.ruleId == old(detections)[k].ruleId
                && r.tp == feedback[r.ruleId].tp && r.fp == feedback[r.ruleId].fp
    {
      if verdict.Unknown? { return Rejected; }
      var v := if verdict.Mark? then Some(verdict.v) else None;
      var key := Key(job, line);
      if key !in detections { return NoSuchRow; }
      var row := detections[key];
      detections := detections[key := row.(verdict := v, verdictAt := if v == None then None else Some(now))];
      var tp := |set k | k in detections && detections[k].ruleId == row.ruleId && detections[k].verdict == Some(TP)|;
      var fp := |set k | k in detections && detections[k].ruleId == row.ruleId && detections[k].verdict == Some(FP)|;
      feedback := feedback[row.ruleId := Feedback(row.ruleTitle, tp, fp, now)];
      r := Updated(row.verdict, v, row.ruleId, tp, fp);
    }

    /** Removes a job and its detections, in one transaction; the feedback rows stay as they are. */
    method DeleteJob(job: string) returns (n: nat)
      modifies this`jobs, this`detections
      ensures Now() == WithoutJob(old(Now()), job)
      ensures n == |old(detections)| - |detections|
    {
      var kept := map k | k in detections && k.job != job :: detections[k];
      ghost var gone := set k | k in detections && k.job == job;
      assert kept.Keys !! gone && kept.Keys + gone == detections.Keys;
      n := |detections.Keys| - |kept.Keys|;
      detections := kept;
      jobs := jobs - {job};
    }

    method ClearAll() returns (jobCount: nat, rowCount: nat)
      modifies this`jobs, this`detections, this`feedback
      ensures Now() == Cleared()
      ensures jobCount == |old(jobs)| && rowCount == |old(detections)|
    {
      jobCount, rowCount := |jobs|, |detections|;
      jobs, detections, feedback := map[], map[], map[];
    }
  }

  // ------------------------------------------------------------- insertion

  /** `row` under key `k` is the row of the first item with that line number. */
  ghost predicate ComesFrom(items: seq<Item>, job: string, k: Key, row: Row, sha1: string -> string) {
    exists i :: 0 <= i < |items| && k == Key(job, items[i].line) && row == RowOf(items[i], sha1)
                && Says(row, items[i].raw, items[i].event, sha1) && row.verdict == None
                && forall j :: 0 <= j < i ==> items[j].line != k.line
  }

  /** An existing row is never changed. */
  lemma {:induction false} InsertedKeeps(d: map<Key, Row>, job: string, items: seq<Item>, sha1: string -> string)
    ensures forall k :: k in d ==> k in Inserted(d, job, items, sha1) && Inserted(d, job, items, sha1)[k] == d[k]
  {
    if items != [] { InsertedKeeps(d, job, items[..|items| - 1], sha1); }
  }

  /** A new row comes from the first item with its line number. */
  lemma {:induction false} InsertedSource(d: map<Key, Row>, job: string, items: seq<Item>, sha1: string -> string,
                                          k: Key)
    requires k in Inserted(d, job, items, sha1) && k !in d
    ensures ComesFrom(items, job, k, Inserted(d, job, items, sha1)[k], sha1)
  {
    var init, last := items[..|items| - 1], items[|items| - 1];
    var before, e := Inserted(d, job, init, sha1), Inserted(d, job, items, sha1);
    RowSays(last, sha1);
    if k in before {
      InsertedSource(d, job, init, sha1, k);
      var i :| 0 <= i < |init| && k == Key(job, init[i].line) && before[k] == RowOf(init[i], sha1)
               && Says(before[k], init[i].raw, init[i].event, sha1) && before[k].verdict == None
               && forall j :: 0 <= j < i ==> init[j].line != k.line;
      assert forall j :: 0 <= j <= i ==> items[j] == init[j];
    } else {
      forall j | 0 <= j < |init| ensures items[j].line != k.line {
        InsertedHas(d, job, init, sha1, j);
        assert init[j] == items[j];
      }
    }
  }

  /** Every item's key is taken afterwards. */
  lemma {:induction false} InsertedHas(d: map<Key, Row>, job: string, items: seq<Item>, sha1: string -> string, i: nat)
    requires i < |items|
    ensures Key(job, items[i].line) in Inserted(d, job, items, sha1)
  {
    if i < |items| - 1 {
      var init := items[..|items| - 1];
      InsertedHas(d, job, init, sha1, i);
      assert init[i] == items[i];
    }
  }

  lemma {:induction false} InsertedConcat(d: map<Key, Row>, job: string, a: seq<Item>, b: seq<Item>,
                                          sha1: string -> string)
    ensures Inserted(d, job, a + b, sha1) == Inserted(Inserted(d, job, a, sha1), job, b, sha1)
  {
    if b == [] {
      assert a + b == a;
    } else {
      assert (a + b)[..|a + b| - 1] == a + b[..|b| - 1];
      InsertedConcat(d, job, a, b[..|b| - 1], sha1);
    }
  }

  // ------------------------------------------------------------- the feedback view

  /** The materialised counters of a rule equal a recount; no row means no verdicts. */
  predicate Exact(t: Tables, rule: string) {
    if rule in t.feedback
    then t.feedback[rule].tp == Tally(t.detections, rule, TP) && t.feedback[rule].fp == Tally(t.detections, rule, FP)
    else Tally(t.detections, rule, TP) == 0 && Tally(t.detections, rule, FP) == 0
  }

  /** The counters may be stale, but never too low. */
  predicate Covered(t: Tables, rule: string) {
    if rule in t.feedback
    then t.feedback[rule].tp >= Tally(t.detections, rule, TP) && t.feedback[rule].fp >= Tally(t.detections, rule, FP)
    else Tally(t.detections, rule, TP) == 0 && Tally(t.detections, rule, FP) == 0
  }

  datatype Op =
    | Insert(job: string, items: seq<Item>)
    | Judge(key: Key, v: Option<Verdict>, now: real)
    | Delete(job: string)
    | Clear

  function Step(t: Tables, op: Op, sha1: string -> string): Tables {
    match op
    case Insert(job, items) => t.(detections := Inserted(t.detections, job, items, sha1))
    case Judge(key, v, now) => if key in t.detections then WithVerdict(t, key, v, now) else t
    case Delete(job) => WithoutJob(t, job)
    case Clear => Cleared()
  }

  function Run(t: Tables, ops: seq<Op>, sha1: string -> string): Tables
    decreases |ops|
  {
    if ops == [] then t else Run(Step(t, ops[0], sha1), ops[1..], sha1)
  }

  lemma InsertKeepsVoters(d: map<Key, Row>, job: string, items: seq<Item>, sha1: string -> string, rule: string,
                          v: Verdict)
    ensures Voters(Inserted(d, job, items, sha1), rule, v) == Voters(d, rule, v)
  {
    InsertedKeeps(d, job, items, sha1);
    var e := Inserted(d, job, items, sha1);
    forall k | k in e && k !in d ensures e[k].verdict == None {
      InsertedSource(d, job, items, sha1, k);
    }
  }

  lemma JudgeKeepsOtherVoters(d: map<Key, Row>, k: Key, v: Option<Verdict>, now: real, rule: string, w: Verdict)
    requires k in d && d[k].ruleId != rule
    ensures Voters(Judged(d, k, v, now), rule, w) == Voters(d, rule, w)
  {
  }

  lemma OtherJobs(keys: set<Key>, job: string)
    ensures var kept := set k | k in keys && k.job != job;
            |kept| <= |keys| && (|kept| == |keys| <==> kept == keys)
  {
    var kept := set k | k in keys && k.job != job;
    var gone := keys - kept;
    assert keys == kept + gone;
    assert |keys| == |kept| + |gone|;
    if |kept| == |keys| { assert gone == {}; }
  }

  lemma DeleteShrinksVoters(t: Tables, job: string, rule: string, v: Verdict)
    ensures var before, after := Voters(t.detections, rule, v), Voters(WithoutJob(t, job).detections, rule, v);
            && |after| <= |before|
            && (|after| == |before| <==> forall k :: k in before ==> k.job != job)
  {
    var before, after := Voters(t.detections, rule, v), Voters(WithoutJob(t, job).detections, rule, v);
    assert after == set k | k in before && k.job != job;
    OtherJobs(before, job);
  }

  /** One verdict makes the counters of its rule exact, however stale they were, and no other rule's worse. */
  lemma JudgeRestores(t: Tables, k: Key, v: Option<Verdict>, now: real, rule: string)
    requires k in t.detections
    ensures rule == t.detections[k].ruleId ==> Exact(WithVerdict(t, k, v, now), rule)
    ensures rule != t.detections[k].ruleId ==>
              (Exact(WithVerdict(t, k, v, now), rule) <==> Exact(t, rule)) &&
              (Covered(WithVerdict(t, k, v, now), rule) <==> Covered(t, rule))
  {
    if rule != t.detections[k].ruleId {
      JudgeKeepsOtherVoters(t.detections, k, v, now, rule, TP);
      JudgeKeepsOtherVoters(t.detections, k, v, now, rule, FP);
    }
  }

  /** Deleting a job leaves a rule's counters exact exactly when the job held no verdict on that rule. */
  lemma DeleteStaysExactIff(t: Tables, job: string, rule: string)
    requires Exact(t, rule)
    ensures Exact(WithoutJob(t, job), rule) <==>
            forall k :: k in t.detections && k.job == job && t.detections[k].ruleId == rule ==>
              t.detections[k].verdict == None
  {
    DeleteShrinksVoters(t, job, rule, TP);
    DeleteShrinksVoters(t, job, rule, FP);
    var d := t.detections;
    if forall k :: k in d && k.job == job && d[k].ruleId == rule ==> d[k].verdict == None {
    } else {
      var k :| k in d && k.job == job && d[k].ruleId == rule && d[k].verdict != None;
      var v := d[k].verdict.value;
      assert k in Voters(d, rule, v);
      assert Tally(d, rule, v) != 0;
      DeleteShrinksVoters(t, job, rule, v);
      assert Tally(WithoutJob(t, job).detections, rule, v) < Tally(d, rule, v);
      match v { case TP => case FP => }
    }
  }

  /** The counter is too high after a row was inserted and marked and its job deleted. */
  lemma DeletedVerdictIsStillCounted(i: Item, sha1: string -> string)
    ensures var k, rule := Key("job", i.line), RowOf(i, sha1).ruleId;
            !Exact(Run(Cleared(), [Insert("job", [i]), Judge(k, Some(TP), 0.0), Delete("job")], sha1), rule)
  {
    var k, row := Key("job", i.line), RowOf(i, sha1);
    var ops := [Insert("job", [i]), Judge(k, Some(TP), 0.0), Delete("job")];
    assert [i][..|[i]| - 1] == [] && Inserted(map[], "job", [], sha1) == map[];
    var t := Step(Cleared(), ops[0], sha1);
    assert t.detections == map[k := row];
    var u := Step(t, ops[1], sha1);
    assert Voters(u.detections, row.ruleId, TP) == {k};
    var v := Step(u, ops[2], sha1);
    assert Voters(v.detections, row.ruleId, TP) == {};
    assert Run(v, [], sha1) == v;
    assert ops[1..][1..] == [ops[2]] && ops[1..][0] == ops[1] && [ops[2]][1..] == [];
    assert Run(u, [ops[2]], sha1) == v;
  }

  lemma StepKeepsCovered(t: Tables, op: Op, sha1: string -> string, rule: string)
    requires Covered(t, rule)
    ensures Covered(Step(t, op, sha1), rule)
    ensures Exact(t, rule) && !op.Delete? ==> Exact(Step(t, op, sha1), rule)
  {
    match op {
      case Insert(job, items) =>
        InsertKeepsVoters(t.detections, job, items, sha1, rule, TP);
        InsertKeepsVoters(t.detections, job, items, sha1, rule, FP);
      case Judge(key, v, now) =>
        if key in t.detections { JudgeRestores(t, key, v, now, rule); }
      case Delete(job) =>
        DeleteShrinksVoters(t, job, rule, TP);
        DeleteShrinksVoters(t, job, rule, FP);
      case Clear =>
        assert Voters(map[], rule, TP) == {} && Voters(map[], rule, FP) == {};
    }
  }

  /** Over any run the counters never fall below a recount, and without job deletions they equal it. */
  lemma {:induction false} RunsNeverUndercount(t: Tables, ops: seq<Op>, sha1: string -> string, rule: string)
    requires Covered(t, rule)
    ensures Covered(Run(t, ops, sha1), rule)
    ensures Exact(t, rule) && (forall i :: 0 <= i < |ops| ==> !ops[i].Delete?) ==> Exact(Run(t, ops, sha1), rule)
    decreases |ops|
  {
    if ops != [] {
      StepKeepsCovered(t, ops[0], sha1, rule);
      RunsNeverUndercount(Step(t, ops[0], sha1), ops[1..], sha1, rule);
    }
  }

  /** From an empty store the view never drifts. */
  lemma FeedbackNeverDrifts(ops: seq<Op>, sha1: string -> string, rule: string)
    ensures Covered(Run(Cleared(), ops, sha1), rule)
    ensures (forall i :: 0 <= i < |ops| ==> !ops[i].Delete?) ==> Exact(Run(Cleared(), ops, sha1), rule)
  {
    assert Voters(map[], rule, TP) == {} && Voters(map[], rule, FP) == {};
    RunsNeverUndercount(Cleared(), ops, sha1, rule);
  }
}
