/**
 Suppressions: stored patterns that hide detections without deleting them, the
 query functions that see detections through a LEFT JOIN with those patterns,
 and the two operations that add and remove one.

 The suppression table is a map from row id to row.  The joined rows are a set:
 a pair of a detection and a suppression occurs in the join once at most.
 */
module Suppression {
  import opened Wrappers
  import opened Strings
  import opened Counting
  import opened GlobLike
  import opened Store

  datatype Supp = Supp(scope: string, ruleId: Option<string>, computerLike: Option<string>,
                       reason: Option<string>, createdAt: real, createdBy: Option<string>, active: bool)

  // ------------------------------------------------------------- filters

  /** The keyword arguments; an empty text or list means the filter is not used. */
  datatype Filters = Filters(jobId: string, level: string, ruleId: string, verdict: string, text: string,
                             computer: string, computerGlob: string, channel: string, eventId: string,
                             levels: seq<string>, ruleIds: seq<string>, tsFrom: string, tsTo: string)

  // A comparison with NULL is unknown, and an unknown condition keeps no row.

  predicate Is(column: Option<string>, value: string) { column == Some(value) }

  predicate Like(column: Option<string>, pattern: string, esc: Option<char>) {
    column.Some? && LikeMatch(pattern, esc, column.value)
  }

  predicate AtLeast(column: Option<string>, low: string) { column.Some? && Le(low, column.value) }

  predicate AtMost(column: Option<string>, high: string) { column.Some? && Le(column.value, high) }

  predicate VerdictKept(v: Option<Verdict>, wanted: string) {
    if wanted == "tp" then v == Some(TP)
    else if wanted == "fp" then v == Some(FP)
    else if wanted == "unverdicted" then v == None
    else true
  }

  predicate TextKept(d: Row, text: string) {
    var pattern := "%" + text + "%";
    Like(d.ruleTitle, pattern, None) || Like(d.computer, pattern, None) || LikeMatch(pattern, None, d.raw)
  }

  /** The WHERE clause, but for the suppression test. */
  predicate Kept(f: Filters, k: Key, d: Row) {
    && (f.jobId == "" || k.job == f.jobId)
    && (f.level == "" || d.level == f.level)
    && (f.ruleId == "" || d.ruleId == f.ruleId)
    && (f.levels == [] || d.level in f.levels)
    && (f.ruleIds == [] || d.ruleId in f.ruleIds)
    && (f.computer == "" || Is(d.computer, f.computer))
    && (f.computerGlob == "" || Like(d.computer, GlobToLike(f.computerGlob), Some('\\')))
    && (f.channel == "" || Is(d.channel, f.channel))
    && (f.eventId == "" || Is(d.eventId, f.eventId))
    && (f.tsFrom == "" || AtLeast(d.ts, f.tsFrom))
    && (f.tsTo == "" || AtMost(d.ts, f.tsTo))
    && VerdictKept(d.verdict, f.verdict)
    && (f.text == "" || TextKept(d, f.text))
  }

  function NoFilter(): Filters { Filters("", "", "", "", "", "", "", "", "", [], [], "", "") }

  /** One filter alone, set to `v`, keeps the rows with just this value in its own column. */
  lemma EachFilterMeans(k: Key, d: Row, v: string, vs: seq<string>)
    requires v != "" && vs != []
    ensures Kept(NoFilter().(jobId := v), k, d) <==> k.job == v
    ensures Kept(NoFilter().(level := v), k, d) <==> d.level == v
    ensures Kept(NoFilter().(ruleId := v), k, d) <==> d.ruleId == v
    ensures Kept(NoFilter().(levels := vs), k, d) <==> d.level in vs
    ensures Kept(NoFilter().(ruleIds := vs), k, d) <==> d.ruleId in vs
    ensures Kept(NoFilter().(computer := v), k, d) <==> d.computer == Some(v)
    ensures Kept(NoFilter().(channel := v), k, d) <==> d.channel == Some(v)
    ensures Kept(NoFilter().(eventId := v), k, d) <==> d.eventId == Some(v)
    ensures Kept(NoFilter().(verdict := "tp"), k, d) <==> d.verdict == Some(TP)
    ensures Kept(NoFilter().(verdict := "fp"), k, d) <==> d.verdict == Some(FP)
    ensures Kept(NoFilter().(verdict := "unverdicted"), k, d) <==> d.verdict == None
    ensures Kept(NoFilter(), k, d)
  {
  }

  /** A time window is closed at both ends, and a row without a time is in none. */
  lemma WindowMeans(k: Key, d: Row, a: string, b: string)
    requires a != "" && b != ""
    ensures Kept(NoFilter().(tsFrom := a), k, d) <==> d.ts.Some? && Le(a, d.ts.value)
    ensures Kept(NoFilter().(tsTo := b), k, d) <==> d.ts.Some? && Le(d.ts.value, b)
    ensures d.ts == Some("2024-05-06") ==>
              && Kept(NoFilter().(tsFrom := "2024-05-06", tsTo := "2024-05-06"), k, d)
              && !Kept(NoFilter().(tsFrom := "2024-05-07"), k, d) && !Kept(NoFilter().(tsTo := "2024-05-05"), k, d)
  {
    LateAndEarly();
    LeTotal("2024-05-06", "2024-05-06");
  }

  lemma SamePrefix(p: string, a: string, b: string)
    ensures Le(p + a, p + b) <==> Le(a, b)
  {
    if p == "" {
      assert p + a == a && p + b == b;
    } else {
      SamePrefix(p[1..], a, b);
      assert (p + a)[1..] == p[1..] + a && (p + b)[1..] == p[1..] + b;
    }
  }

  lemma LateAndEarly()
    ensures !Le("2024-05-07", "2024-05-06") && !Le("2024-05-06", "2024-05-05")
  {
    assert "2024-05-07" == "2024-05-0" + "7" && "2024-05-06" == "2024-05-0" + "6" && "2024-05-05" == "2024-05-0" + "5";
    SamePrefix("2024-05-0", "7", "6");
    SamePrefix("2024-05-0", "6", "5");
  }

  /** Filters combine: a row is kept exactly when each of them alone keeps it. */
  lemma FiltersCombine(f: Filters, k: Key, d: Row)
    ensures Kept(f, k, d) <==>
              && Kept(NoFilter().(jobId := f.jobId, level := f.level, ruleId := f.ruleId, verdict := f.verdict), k, d)
              && Kept(NoFilter().(text := f.text, computer := f.computer, computerGlob := f.computerGlob), k, d)
              && Kept(NoFilter().(channel := f.channel, eventId := f.eventId, levels := f.levels), k, d)
              && Kept(NoFilter().(ruleIds := f.ruleIds, tsFrom := f.tsFrom, tsTo := f.tsTo), k, d)
  {
  }

  ghost predicate Mentions(column: Option<string>, text: string) {
    column.Some? && exists i: nat :: StandsAt(text, column.value, i)
  }

  /** The text filter finds a text without wildcards in the title, the computer or the raw line, whatever its case. */
  lemma TextFilterMeans(k: Key, d: Row, text: string)
    requires text != "" && '%' !in text && '_' !in text
    ensures Kept(NoFilter().(text := text), k, d) <==>
            Mentions(d.ruleTitle, text) || Mentions(d.computer, text) || Mentions(Some(d.raw), text)
  {
    if d.ruleTitle.Some? { LikeContains(text, d.ruleTitle.value); }
    if d.computer.Some? { LikeContains(text, d.computer.value); }
    LikeContains(text, d.raw);
  }

  /** A detection that is inserted is found by the filter for the computer its log line names. */
  lemma HostFilterFindsInserted(det: map<Key, Row>, job: string, items: seq<Item>, sha1: string -> string, i: nat,
                                host: string)
    requires i < |items| && Key(job, items[i].line) !in det
    requires forall j :: 0 <= j < |items| && items[j].line == items[i].line ==> items[j].event.computer == Some(host)
    requires host != ""
    ensures var k, after := Key(job, items[i].line), Inserted(det, job, items, sha1);
            k in after && Kept(NoFilter().(computer := host), k, after[k])
  {
    InsertedHas(det, job, items, sha1, i);
    InsertedSource(det, job, items, sha1, Key(job, items[i].line));
  }

  /** What a row says decides every filter: the severity filter finds it under its full name. */
  lemma SeverityFilterFindsAbbreviated(k: Key, row: Row, raw: string, e: Event, sha1: string -> string)
    requires Says(row, raw, e, sha1) && e.level.Some?
    ensures Lower(e.level.value) == "crit" || Lower(e.level.value) == "critical" ==>
              Kept(NoFilter().(level := "critical"), k, row)
    ensures Lower(e.level.value) == "med" || Lower(e.level.value) == "medium" ==>
              Kept(NoFilter().(level := "medium"), k, row)
    ensures Lower(e.level.value) == "info" || Lower(e.level.value) == "informational" ==>
              Kept(NoFilter().(level := "informational"), k, row)
  {
    assert |"critical"| == 8 && |"crit"| == 4 && |"med"| == 3 && |"info"| == 4 && |"medium"| == 6;
    assert |"informational"| == 13 && "crit"[0] == 'c' && "info"[0] == 'i';
  }

  // ------------------------------------------------------------- the join

  predicate Hides(s: Supp, d: Row) {
    && s.active
    && (s.ruleId == None || s.ruleId == Some(d.ruleId))
    && (s.computerLike == None || Like(d.computer, s.computerLike.value, None))
  }

  /** A suppression that was switched off hides nothing. */
  lemma SwitchedOff(supps: map<nat, Supp>, d: Row)
    requires forall i :: i in supps ==> !supps[i].active
    ensures !Suppressed(supps, d)
  {
  }

  predicate Suppressed(supps: map<nat, Supp>, d: Row) {
    exists i :: i in supps && Hides(supps[i], d)
  }

  /** One row of the join; a detection that no suppression matches is joined with NULLs. */
  datatype Joined = Joined(key: Key, supp: Option<nat>)

  ghost predicate InJoin(det: map<Key, Row>, supps: map<nat, Supp>, j: Joined) {
    && j.key in det
    && match j.supp
       case Some(i) => i in supps && Hides(supps[i], det[j.key])
       case None => !Suppressed(supps, det[j.key])
  }

  ghost function LeftJoin(det: map<Key, Row>, supps: map<nat, Supp>): set<Joined> {
    (set k, i | k in det && i in supps && Hides(supps[i], det[k]) :: Joined(k, Some(i))) +
    (set k | k in det && !Suppressed(supps, det[k]) :: Joined(k, None))
  }

  lemma LeftJoinIs(det: map<Key, Row>, supps: map<nat, Supp>, j: Joined)
    ensures j in LeftJoin(det, supps) <==> InJoin(det, supps, j)
  {
    if InJoin(det, supps, j) && j.supp.Some? {
      assert j == Joined(j.key, Some(j.supp.value));
    }
  }

  /** The joined rows that the WHERE clause lets through. */
  ghost function Selected(det: map<Key, Row>, supps: map<nat, Supp>, f: Filters, showAll: bool): set<Joined> {
    set j | j in LeftJoin(det, supps) && Keeps(det, f, showAll, j)
  }

  predicate Keeps(det: map<Key, Row>, f: Filters, showAll: bool, j: Joined) {
    j.key in det && Kept(f, j.key, det[j.key]) && (showAll || j.supp == None)
  }

  ghost function KeysOf(w: set<Joined>): set<Key> { Image((j: Joined) => j.key, w) }

  /** What the view is for: the filtered detections, without the suppressed ones unless asked for. */
  function View(det: map<Key, Row>, supps: map<nat, Supp>, f: Filters, showAll: bool): set<Key> {
    set k | k in det && Kept(f, k, det[k]) && (showAll || !Suppressed(supps, det[k]))
  }

  lemma SelectedKeysAreTheView(det: map<Key, Row>, supps: map<nat, Supp>, f: Filters, showAll: bool)
    ensures KeysOf(Selected(det, supps, f, showAll)) == View(det, supps, f, showAll)
  {
    var w := Selected(det, supps, f, showAll);
    forall k ensures k in KeysOf(w) <==> k in View(det, supps, f, showAll) {
      if k in KeysOf(w) {
        var j :| j in w && j.key == k;
        LeftJoinIs(det, supps, j);
      }
      if k in View(det, supps, f, showAll) {
        var j := if Suppressed(supps, det[k])
                 then (var i :| i in supps && Hides(supps[i], det[k]); Joined(k, Some(i)))
                 else Joined(k, None);
        LeftJoinIs(det, supps, j);
        assert j in w && j.key == k;
      }
    }
  }

  // ------------------------------------------------------------- query_detections

  /**
   A result of GROUP BY job and line without LIMIT: one row for each group, in
   whatever order, with columns taken from some row of the group.
   */
  ghost predicate IsGrouping(rows: seq<Joined>, w: set<Joined>) {
    && (forall n :: 0 <= n < |rows| ==> rows[n] in w)
    && (forall m, n :: 0 <= m < n < |rows| ==> rows[m].key != rows[n].key)
    && (forall j :: j in w ==> exists n :: 0 <= n < |rows| && rows[n].key == j.key)
  }

  function RowKeys(rows: seq<Joined>): set<Key> { set n | 0 <= n < |rows| :: rows[n].key }

  lemma {:induction false} DistinctRows(rows: seq<Joined>)
    requires forall m, n :: 0 <= m < n < |rows| ==> rows[m].key != rows[n].key
    ensures |RowKeys(rows)| == |rows|
  {
    if rows != [] {
      var init := rows[..|rows| - 1];
      DistinctRows(init);
      var last := rows[|rows| - 1].key;
      assert last !in RowKeys(init);
      assert RowKeys(rows) == RowKeys(init) + {last} by {
        forall k | k in RowKeys(rows) ensures k in RowKeys(init) + {last} {
          var n :| 0 <= n < |rows| && rows[n].key == k;
          assert n < |init| ==> init[n].key == k;
        }
        forall k | k in RowKeys(init) ensures k in RowKeys(rows) {
          var n :| 0 <= n < |init| && init[n].key == k;
          assert rows[n].key == k;
        }
      }
    }
  }

  /**
   Each detection of the view is listed once however many suppressions match it,
   nothing else is listed, and the suppression column is NULL exactly for those
   that no active suppression matches.
   */
  lemma QueryListsTheView(det: map<Key, Row>, supps: map<nat, Supp>, f: Filters, showAll: bool, rows: seq<Joined>)
    requires IsGrouping(rows, Selected(det, supps, f, showAll))
    ensures RowKeys(rows) == View(det, supps, f, showAll)
    ensures |rows| == |View(det, supps, f, showAll)|
    ensures forall n :: 0 <= n < |rows| ==> rows[n].key in det
    ensures forall n :: 0 <= n < |rows| ==> (rows[n].supp == None <==> !Suppressed(supps, det[rows[n].key]))
  {
    var w := Selected(det, supps, f, showAll);
    SelectedKeysAreTheView(det, supps, f, showAll);
    forall n | 0 <= n < |rows|
      ensures rows[n].key in det && (rows[n].supp == None <==> !Suppressed(supps, det[rows[n].key]))
    {
      LeftJoinIs(det, supps, rows[n]);
    }
    assert RowKeys(rows) == KeysOf(w);
    DistinctRows(rows);
  }

  // ------------------------------------------------------------- count_detections

  function Digit(n: nat): char
    requires n < 10
  {
    '0' + n as char
  }

  function Decimal(n: nat): string {
    if n < 10 then [Digit(n)] else Decimal(n / 10) + [Digit(n % 10)]
  }

  lemma {:induction false} DecimalInjective(m: nat, n: nat)
    requires Decimal(m) == Decimal(n)
    ensures m == n
  {
    var s := Decimal(m);
    assert s[|s| - 1] == Digit(m % 10) == Digit(n % 10);
    if m >= 10 && n >= 10 {
      assert s[..|s| - 1] == Decimal(m / 10) == Decimal(n / 10);
      DecimalInjective(m / 10, n / 10);
    }
  }

  lemma {:induction false} DecimalDigits(n: nat)
    ensures forall i :: 0 <= i < |Decimal(n)| ==> Decimal(n)[i] != ':'
  {
    if n >= 10 { DecimalDigits(n / 10); }
  }

  /** `job_id || ':' || line_no`. */
  function KeyText(k: Key): string { k.job + ":" + Decimal(k.line) }

  /** A job id may contain anything, colons too: the last colon is the separator. */
  lemma KeyTextInjective(a: Key, b: Key)
    requires KeyText(a) == KeyText(b)
    ensures a == b
  {
    var t, m, n := KeyText(a), |Decimal(a.line)|, |Decimal(b.line)|;
    DecimalDigits(a.line);
    DecimalDigits(b.line);
    assert t[|t| - 1 - m] == ':' && t[|t| - 1 - n] == ':';
    assert forall i :: |t| - m <= i < |t| ==> t[i] == Decimal(a.line)[i - (|t| - m)];
    assert forall i :: |t| - n <= i < |t| ==> t[i] == Decimal(b.line)[i - (|t| - n)];
    assert m == n;
    assert t[|t| - m..] == Decimal(a.line) && t[|t| - n..] == Decimal(b.line);
    DecimalInjective(a.line, b.line);
    assert t[..|t| - 1 - m] == a.job && t[..|t| - 1 - n] == b.job;
  }

  /** COUNT(DISTINCT job_id || ':' || line_no) over joined rows. */
  ghost function CountDistinct(w: set<Joined>): nat { |Image((j: Joined) => KeyText(j.key), w)| }

  lemma CountDistinctCountsKeys(w: set<Joined>)
    ensures CountDistinct(w) == |KeysOf(w)|
  {
    var ks := KeysOf(w);
    forall a, b | a in ks && b in ks && KeyText(a) == KeyText(b) ensures a == b { KeyTextInjective(a, b); }
    ImageSize(KeyText, ks);
    var texts := Image((j: Joined) => KeyText(j.key), w);
    assert texts == Image(KeyText, ks) by {
      forall t | t in texts ensures t in Image(KeyText, ks) {
        var j :| j in w && KeyText(j.key) == t;
        assert j.key in ks;
      }
    }
  }

  /** The number beside the page always equals the number of rows over all pages. */
  lemma CountMatchesRows(det: map<Key, Row>, supps: map<nat, Supp>, f: Filters, showAll: bool, rows: seq<Joined>)
    requires IsGrouping(rows, Selected(det, supps, f, showAll))
    ensures CountDistinct(Selected(det, supps, f, showAll)) == |rows|
  {
    QueryListsTheView(det, supps, f, showAll, rows);
    SelectedKeysAreTheView(det, supps, f, showAll);
    CountDistinctCountsKeys(Selected(det, supps, f, showAll));
  }

  // ------------------------------------------------------------- pivot_detections

  datatype Dim = ByComputer | ByRule | ByLevel | ByChannel | ByEvent | ByHour | ByDay

  function Prefix(ts: Option<string>, n: nat): Option<string> {
    match ts case None => None case Some(t) => Some(Take(t, n))
  }

  function Column(dim: Dim, d: Row): Option<string> {
    match dim
    case ByComputer => d.computer
    case ByRule => Some(d.ruleId)
    case ByLevel => Some(d.level)
    case ByChannel => d.channel
    case ByEvent => d.eventId
    case ByHour => Prefix(d.ts, 13)
    case ByDay => Prefix(d.ts, 10)
  }

  /** The joined rows of one group; NULL values form a group of their own. */
  ghost function Group(det: map<Key, Row>, w: set<Joined>, dim: Dim, v: Option<string>): set<Joined> {
    set j | j in w && j.key in det && Column(dim, det[j.key]) == v
  }

  /** A pivot without LIMIT: one row for each value that occurs, in whatever order. */
  ghost predicate IsPivot(values: seq<Option<string>>, det: map<Key, Row>, w: set<Joined>, dim: Dim) {
    && (forall m, n :: 0 <= m < n < |values| ==> values[m] != values[n])
    && (forall j :: j in w && j.key in det ==> Column(dim, det[j.key]) in values)
  }

  ghost function PivotTotal(values: seq<Option<string>>, det: map<Key, Row>, w: set<Joined>, dim: Dim): nat {
    if values == [] then 0
    else
      var before := PivotTotal(values[..|values| - 1], det, w, dim);
      before + CountDistinct(Group(det, w, dim, values[|values| - 1]))
  }

  ghost function InGroups(det: map<Key, Row>, w: set<Joined>, dim: Dim, values: seq<Option<string>>): set<Key> {
    set k | k in KeysOf(w) && k in det && Column(dim, det[k]) in values
  }

  lemma GroupKeys(det: map<Key, Row>, w: set<Joined>, dim: Dim, v: Option<string>)
    ensures KeysOf(Group(det, w, dim, v)) == InGroups(det, w, dim, [v])
  {
    var g := Group(det, w, dim, v);
    forall k | k in InGroups(det, w, dim, [v]) ensures k in KeysOf(g) {
      var j :| j in w && j.key == k;
      assert j in g;
    }
  }

  lemma {:induction false} PivotTotalOver(values: seq<Option<string>>, det: map<Key, Row>, w: set<Joined>, dim: Dim)
    requires forall m, n :: 0 <= m < n < |values| ==> values[m] != values[n]
    ensures PivotTotal(values, det, w, dim) == |InGroups(det, w, dim, values)|
  {
    if values != [] {
      var init, v := values[..|values| - 1], values[|values| - 1];
      PivotTotalOver(init, det, w, dim);
      CountDistinctCountsKeys(Group(det, w, dim, v));
      GroupKeys(det, w, dim, v);
      AddGroup(det, w, dim, init, v);
      assert values == init + [v];
    }
  }

  lemma AddGroup(det: map<Key, Row>, w: set<Joined>, dim: Dim, values: seq<Option<string>>, v: Option<string>)
    requires v !in values
    ensures |InGroups(det, w, dim, values + [v])| == |InGroups(det, w, dim, values)| + |InGroups(det, w, dim, [v])|
  {
    var a, b := InGroups(det, w, dim, values), InGroups(det, w, dim, [v]);
    assert InGroups(det, w, dim, values + [v]) == a + b && a !! b;
  }

  /** In both modes and for every dimension the group counts add up to `count_detections`. */
  lemma PivotSumsToCount(det: map<Key, Row>, supps: map<nat, Supp>, f: Filters, showAll: bool, dim: Dim,
                         values: seq<Option<string>>)
    requires IsPivot(values, det, Selected(det, supps, f, showAll), dim)
    ensures PivotTotal(values, det, Selected(det, supps, f, showAll), dim)
         == CountDistinct(Selected(det, supps, f, showAll))
  {
    var w := Selected(det, supps, f, showAll);
    PivotTotalOver(values, det, w, dim);
    CountDistinctCountsKeys(w);
    assert KeysOf(w) == InGroups(det, w, dim, values);
  }

  /** The filters with the one that a pivot row of this dimension and value leads to. */
  function Drilled(f: Filters, dim: Dim, v: string): Filters {
    match dim
    case ByComputer => f.(computer := v)
    case ByRule => f.(ruleId := v)
    case ByLevel => f.(level := v)
    case ByChannel => f.(channel := v)
    case ByEvent => f.(eventId := v)
    case _ => f
  }

  predicate Undrilled(f: Filters, dim: Dim) {
    match dim
    case ByComputer => f.computer == ""
    case ByRule => f.ruleId == ""
    case ByLevel => f.level == ""
    case ByChannel => f.channel == ""
    case ByEvent => f.eventId == ""
    case _ => false
  }

  /** The detections of a pivot group are those that filtering for its value finds. */
  lemma GroupIsFilter(det: map<Key, Row>, supps: map<nat, Supp>, f: Filters, showAll: bool, dim: Dim, v: string)
    requires v != "" && Undrilled(f, dim)
    ensures KeysOf(Group(det, Selected(det, supps, f, showAll), dim, Some(v)))
         == View(det, supps, Drilled(f, dim, v), showAll)
  {
    var w := Selected(det, supps, f, showAll);
    GroupKeys(det, w, dim, Some(v));
    SelectedKeysAreTheView(det, supps, f, showAll);
    forall k ensures k in InGroups(det, w, dim, [Some(v)]) <==> k in View(det, supps, Drilled(f, dim, v), showAll) {
      if k in det {
        assert Kept(Drilled(f, dim, v), k, det[k]) <==> Kept(f, k, det[k]) && Column(dim, det[k]) == Some(v);
      }
    }
  }

  /** Hours and days of a time are its first thirteen and ten characters; without a time they are NULL. */
  lemma HoursAndDays(d: Row, date: string, hour: string, rest: string)
    requires |date| == 10 && |hour| == 3
    ensures d.ts == Some(date + hour + rest) ==>
              Column(ByHour, d) == Some(date + hour) && Column(ByDay, d) == Some(date)
    ensures d.ts == None ==> Column(ByHour, d) == None && Column(ByDay, d) == None
  {
    var ts := date + hour + rest;
    assert ts[..13] == date + hour && ts[..10] == date;
    if rest == "" { assert ts == date + hour; }
  }

  predicate HiddenOnceAtMost(supps: map<nat, Supp>, d: Row) {
    forall a, b | a in supps && b in supps && Hides(supps[a], d) && Hides(supps[b], d) :: a == b
  }

  predicate Severe(d: Row) { d.level == "critical" || d.level == "high" }

  ghost function SevereRows(det: map<Key, Row>, g: set<Joined>): set<Joined> {
    set j | j in g && j.key in det && Severe(det[j.key])
  }

  /** SUM(CASE ...): counts joined rows, not detections. */
  ghost function SeverityCount(det: map<Key, Row>, g: set<Joined>): nat { |SevereRows(det, g)| }

  /**
   The severity column of a pivot is the number of severe detections of its group
   exactly when none of them is matched by two suppressions; otherwise it is
   larger.  With suppressed rows hidden it is therefore always right.
   */
  lemma SeverityCountIsExactIff(det: map<Key, Row>, supps: map<nat, Supp>, f: Filters, showAll: bool, dim: Dim,
                                v: Option<string>)
    ensures var g := Group(det, Selected(det, supps, f, showAll), dim, v);
            var severe := set k | k in KeysOf(g) && k in det && Severe(det[k]);
            && SeverityCount(det, g) >= |severe|
            && (SeverityCount(det, g) == |severe|
                <==> !showAll || forall k :: k in severe && k in det ==> HiddenOnceAtMost(supps, det[k]))
  {
    var w := Selected(det, supps, f, showAll);
    var g := Group(det, w, dim, v);
    var rows := SevereRows(det, g);
    var severe := set k | k in KeysOf(g) && k in det && Severe(det[k]);
    var key := (j: Joined) => j.key;
    assert severe == Image(key, rows) by {
      forall k | k in severe ensures k in Image(key, rows) {
        var j :| j in g && j.key == k;
        assert j in rows && key(j) == k;
      }
    }
    ImageShrinks(key, rows);
    if InjectiveOn(key, rows) { ImageSize(key, rows); }
    forall j ensures j in rows <==> InJoin(det, supps, j) && j.key in severe && (showAll || j.supp == None) {
      LeftJoinIs(det, supps, j);
      if j.key in severe {
        var h :| h in g && h.key == j.key;
        LeftJoinIs(det, supps, h);
      }
    }
    SevereRowsMerge(det, supps, showAll, rows, severe);
  }

  lemma SevereRowsMerge(det: map<Key, Row>, supps: map<nat, Supp>, showAll: bool, rows: set<Joined>, severe: set<Key>)
    requires forall k :: k in severe ==> k in det
    requires forall j :: j in rows <==> InJoin(det, supps, j) && j.key in severe && (showAll || j.supp == None)
    ensures InjectiveOn((j: Joined) => j.key, rows)
       <==> !showAll || forall k :: k in severe && k in det ==> HiddenOnceAtMost(supps, det[k])
  {
    var key := (j: Joined) => j.key;
    if showAll && InjectiveOn(key, rows) {
      forall k, a, b | k in severe && a in supps && b in supps && Hides(supps[a], det[k]) && Hides(supps[b], det[k])
        ensures a == b
      {
        assert Joined(k, Some(a)) in rows && Joined(k, Some(b)) in rows;
        assert key(Joined(k, Some(a))) == key(Joined(k, Some(b)));
      }
    }
  }

  // ------------------------------------------------------------- adding and removing

  type SuppTable = map<nat, Supp>

  function Clean(s: Option<string>): Option<string> {
    var t := Strip(OrBlank(s));
    if t == "" then None else Some(t)
  }

  function Pattern(glob: Option<string>): Option<string> {
    match glob case None => None case Some(g) => Some(GlobToLike(g))
  }

  function ScopeOf(rule: Option<string>, like: Option<string>): Option<string> {
    var hasRule, hasHost := OrBlank(rule) != "", OrBlank(like) != "";
    if hasRule && hasHost then Some("rule+host")
    else if hasRule then Some("rule")
    else if hasHost then Some("host")
    else None
  }

  /** What the unique index compares. */
  datatype SuppKey = SuppKey(scope: string, rule: string, like: string)

  function KeyOf(s: Supp): SuppKey { SuppKey(s.scope, OrBlank(s.ruleId), OrBlank(s.computerLike)) }

  function Owners(rows: SuppTable, k: SuppKey): set<nat> { set i | i in rows && KeyOf(rows[i]) == k }

  /** The unique index, ids below the AUTOINCREMENT counter, and no blank pattern fields. */
  ghost predicate ValidTable(rows: SuppTable, nextId: nat) {
    && (forall i :: i in rows ==> i < nextId)
    && (forall i, j :: i in rows && j in rows && KeyOf(rows[i]) == KeyOf(rows[j]) ==> i == j)
    && (forall i :: i in rows ==> rows[i].ruleId != Some("") && rows[i].computerLike != Some(""))
  }

  /** The row an accepted `add_suppression` call leaves behind. */
  function NewSupp(rule: Option<string>, glob: Option<string>, scope: string, reason: Option<string>, now: real,
                   author: Option<string>): Supp
  {
    Supp(scope, Clean(rule), Pattern(Clean(glob)), reason, now, author, true)
  }

  ghost predicate Stored(rows: SuppTable, nextId: nat, s: Supp, id: nat, rows': SuppTable, nextId': nat) {
    && rows' == rows[id := s]
    && if Owners(rows, KeyOf(s)) == {} then id == nextId && nextId' == nextId + 1
       else id in Owners(rows, KeyOf(s)) && nextId' == nextId
  }

  lemma StoredKeepsValid(rows: SuppTable, nextId: nat, s: Supp, id: nat, rows': SuppTable, nextId': nat)
    requires ValidTable(rows, nextId) && Stored(rows, nextId, s, id, rows', nextId')
    requires s.ruleId != Some("") && s.computerLike != Some("")
    ensures ValidTable(rows', nextId')
  {
    assert forall i :: i in rows && KeyOf(rows[i]) == KeyOf(s) ==> i in Owners(rows, KeyOf(s));
  }

  class Suppressions {
    var rows: SuppTable
    var nextId: nat

    ghost predicate Valid()
      reads this
    {
      ValidTable(rows, nextId)
    }

    constructor ()
      ensures Valid() && rows == map[]
    {
      rows, nextId := map[], 1;
    }

    /** None is the ValueError for a suppression without a target. */
    method Add(rule: Option<string>, glob: Option<string>, reason: Option<string>, now: real, author: Option<string>)
      returns (id: Option<nat>)
      requires Valid()
      modifies this
      ensures Valid()
      ensures id == None <==> Clean(rule) == None && Clean(glob) == None
      ensures id == None ==> rows == old(rows) && nextId == old(nextId)
      ensures id.Some? ==>
        var scope := ScopeOf(Clean(rule), Pattern(Clean(glob)));
        scope.Some? && Stored(old(rows), old(nextId), NewSupp(rule, glob, scope.value, reason, now, author), id.value,
                              rows, nextId)
    {
      var rid := Clean(rule);
      var like := Pattern(Clean(glob));
      if Clean(glob).Some? { GlobToLikeHead(Clean(glob).value); }
      var scope := ScopeOf(rid, like);
      if scope == None { return None; }
      var i := Upsert(Supp(scope.value, rid, like, reason, now, author, true));
      id := Some(i);
    }

    /** The insert, or on a clash with the unique index the update of the row that is there. */
    method Upsert(s: Supp) returns (id: nat)
      requires Valid() && s.active && s.ruleId != Some("") && s.computerLike != Some("")
      modifies this
      ensures Valid() && Stored(old(rows), old(nextId), s, id, rows, nextId)
    {
      var owners := Owners(rows, KeyOf(s));
      if owners == {} {
        id := nextId;
        rows := rows[nextId := s];
        nextId := nextId + 1;
      } else {
        id :| id in owners;
        rows := rows[id := rows[id].(active := true, reason := s.reason, createdAt := s.createdAt,
                                     createdBy := s.createdBy)];
      }
      StoredKeepsValid(old(rows), old(nextId), s, id, rows, nextId);
    }

    method Remove(id: nat) returns (deleted: bool)
      requires Valid()
      modifies this`rows
      ensures Valid()
      ensures deleted == (id in old(rows)) && rows == old(rows) - {id}
    {
      deleted := id in rows;
      rows := rows - {id};
    }
  }

  /** A new suppression hides what it matches and nothing else changes, whatever was there before. */
  lemma AddHidesExactly(det: map<Key, Row>, rows: SuppTable, nextId: nat, s: Supp, id: nat, rows': SuppTable,
                        nextId': nat, f: Filters)
    requires ValidTable(rows, nextId) && s.active && s.ruleId != Some("") && s.computerLike != Some("")
    requires Stored(rows, nextId, s, id, rows', nextId')
    ensures View(det, rows', f, false) == View(det, rows, f, false) - (set k | k in det && Hides(s, det[k]))
    ensures View(det, rows', f, true) == View(det, rows, f, true)
  {
    forall k | k in det ensures Suppressed(rows', det[k]) == (Suppressed(rows, det[k]) || Hides(s, det[k])) {
      var d := det[k];
      if Suppressed(rows, d) {
        var i :| i in rows && Hides(rows[i], d);
        if i == id { SameKeyHidesTheSame(rows[i], s, d); }
        assert i in rows' && Hides(rows'[i], d);
      }
      if Hides(s, d) { assert id in rows' && Hides(rows'[id], d); }
    }
  }

  lemma SameKeyHidesTheSame(a: Supp, b: Supp, d: Row)
    requires KeyOf(a) == KeyOf(b) && a.active && b.active
    requires a.ruleId != Some("") && a.computerLike != Some("") && b.ruleId != Some("") && b.computerLike != Some("")
    ensures Hides(a, d) == Hides(b, d)
  {
    assert a.ruleId == b.ruleId && a.computerLike == b.computerLike;
  }

  /** The row id given out is the only owner of the key, so removing it removes the key. */
  lemma AddThenRemove(rows: SuppTable, nextId: nat, s: Supp, id: nat, rows': SuppTable, nextId': nat)
    requires ValidTable(rows, nextId) && Stored(rows, nextId, s, id, rows', nextId')
    ensures rows' - {id} == rows - Owners(rows, KeyOf(s))
    ensures rows' - {id} == rows <==> Owners(rows, KeyOf(s)) == {}
  {
    var o := Owners(rows, KeyOf(s));
    if o == {} {
      assert id !in rows;
    } else {
      assert o == {id};
      assert id in rows;
    }
  }

  /** Hidden only by rows of this key. */
  predicate HiddenByKeyOnly(rows: SuppTable, k: SuppKey, d: Row) {
    Suppressed(rows, d) && forall i :: i in rows && Hides(rows[i], d) ==> KeyOf(rows[i]) == k
  }

  /**
   Adding a suppression and removing it again restores every view when its key
   was new.  An identical suppression that was already there is gone afterwards:
   the detections that it alone was hiding come back.
   */
  lemma AddThenRemoveRestoresViewIff(det: map<Key, Row>, rows: SuppTable, nextId: nat, s: Supp, id: nat,
                                     rows': SuppTable, nextId': nat, f: Filters)
    requires ValidTable(rows, nextId) && Stored(rows, nextId, s, id, rows', nextId')
    ensures var came := set k | k in det && Kept(f, k, det[k]) && HiddenByKeyOnly(rows, KeyOf(s), det[k]);
            View(det, rows' - {id}, f, false) == View(det, rows, f, false) + came
    ensures View(det, rows' - {id}, f, false) == View(det, rows, f, false)
       <==> forall k :: k in det && Kept(f, k, det[k]) ==> !HiddenByKeyOnly(rows, KeyOf(s), det[k])
    ensures View(det, rows' - {id}, f, true) == View(det, rows, f, true)
  {
    AddThenRemove(rows, nextId, s, id, rows', nextId');
    var gone, key := rows - Owners(rows, KeyOf(s)), KeyOf(s);
    forall k | k in det
      ensures Suppressed(gone, det[k]) <==> Suppressed(rows, det[k]) && !HiddenByKeyOnly(rows, key, det[k])
    {
      GoneHides(rows, key, det[k]);
    }
    var came := set k | k in det && Kept(f, k, det[k]) && HiddenByKeyOnly(rows, key, det[k]);
    assert View(det, gone, f, false) == View(det, rows, f, false) + came;
    assert came !! View(det, rows, f, false);
    if View(det, gone, f, false) == View(det, rows, f, false) {
      assert came == {};
      forall k | k in det && Kept(f, k, det[k]) ensures !HiddenByKeyOnly(rows, key, det[k]) {
        assert k !in came;
      }
    }
  }

  lemma GoneHides(rows: SuppTable, key: SuppKey, d: Row)
    ensures var gone := rows - Owners(rows, key);
            Suppressed(gone, d) <==> Suppressed(rows, d) && !HiddenByKeyOnly(rows, key, d)
  {
    var gone := rows - Owners(rows, key);
    if Suppressed(gone, d) {
      var i :| i in gone && Hides(gone[i], d);
      assert i in rows && Hides(rows[i], d);
    }
    if Suppressed(rows, d) && !HiddenByKeyOnly(rows, key, d) {
      var i :| i in rows && Hides(rows[i], d) && KeyOf(rows[i]) != key;
      assert i in gone && Hides(gone[i], d);
    }
  }

  // ------------------------------------------------------------- what a suppression means

  /** What the analyst asked for: this rule, on the hosts the glob matches. */
  predicate Meant(rule: Option<string>, glob: Option<string>, d: Row) {
    && (rule == None || rule == Some(d.ruleId))
    && (glob == None || (d.computer.Some? && GlobMatch(glob.value, d.computer.value)))
  }

  /**
   The stored row hides what was meant for every detection exactly when the glob
   is free of backslash, percent and underscore, because the join has no ESCAPE.
   */
  lemma SuppressionMeansItsGlobIff(rule: Option<string>, glob: Option<string>, scope: string, reason: Option<string>,
                                   now: real, author: Option<string>)
    ensures (forall d :: Hides(NewSupp(rule, glob, scope, reason, now, author), d)
                         == Meant(Clean(rule), Clean(glob), d))
       <==> Clean(glob) == None || MetaFree(Clean(glob).value)
  {
    var s := NewSupp(rule, glob, scope, reason, now, author);
    var rid, g := Clean(rule), Clean(glob);
    if g.Some? {
      UnescapedLikeIsGlobIff(g.value);
      if !MetaFree(g.value) {
        var host :| LikeMatch(GlobToLike(g.value), None, host) != GlobMatch(g.value, host);
        var d := Row(OrBlank(rid), None, "", None, Some(host), None, None, "", None, None);
        assert Hides(s, d) != Meant(rid, g, d);
      } else {
        forall d ensures Hides(s, d) == Meant(rid, g, d) {
          if d.computer.Some? {
            assert LikeMatch(GlobToLike(g.value), None, d.computer.value) == GlobMatch(g.value, d.computer.value);
          }
        }
      }
    }
  }

  lemma PatternOfUnderscore()
    ensures GlobToLike("a_b") == "a\\_b"
  {
    GlobToLikeHead("a_b");
    GlobToLikeHead("_b");
    GlobToLikeHead("b");
    assert "a_b"[1..] == "_b" && "_b"[1..] == "b" && "b"[1..] == "";
  }

  lemma UnescapedUnderscore()
    ensures !LikeMatch("a\\_b", None, "a_b") && GlobMatch("a_b", "a_b")
  {
    assert "a\\_b"[1..] == "\\_b" && "a_b"[1..] == "_b" && "_b"[1..] == "b";
    assert !LikeMatch("\\_b", None, "_b");
    assert GlobMatch("b", "b");
    assert GlobMatch("_b", "_b");
  }

  /** The glob `a_b` hides nothing on the host it names. */
  lemma UnderscoreHidesNothing(d: Row, scope: string, now: real)
    requires d.computer == Some("a_b")
    ensures Meant(None, Clean(Some("a_b")), d) && !Hides(NewSupp(None, Some("a_b"), scope, None, now, None), d)
  {
    PatternOfUnderscore();
    UnescapedUnderscore();
    assert StripLeft("a_b") == "a_b" && StripRight("a_b") == "a_b";
  }

  lemma {:induction false} PercentIsAny(s: string)
    ensures LikeMatch("%", None, s)
  {
    if s != "" {
      PercentIsAny(s[1..]);
    } else {
      assert "%"[1..] == "" && LikeMatch("", None, s);
    }
  }

  lemma RuleAndAnyHost(d: Row, now: real)
    requires d.ruleId == "r" && d.computer.Some?
    ensures Hides(NewSupp(Some("r"), None, "rule", None, now, None), d)
    ensures Hides(NewSupp(Some("r"), Some("*"), "rule+host", None, now, None), d)
    ensures ScopeOf(Clean(Some("r")), Pattern(Clean(None))) == Some("rule")
    ensures ScopeOf(Clean(Some("r")), Pattern(Clean(Some("*")))) == Some("rule+host")
  {
    assert StripLeft("r") == "r" && StripRight("r") == "r" && StripLeft("*") == "*" && StripRight("*") == "*";
    assert StripLeft("") == "" && StripRight("") == "";
    GlobToLikeHead("*");
    assert "*"[1..] == "" && GlobToLike("*") == "%" + "" == "%";
    PercentIsAny(d.computer.value);
  }

  lemma TwoScopes(a: Supp, b: Supp)
    requires a.scope == "rule" && b.scope == "rule+host"
    requires a.ruleId != Some("") && a.computerLike != Some("") && b.ruleId != Some("") && b.computerLike != Some("")
    ensures Stored(map[], 1, a, 1, map[1 := a], 2) && Stored(map[1 := a], 2, b, 2, map[1 := a, 2 := b], 3)
    ensures ValidTable(map[1 := a, 2 := b], 3)
  {
    assert |a.scope| != |b.scope|;
    assert map[1 := a][2 := b] == map[1 := a, 2 := b];
  }

  lemma TwoRowsOfOne(k: Key, d: Row, a: Supp, b: Supp, f: Filters)
    requires d.level == "critical" && Kept(f, k, d) && Hides(a, d) && Hides(b, d)
    ensures var det, supps := map[k := d], map[1 := a, 2 := b];
            SeverityCount(det, Group(det, Selected(det, supps, f, true), ByRule, Some(d.ruleId))) > 1
  {
    var det, supps := map[k := d], map[1 := a, 2 := b];
    var g := Group(det, Selected(det, supps, f, true), ByRule, Some(d.ruleId));
    LeftJoinIs(det, supps, Joined(k, Some(1)));
    LeftJoinIs(det, supps, Joined(k, Some(2)));
    var rows := SevereRows(det, g);
    assert {Joined(k, Some(1)), Joined(k, Some(2))} <= rows;
    SubsetSize({Joined(k, Some(1)), Joined(k, Some(2))}, rows);
  }

  /**
   A rule is suppressed, and once more for all hosts with the glob `*`.  Adding both from an
   empty table leaves two rows, and with suppressed rows shown a critical detection of the
   rule is counted twice.
   */
  lemma SeverityCountedTwice(k: Key, d: Row, f: Filters, now: real)
    requires d.level == "critical" && d.ruleId == "r" && d.computer.Some? && Kept(f, k, d)
    ensures var a := NewSupp(Some("r"), None, "rule", None, now, None);
            var b := NewSupp(Some("r"), Some("*"), "rule+host", None, now, None);
            var det, supps := map[k := d], map[1 := a, 2 := b];
            && ScopeOf(Clean(Some("r")), Pattern(Clean(None))) == Some(a.scope)
            && ScopeOf(Clean(Some("r")), Pattern(Clean(Some("*")))) == Some(b.scope)
            && Stored(map[], 1, a, 1, map[1 := a], 2) && Stored(map[1 := a], 2, b, 2, supps, 3)
            && ValidTable(supps, 3)
            && SeverityCount(det, Group(det, Selected(det, supps, f, true), ByRule, Some("r"))) > 1
  {
    var a := NewSupp(Some("r"), None, "rule", None, now, None);
    var b := NewSupp(Some("r"), Some("*"), "rule+host", None, now, None);
    RuleAndAnyHost(d, now);
    GlobToLikeHead("*");
    TwoScopes(a, b);
    TwoRowsOfOne(k, d, a, b, f);
  }

  /** Adding the suppression that is there already and removing it again brings the hidden detection back. */
  lemma SecondAddUnhides(k: Key, d: Row, s: Supp, f: Filters)
    requires Kept(f, k, d) && Hides(s, d) && s.ruleId != Some("") && s.computerLike != Some("")
    ensures var det, rows := map[k := d], map[1 := s];
            && ValidTable(rows, 2) && Stored(rows, 2, s, 1, rows, 2)
            && View(det, rows, f, false) == {} && View(det, rows - {1}, f, false) == {k}
  {
    var rows := map[1 := s];
    assert 1 in Owners(rows, KeyOf(s));
    assert rows - {1} == map[];
    assert 1 in rows && Hides(rows[1], d);
  }

  // ------------------------------------------------------------- snapshots

  /** The row that importing the snapshot entry of a suppression adds, None if it is refused. */
  function Reimported(s: Supp, now: real): Option<Supp> {
    var glob := if OrBlank(s.computerLike) == "" then None else Some(LikeToGlob(s.computerLike.value));
    match ScopeOf(Clean(s.ruleId), Pattern(Clean(glob)))
    case None => None
    case Some(scope) => Some(NewSupp(s.ruleId, glob, scope, s.reason, now, s.createdBy))
  }

  lemma PatternReturnsIff(g: string)
    requires NulFree(g) && Strip(g) == g && g != ""
    ensures Pattern(Clean(Some(LikeToGlob(GlobToLike(g))))) == Some(GlobToLike(g))
       <==> BackslashFree(g) && TangleFree(g)
  {
    StrippedReturnIff(g);
    var back := Strip(LikeToGlob(GlobToLike(g)));
    if back != "" && GlobToLike(back) == GlobToLike(g) { GlobToLikeInjective(back, g); }
  }

  /**
   Exporting a suppression and importing the entry finds the key it came from exactly when
   its glob has no backslash and no tangle; stripping on import neither helps nor harms.
   */
  lemma SnapshotReimportIff(rule: Option<string>, glob: Option<string>, reason: Option<string>, was: real,
                            author: Option<string>, now: real)
    requires ScopeOf(Clean(rule), Pattern(Clean(glob))).Some?
    requires Clean(glob).Some? ==> NulFree(Clean(glob).value)
    ensures var s := NewSupp(rule, glob, ScopeOf(Clean(rule), Pattern(Clean(glob))).value, reason, was, author);
            var r := Reimported(s, now);
            r.Some? && KeyOf(r.value) == KeyOf(s)
            <==> Clean(glob) == None || (BackslashFree(Clean(glob).value) && TangleFree(Clean(glob).value))
  {
    StripTwice(OrBlank(rule));
    StripTwice(OrBlank(glob));
    if Clean(glob).Some? {
      var g := Clean(glob).value;
      GlobToLikeHead(g);
      PatternReturnsIff(g);
      var back := Clean(Some(LikeToGlob(GlobToLike(g))));
      if back.Some? { GlobToLikeHead(back.value); }
    }
  }

  /** The hunt filter has the ESCAPE clause and means its glob always. */
  lemma HuntFilterMeansItsGlob(f: Filters, k: Key, d: Row)
    ensures Kept(f, k, d) ==> f.computerGlob == "" || (d.computer.Some? && GlobMatch(f.computerGlob, d.computer.value))
    ensures f.computerGlob != "" && d.computer.Some? && GlobMatch(f.computerGlob, d.computer.value) ==>
              Kept(f, k, d) == Kept(f.(computerGlob := ""), k, d)
  {
    if d.computer.Some? { EscapedLikeIsGlob(f.computerGlob, d.computer.value); }
  }
}
