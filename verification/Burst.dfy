/**
 Burst detection: hours in which a rule fires at least eight times as often as it
 does on average.  The detections are a sequence, an hour is the first thirteen
 characters of a timestamp, and rates are real numbers.
 */
module Burst {
  import opened Wrappers
  import opened Strings
  import opened Counting

  datatype Fire = Fire(ruleId: Option<string>, ts: Option<string>)

  const MIN_BASELINE := 3
  const RATIO := 8.0

  /** The rows of a rule that the queries count. */
  predicate Counts(f: Fire, rule: string) { f.ruleId == Some(rule) && f.ts.Some? }

  function Fires(fires: seq<Fire>, rule: string): set<nat> { set i | 0 <= i < |fires| && Counts(fires[i], rule) }

  function HourOf(ts: string): string { Take(ts, 13) }

  function HourFires(fires: seq<Fire>, rule: string, hour: string): set<nat> {
    set i | i in Fires(fires, rule) && HourOf(fires[i].ts.value) == hour
  }

  function Hours(fires: seq<Fire>, rule: string): set<string> {
    set i | i in Fires(fires, rule) :: HourOf(fires[i].ts.value)
  }

  predicate Earliest(fires: seq<Fire>, rule: string, ts: string) {
    && (exists i :: i in Fires(fires, rule) && fires[i].ts.value == ts)
    && (forall i :: i in Fires(fires, rule) ==> Le(ts, fires[i].ts.value))
  }

  predicate Latest(fires: seq<Fire>, rule: string, ts: string) {
    && (exists i :: i in Fires(fires, rule) && fires[i].ts.value == ts)
    && (forall i :: i in Fires(fires, rule) ==> Le(fires[i].ts.value, ts))
  }

  /** A row of the first query. */
  datatype Stat = Stat(rule: string, n: nat, first: string, last: string)

  ghost predicate IsStat(fires: seq<Fire>, s: Stat) {
    && s.n == |Fires(fires, s.rule)| && s.n >= MIN_BASELINE
    && Earliest(fires, s.rule, s.first) && Latest(fires, s.rule, s.last)
  }

  /** The first query returns a row for each rule that fires often enough, in whatever order. */
  ghost predicate AreStats(fires: seq<Fire>, stats: seq<Stat>) {
    && (forall i :: 0 <= i < |stats| ==> IsStat(fires, stats[i]))
    && (forall i, j :: 0 <= i < j < |stats| ==> stats[i].rule != stats[j].rule)
    && (forall r :: |Fires(fires, r)| >= MIN_BASELINE ==> exists i :: 0 <= i < |stats| && stats[i].rule == r)
  }

  /** At least an hour; None when a timestamp cannot be read. */
  function Span(s: Stat, hoursBetween: (string, string) -> Option<real>): Option<real> {
    match hoursBetween(s.first, s.last)
    case None => None
    case Some(h) => Some(if h < 1.0 then 1.0 else h)
  }

  function Baseline(s: Stat, span: real): real
    requires span >= 1.0
  {
    s.n as real / span
  }

  ghost predicate Flagged(fires: seq<Fire>, s: Stat, hoursBetween: (string, string) -> Option<real>, hour: string) {
    && hour in Hours(fires, s.rule)
    && Span(s, hoursBetween).Some?
    && var b := Baseline(s, Span(s, hoursBetween).value);
       b >= 0.05 && |HourFires(fires, s.rule, hour)| as real >= RATIO * b
  }

  /** A row of the second query. */
  datatype Bucket = Bucket(hour: string, k: nat)

  /** The second query returns one row for each hour of the rule, in whatever order. */
  ghost predicate AreBuckets(fires: seq<Fire>, rule: string, buckets: seq<Bucket>) {
    && (forall i :: 0 <= i < |buckets| ==> buckets[i].k == |HourFires(fires, rule, buckets[i].hour)|)
    && (forall i, j :: 0 <= i < j < |buckets| ==> buckets[i].hour != buckets[j].hour)
    && (forall h :: h in Hours(fires, rule) <==> exists i :: 0 <= i < |buckets| && buckets[i].hour == h)
  }

  datatype Anomaly = Anomaly(rule: string, hour: string, observed: nat, ratio: real)

  function BurstsOf(s: Stat, span: Option<real>, buckets: seq<Bucket>): seq<Anomaly>
    requires span.Some? ==> span.value >= 1.0
  {
    if span == None || Baseline(s, span.value) < 0.05 || buckets == [] then []
    else
      var before := BurstsOf(s, span, buckets[..|buckets| - 1]);
      var row, b := buckets[|buckets| - 1], Baseline(s, span.value);
      if row.k as real < RATIO * b then before else before + [Anomaly(s.rule, row.hour, row.k, row.k as real / b)]
  }

  method ReportRule(s: Stat, span: Option<real>, buckets: seq<Bucket>) returns (out: seq<Anomaly>)
    requires span.Some? ==> span.value >= 1.0
    ensures out == BurstsOf(s, span, buckets)
  {
    out := [];
    if span == None { return; }
    var baseline := Baseline(s, span.value);
    if baseline < 0.05 { return; }
    for n := 0 to |buckets|
      invariant out == BurstsOf(s, span, buckets[..n])
    {
      assert buckets[..n + 1][..n] == buckets[..n];
      var row := buckets[n];
      if row.k as real < RATIO * baseline { continue; }
      out := out + [Anomaly(s.rule, row.hour, row.k, row.k as real / baseline)];
    }
    assert buckets[..|buckets|] == buckets;
  }

  function AllBursts(stats: seq<Stat>, hoursBetween: (string, string) -> Option<real>, buckets: string -> seq<Bucket>):
    seq<Anomaly>
  {
    if stats == [] then []
    else
      var s := stats[|stats| - 1];
      var before := AllBursts(stats[..|stats| - 1], hoursBetween, buckets);
      before + BurstsOf(s, Span(s, hoursBetween), buckets(s.rule))
  }

  predicate IsListed(out: seq<Anomaly>, h: string) { exists i :: 0 <= i < |out| && out[i].hour == h }

  predicate IsBusy(buckets: seq<Bucket>, h: string, least: real) {
    exists i :: 0 <= i < |buckets| && buckets[i].hour == h && buckets[i].k as real >= least
  }

  lemma ListedAppend(before: seq<Anomaly>, a: Anomaly, h: string)
    ensures IsListed(before + [a], h) <==> IsListed(before, h) || a.hour == h
  {
    var after := before + [a];
    assert after[|before|] == a && forall i :: 0 <= i < |before| ==> after[i] == before[i];
  }

  lemma BusyLast(buckets: seq<Bucket>, h: string, least: real)
    requires buckets != []
    ensures var last := buckets[|buckets| - 1];
            IsBusy(buckets, h, least) <==>
              IsBusy(buckets[..|buckets| - 1], h, least) || (last.hour == h && last.k as real >= least)
  {
    var init := buckets[..|buckets| - 1];
    assert forall i :: 0 <= i < |init| ==> init[i] == buckets[i];
  }

  lemma {:induction false} ReportedRows(s: Stat, span: Option<real>, buckets: seq<Bucket>, h: string)
    requires span.Some? ==> span.value >= 1.0
    ensures IsListed(BurstsOf(s, span, buckets), h)
       <==> span.Some? && Baseline(s, span.value) >= 0.05 && IsBusy(buckets, h, RATIO * Baseline(s, span.value))
  {
    if span.Some? && Baseline(s, span.value) >= 0.05 && buckets != [] {
      var init, row, b := buckets[..|buckets| - 1], buckets[|buckets| - 1], Baseline(s, span.value);
      ReportedRows(s, span, init, h);
      BusyLast(buckets, h, RATIO * b);
      ListedAppend(BurstsOf(s, span, init), Anomaly(s.rule, row.hour, row.k, row.k as real / b), h);
    }
  }

  /** The reported hours of a rule are its burst hours, whatever the order of the query rows. */
  lemma ReportsTheFlagged(fires: seq<Fire>, s: Stat, hoursBetween: (string, string) -> Option<real>,
                          buckets: seq<Bucket>, h: string)
    requires IsStat(fires, s) && AreBuckets(fires, s.rule, buckets)
    ensures IsListed(BurstsOf(s, Span(s, hoursBetween), buckets), h) <==> Flagged(fires, s, hoursBetween, h)
  {
    ReportedRows(s, Span(s, hoursBetween), buckets, h);
  }

  /** At least an hour. */
  function AtLeastAnHour(h: real): real { if h < 1.0 then 1.0 else h }

  /**
   In numbers: of `n` fires in `span` hours the `k` of one hour are a burst when they are eight times
   their share, and there is at least one fire in twenty hours.
   */
  lemma FlaggedInNumbers(fires: seq<Fire>, s: Stat, hoursBetween: (string, string) -> Option<real>, hour: string)
    requires IsStat(fires, s)
    ensures Flagged(fires, s, hoursBetween, hour) <==>
            var k, n, read := |HourFires(fires, s.rule, hour)|, |Fires(fires, s.rule)|, hoursBetween(s.first, s.last);
            && k > 0 && read.Some?
            && n as real * 20.0 >= AtLeastAnHour(read.value)
            && k as real * AtLeastAnHour(read.value) >= 8.0 * n as real
  {
    var hours := HourFires(fires, s.rule, hour);
    if hour in Hours(fires, s.rule) {
      var i :| i in Fires(fires, s.rule) && HourOf(fires[i].ts.value) == hour;
      assert i in hours;
    }
    if hours != {} { var i :| i in hours; }
    if hoursBetween(s.first, s.last).Some? {
      var span := AtLeastAnHour(hoursBetween(s.first, s.last).value);
      QuotientAtLeast(s.n as real, span, 0.05);
      QuotientAtMost(s.n as real, span, |hours| as real);
    }
  }

  lemma QuotientAtLeast(n: real, span: real, b: real)
    requires span >= 1.0
    ensures n / span >= b <==> n >= b * span
  {
    BaselineTimesSpan(n, span);
    if n / span >= b { TimesPositive(b, n / span, span); } else { StrictlyMore(n / span, b, span); }
  }

  lemma QuotientAtMost(n: real, span: real, k: real)
    requires span >= 1.0
    ensures k >= 8.0 * (n / span) <==> k * span >= 8.0 * n
  {
    BaselineTimesSpan(n, span);
    var q := 8.0 * (n / span);
    assert q * span == 8.0 * n;
    if k >= q { TimesPositive(q, k, span); } else { StrictlyMore(k, q, span); }
  }

  /** An anomaly names the rule and the fires of its hour, and how many times the average they are: eight at least. */
  lemma {:induction false} ReportedInNumbers(fires: seq<Fire>, s: Stat, span: real, buckets: seq<Bucket>, a: Anomaly)
    requires IsStat(fires, s) && span >= 1.0 && a in BurstsOf(s, Some(span), buckets)
    requires forall i :: 0 <= i < |buckets| ==> buckets[i].k == |HourFires(fires, s.rule, buckets[i].hour)|
    ensures a.rule == s.rule && a.observed == |HourFires(fires, s.rule, a.hour)|
    ensures a.ratio >= 8.0 && a.ratio * |Fires(fires, s.rule)| as real == a.observed as real * span
  {
    var init, row, b := buckets[..|buckets| - 1], buckets[|buckets| - 1], Baseline(s, span);
    if a in BurstsOf(s, Some(span), init) {
      ReportedInNumbers(fires, s, span, init, a);
    } else {
      assert a == Anomaly(s.rule, row.hour, row.k, row.k as real / b);
      BaselineTimesSpan(s.n as real, span);
      RatioOf(row.k as real, b, span, s.n as real);
    }
  }

  lemma RatioOf(k: real, b: real, span: real, n: real)
    requires b > 0.0 && b * span == n && k >= 8.0 * b
    ensures k / b >= 8.0 && (k / b) * n == k * span
  {
    var r := k / b;
    assert r * b == k;
    if r < 8.0 { StrictlyMore(r, 8.0, b); }
    assert r * n == (r * b) * span;
  }

  /** Fires fall into the same hour when date and hour of their timestamps agree. */
  lemma SameHourIff(a: string, b: string)
    requires |a| >= 13 && |b| >= 13
    ensures HourOf(a) == HourOf(b) <==> forall i :: 0 <= i < 13 ==> a[i] == b[i]
  {
    assert HourOf(a) == a[..13] && HourOf(b) == b[..13];
    if forall i :: 0 <= i < 13 ==> a[i] == b[i] { assert a[..13] == b[..13]; }
    if a[..13] == b[..13] { assert forall i :: 0 <= i < 13 ==> a[..13][i] == a[i] && b[..13][i] == b[i]; }
  }

  /** Three fires with a time are enough for a rule to be looked at. */
  lemma LookedAtIff(fires: seq<Fire>, stats: seq<Stat>, rule: string)
    requires AreStats(fires, stats)
    ensures (exists i :: 0 <= i < |stats| && stats[i].rule == rule) <==>
            |set i | 0 <= i < |fires| && fires[i].ruleId == Some(rule) && fires[i].ts.Some?| >= 3
  {
    assert (set i | 0 <= i < |fires| && fires[i].ruleId == Some(rule) && fires[i].ts.Some?) == Fires(fires, rule);
    if i :| 0 <= i < |stats| && stats[i].rule == rule { assert IsStat(fires, stats[i]); }
  }

  // ------------------------------------------------------------- the averaging bound

  function FiresIn(fires: seq<Fire>, rule: string, hours: set<string>): set<nat> {
    set i | i in Fires(fires, rule) && HourOf(fires[i].ts.value) in hours
  }

  lemma SplitHour(fires: seq<Fire>, rule: string, hours: set<string>, h: string)
    requires h in hours
    ensures |FiresIn(fires, rule, hours)| == |FiresIn(fires, rule, hours - {h})| + |HourFires(fires, rule, h)|
  {
    var rest := FiresIn(fires, rule, hours - {h});
    assert FiresIn(fires, rule, hours) == rest + HourFires(fires, rule, h) && rest !! HourFires(fires, rule, h);
  }

  lemma OneMoreTimes(n: nat, x: real)
    ensures (n + 1) as real * x == n as real * x + x
  {
    assert (n + 1) as real == n as real + 1.0;
  }

  lemma {:induction false} BusyHours(fires: seq<Fire>, rule: string, hours: set<string>, least: real)
    requires forall h :: h in hours ==> |HourFires(fires, rule, h)| as real >= least
    ensures |hours| as real * least <= |FiresIn(fires, rule, hours)| as real
  {
    if hours != {} {
      var h :| h in hours;
      var rest := hours - {h};
      BusyHours(fires, rule, rest, least);
      SplitHour(fires, rule, hours, h);
      OneMoreTimes(|rest|, least);
    }
  }

  /**
   At most one hour in `ratio` can be `ratio` times busier than the average, however
   the fires are spread: so no more than span/8 hours are flagged.
   */
  lemma AveragingBound(fires: seq<Fire>, s: Stat, span: real, ratio: real, hours: set<string>)
    requires IsStat(fires, s) && span >= 1.0 && ratio > 0.0
    requires forall h :: h in hours ==> |HourFires(fires, s.rule, h)| as real >= ratio * Baseline(s, span)
    ensures |hours| as real * ratio <= span
  {
    BusyHours(fires, s.rule, hours, ratio * Baseline(s, span));
    SubsetSize(FiresIn(fires, s.rule, hours), Fires(fires, s.rule));
    BaselineTimesSpan(s.n as real, span);
    Cancel(|hours| as real, ratio, Baseline(s, span), span, s.n as real);
  }

  lemma BaselineTimesSpan(n: real, span: real)
    requires span >= 1.0
    ensures n / span * span == n
  {
  }

  lemma Cancel(m: real, ratio: real, b: real, span: real, n: real)
    requires n > 0.0 && span >= 1.0 && b * span == n && m * (ratio * b) <= n
    ensures m * ratio <= span
  {
    if b <= 0.0 { TimesPositive(b, 0.0, span); }
    assert m * (ratio * b) == (m * ratio) * b;
    if m * ratio > span { StrictlyMore(span, m * ratio, b); }
  }

  lemma TimesPositive(a: real, b: real, c: real)
    requires a <= b && c > 0.0
    ensures a * c <= b * c
  {
  }

  lemma StrictlyMore(a: real, b: real, c: real)
    requires a < b && c > 0.0
    ensures a * c < b * c
  {
  }

  ghost function FlaggedHours(fires: seq<Fire>, s: Stat, hoursBetween: (string, string) -> Option<real>): set<string> {
    set h | h in Hours(fires, s.rule) && Flagged(fires, s, hoursBetween, h)
  }

  /** No more than an eighth of the rule's span is flagged, and nothing at all below eight hours. */
  lemma FewHoursAreBursts(fires: seq<Fire>, s: Stat, hoursBetween: (string, string) -> Option<real>)
    requires IsStat(fires, s) && Span(s, hoursBetween).Some?
    ensures |FlaggedHours(fires, s, hoursBetween)| as real * 8.0 <= Span(s, hoursBetween).value
    ensures Span(s, hoursBetween).value < 8.0 ==> FlaggedHours(fires, s, hoursBetween) == {}
  {
    var hours := FlaggedHours(fires, s, hoursBetween);
    AveragingBound(fires, s, Span(s, hoursBetween).value, RATIO, hours);
    if hours != {} { assert |hours| >= 1; }
  }

  // ------------------------------------------------------------- the whole report

  /** The number of anomalies of a rule. */
  function Reports(out: seq<Anomaly>, rule: string): nat {
    if out == [] then 0 else Reports(out[..|out| - 1], rule) + if out[|out| - 1].rule == rule then 1 else 0
  }

  lemma {:induction false} ReportsConcat(a: seq<Anomaly>, b: seq<Anomaly>, rule: string)
    ensures Reports(a + b, rule) == Reports(a, rule) + Reports(b, rule)
  {
    if b == [] {
      assert a + b == a;
    } else {
      ReportsConcat(a, b[..|b| - 1], rule);
      assert (a + b)[..|a + b| - 1] == a + b[..|b| - 1];
    }
  }

  lemma {:induction false} ReportsOfRule(s: Stat, span: Option<real>, buckets: seq<Bucket>, rule: string)
    requires span.Some? ==> span.value >= 1.0
    ensures Reports(BurstsOf(s, span, buckets), rule)
         == if rule == s.rule then |BurstsOf(s, span, buckets)| else 0
  {
    if span.Some? && Baseline(s, span.value) >= 0.05 && buckets != [] {
      var init, row, b := buckets[..|buckets| - 1], buckets[|buckets| - 1], Baseline(s, span.value);
      ReportsOfRule(s, span, init, rule);
      ReportsConcat(BurstsOf(s, span, init), [Anomaly(s.rule, row.hour, row.k, row.k as real / b)], rule);
    }
  }

  /** Each rule is reported by its own row only. */
  lemma {:induction false} ReportsOfAll(stats: seq<Stat>, hoursBetween: (string, string) -> Option<real>,
                                        buckets: string -> seq<Bucket>, rule: string)
    requires forall i, j :: 0 <= i < j < |stats| ==> stats[i].rule != stats[j].rule
    ensures (forall i :: 0 <= i < |stats| ==> stats[i].rule != rule) ==>
              Reports(AllBursts(stats, hoursBetween, buckets), rule) == 0
    ensures forall i :: 0 <= i < |stats| && stats[i].rule == rule ==>
              Reports(AllBursts(stats, hoursBetween, buckets), rule)
              == |BurstsOf(stats[i], Span(stats[i], hoursBetween), buckets(rule))|
  {
    if stats != [] {
      var init, s := stats[..|stats| - 1], stats[|stats| - 1];
      var last := BurstsOf(s, Span(s, hoursBetween), buckets(s.rule));
      ReportsOfAll(init, hoursBetween, buckets, rule);
      ReportsOfRule(s, Span(s, hoursBetween), buckets(s.rule), rule);
      ReportsConcat(AllBursts(init, hoursBetween, buckets), last, rule);
      assert forall i :: 0 <= i < |init| ==> init[i] == stats[i];
    }
  }

  function ListedHours(out: seq<Anomaly>): set<string> { set a | a in out :: a.hour }

  lemma ListedHoursAppend(out: seq<Anomaly>, a: Anomaly)
    ensures ListedHours(out + [a]) == ListedHours(out) + {a.hour}
  {
    assert forall x :: x in out + [a] <==> x in out || x == a;
  }

  /** No hour of a rule is reported twice. */
  lemma {:induction false} HoursAreDistinct(s: Stat, span: Option<real>, buckets: seq<Bucket>)
    requires span.Some? ==> span.value >= 1.0
    requires forall i, j :: 0 <= i < j < |buckets| ==> buckets[i].hour != buckets[j].hour
    ensures var out := BurstsOf(s, span, buckets);
            |ListedHours(out)| == |out| && forall h :: h in ListedHours(out) <==> IsListed(out, h)
  {
    var out := BurstsOf(s, span, buckets);
    if span.Some? && Baseline(s, span.value) >= 0.05 && buckets != [] {
      var init, row, b := buckets[..|buckets| - 1], buckets[|buckets| - 1], Baseline(s, span.value);
      HoursAreDistinct(s, span, init);
      var before, last := BurstsOf(s, span, init), Anomaly(s.rule, row.hour, row.k, row.k as real / b);
      ReportedRows(s, span, init, row.hour);
      ListedHoursAppend(before, last);
      forall h ensures IsListed(before + [last], h) <==> h in ListedHours(before + [last]) {
        ListedAppend(before, last, h);
      }
    }
  }

  /** As many anomalies as there are burst hours. */
  lemma ReportsCountBursts(fires: seq<Fire>, s: Stat, hoursBetween: (string, string) -> Option<real>,
                           buckets: seq<Bucket>)
    requires IsStat(fires, s) && AreBuckets(fires, s.rule, buckets)
    ensures |BurstsOf(s, Span(s, hoursBetween), buckets)| == |FlaggedHours(fires, s, hoursBetween)|
  {
    var out := BurstsOf(s, Span(s, hoursBetween), buckets);
    HoursAreDistinct(s, Span(s, hoursBetween), buckets);
    forall h ensures h in ListedHours(out) <==> h in FlaggedHours(fires, s, hoursBetween) {
      ReportsTheFlagged(fires, s, hoursBetween, buckets, h);
    }
    assert ListedHours(out) == FlaggedHours(fires, s, hoursBetween);
  }

  /** The report on a rule: bounded by its span, nothing below eight hours, nothing without a readable span. */
  predicate Bounded(reports: nat, span: Option<real>) {
    match span
    case None => reports == 0
    case Some(hours) => reports as real * 8.0 <= hours && (hours < 8.0 ==> reports == 0)
  }

  lemma ReportIsBounded(fires: seq<Fire>, stats: seq<Stat>, hoursBetween: (string, string) -> Option<real>,
                        buckets: string -> seq<Bucket>, i: nat)
    requires AreStats(fires, stats) && i < |stats| && AreBuckets(fires, stats[i].rule, buckets(stats[i].rule))
    ensures Bounded(Reports(AllBursts(stats, hoursBetween, buckets), stats[i].rule), Span(stats[i], hoursBetween))
  {
    var s := stats[i];
    ReportsOfAll(stats, hoursBetween, buckets, s.rule);
    if Span(s, hoursBetween).Some? {
      ReportsCountBursts(fires, s, hoursBetween, buckets(s.rule));
      FewHoursAreBursts(fires, s, hoursBetween);
    }
  }

  lemma QuietRule(fires: seq<Fire>, stats: seq<Stat>, hoursBetween: (string, string) -> Option<real>,
                  buckets: string -> seq<Bucket>, rule: string)
    requires AreStats(fires, stats) && |Fires(fires, rule)| < MIN_BASELINE
    ensures Reports(AllBursts(stats, hoursBetween, buckets), rule) == 0
  {
    assert forall i :: 0 <= i < |stats| ==> IsStat(fires, stats[i]);
    ReportsOfAll(stats, hoursBetween, buckets, rule);
  }

  /**
   All rules, one after the other.  Whatever detections the queries ran over, each rule gets
   at most one anomaly for every eight hours of its span, and a rule that fired less than
   three times gets none.
   */
  method FindBursts(stats: seq<Stat>, hoursBetween: (string, string) -> Option<real>, buckets: string -> seq<Bucket>,
                    ghost fires: seq<Fire>)
    returns (out: seq<Anomaly>)
    requires AreStats(fires, stats)
    requires forall i :: 0 <= i < |stats| ==> AreBuckets(fires, stats[i].rule, buckets(stats[i].rule))
    ensures out == AllBursts(stats, hoursBetween, buckets)
    ensures forall i :: 0 <= i < |stats| ==> Bounded(Reports(out, stats[i].rule), Span(stats[i], hoursBetween))
    ensures forall rule :: |Fires(fires, rule)| < MIN_BASELINE ==> Reports(out, rule) == 0
  {
    out := [];
    for n := 0 to |stats|
      invariant out == AllBursts(stats[..n], hoursBetween, buckets)
    {
      assert stats[..n + 1][..n] == stats[..n];
      var more := ReportRule(stats[n], Span(stats[n], hoursBetween), buckets(stats[n].rule));
      out := out + more;
    }
    assert stats[..|stats|] == stats;
    forall i: nat | i < |stats| ensures Bounded(Reports(out, stats[i].rule), Span(stats[i], hoursBetween)) {
      ReportIsBounded(fires, stats, hoursBetween, buckets, i);
    }
    forall rule | |Fires(fires, rule)| < MIN_BASELINE ensures Reports(out, rule) == 0 {
      QuietRule(fires, stats, hoursBetween, buckets, rule);
    }
  }
}
