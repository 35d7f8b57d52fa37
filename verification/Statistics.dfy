/**
 The counters of the results summary, filled batch by batch while detections are
 written.  A batch is a list of detections and the indices of its duplicates.
 */
module Statistics {
  import opened Wrappers
  import opened Sequences
  import opened Counting

  const LEVELS := 7

  /** The index of a severity, from undefined to emergency. */
  type Level = n: nat | n < LEVELS

  datatype Hit = Hit(time: string, eventId: string, computer: string)

  /**
   `stamp` and `day` are the detection time as a record id and as a date; `agg` holds the
   records of an aggregation.
   */
  datatype Detection = Detection(epoch: int, stamp: string, day: string, eventId: string, level: Level, ruleId: string,
                                 ruleTitle: string, rulePath: string, computer: string, agg: Option<seq<Hit>>)

  /** A counter map for each level, all of them there from the start. */
  type ByLevel = m: seq<map<string, nat>> | |m| == LEVELS
    witness [map[], map[], map[], map[], map[], map[], map[]]

  type LevelCounts = c: seq<nat> | |c| == LEVELS witness [0, 0, 0, 0, 0, 0, 0]

  /** `AfterfactInfo`, without the author lists. */
  datatype Stats = Stats(timestamps: seq<int>, recordIds: set<string>, total: LevelCounts, unique: LevelCounts,
                         byDate: ByLevel, byComputer: ByLevel, byRule: ByLevel, ruleIds: set<string>,
                         computerRules: set<string>, titlePaths: map<string, string>)

  function NoCounts(): LevelCounts { [0, 0, 0, 0, 0, 0, 0] }

  function NoMaps(): ByLevel { [map[], map[], map[], map[], map[], map[], map[]] }

  function Fresh(): Stats {
    Stats([], {}, NoCounts(), NoCounts(), NoMaps(), NoMaps(), NoMaps(), {}, {}, map[])
  }

  // ------------------------------------------------------------- one detection

  function RecordId(time: string, eventId: string): string { time + "_" + eventId }

  function RecordIds(d: Detection): set<string> {
    match d.agg
    case None => {RecordId(d.stamp, d.eventId)}
    case Some(hits) => set h | h in hits :: RecordId(h.time, h.eventId)
  }

  /** The computers of a detection, each once; an aggregation may involve several. */
  function Computers(d: Detection): set<string> {
    match d.agg
    case None => {d.computer}
    case Some(hits) => set h | h in hits :: h.computer
  }

  function ComputerRule(computer: string, rulePath: string): string { computer + "|" + rulePath }

  function CountUp(m: ByLevel, l: Level, key: string): ByLevel {
    m[l := Bump(m[l], key)]
  }

  /** A counter of computers and the keys that were counted. */
  datatype Seen = Seen(byComputer: ByLevel, keys: set<string>)

  function SeeOne(s: Seen, computer: string, rulePath: string, l: Level): Seen {
    var key := ComputerRule(computer, rulePath);
    if key in s.keys then s else Seen(CountUp(s.byComputer, l, computer), s.keys + {key})
  }

  function SeeAll(s: Seen, computers: seq<string>, rulePath: string, l: Level): Seen {
    if computers == [] then s
    else SeeOne(SeeAll(s, computers[..|computers| - 1], rulePath, l), computers[|computers| - 1], rulePath, l)
  }

  /** What one detection adds when there is a summary; `names` lists its computers in sorted order. */
  function Summarised(s: Stats, d: Detection, names: seq<string>): Stats {
    var seen := SeeAll(Seen(s.byComputer, s.computerRules), names, d.rulePath, d.level);
    s.(ruleIds := s.ruleIds + {d.ruleId},
       unique := if d.ruleId in s.ruleIds then s.unique else s.unique[d.level := s.unique[d.level] + 1],
       byComputer := seen.byComputer, computerRules := seen.keys,
       titlePaths := s.titlePaths[d.ruleTitle := d.rulePath],
       byDate := CountUp(s.byDate, d.level, d.day),
       byRule := CountUp(s.byRule, d.level, d.ruleTitle),
       total := s.total[d.level := s.total[d.level] + 1])
  }

  function Recorded(s: Stats, d: Detection): Stats {
    s.(timestamps := s.timestamps + [d.epoch], recordIds := s.recordIds + RecordIds(d))
  }

  /** `sorted` lists a set of names in the order in which they are counted. */
  function Counted(s: Stats, d: Detection, summary: bool, sorted: set<string> -> seq<string>): Stats {
    if summary then Summarised(Recorded(s, d), d, sorted(Computers(d))) else Recorded(s, d)
  }

  function CountedAll(s: Stats, ds: seq<Detection>, summary: bool, sorted: set<string> -> seq<string>): Stats {
    if ds == [] then s else Counted(CountedAll(s, ds[..|ds| - 1], summary, sorted), ds[|ds| - 1], summary, sorted)
  }

  /** The detections of a batch that are written. */
  function Written(batch: seq<Detection>, duplicates: set<nat>): seq<Detection> {
    if batch == [] then []
    else
      var before := Written(batch[..|batch| - 1], duplicates);
      if |batch| - 1 in duplicates then before else before + [batch[|batch| - 1]]
  }

  /** The list handed over at one time, and the indices in it that are not written. */
  datatype Batch = Batch(detections: seq<Detection>, duplicates: set<nat>)

  /** The detections written over all batches, in order. */
  function WrittenOver(batches: seq<Batch>): seq<Detection> {
    FlatMap(batches, (b: Batch) => Written(b.detections, b.duplicates))
  }

  // ------------------------------------------------------------- the code

  class AfterfactInfo {
    var stats: Stats

    constructor ()
      ensures stats == Fresh()
    {
      stats := Fresh();
    }

    method CountupComputers(names: seq<string>, rulePath: string, level: Level)
      modifies this
      ensures var seen := SeeAll(Seen(old(stats).byComputer, old(stats).computerRules), names, rulePath, level);
              stats == old(stats).(byComputer := seen.byComputer, computerRules := seen.keys)
    {
      var byComputer, keys := stats.byComputer, stats.computerRules;
      for n := 0 to |names|
        invariant Seen(byComputer, keys)
               == SeeAll(Seen(stats.byComputer, stats.computerRules), names[..n], rulePath, level)
        invariant stats == old(stats)
      {
        assert names[..n + 1][..n] == names[..n];
        var key := ComputerRule(names[n], rulePath);
        if key !in keys {
          keys := keys + {key};
          byComputer := CountUp(byComputer, level, names[n]);
        }
      }
      assert names[..|names|] == names;
      stats := stats.(byComputer := byComputer, computerRules := keys);
    }

    method Count(d: Detection, summary: bool, sorted: set<string> -> seq<string>)
      modifies this
      ensures stats == Counted(old(stats), d, summary, sorted)
    {
      stats := stats.(timestamps := stats.timestamps + [d.epoch], recordIds := stats.recordIds + RecordIds(d));
      if !summary { return; }
      if d.ruleId !in stats.ruleIds {
        stats := stats.(ruleIds := stats.ruleIds + {d.ruleId},
                        unique := stats.unique[d.level := stats.unique[d.level] + 1]);
      } else {
        assert stats.ruleIds + {d.ruleId} == stats.ruleIds;
      }
      CountupComputers(sorted(Computers(d)), d.rulePath, d.level);
      stats := stats.(titlePaths := stats.titlePaths[d.ruleTitle := d.rulePath],
                      byDate := CountUp(stats.byDate, d.level, d.day),
                      byRule := CountUp(stats.byRule, d.level, d.ruleTitle),
                      total := stats.total[d.level := stats.total[d.level] + 1]);
    }

    /** `calc_statistic_info` on one batch. */
    method Calc(batch: seq<Detection>, duplicates: set<nat>, summary: bool, sorted: set<string> -> seq<string>)
      modifies this
      ensures stats == CountedAll(old(stats), Written(batch, duplicates), summary, sorted)
    {
      for n := 0 to |batch|
        invariant stats == CountedAll(old(stats), Written(batch[..n], duplicates), summary, sorted)
      {
        assert batch[..n + 1][..n] == batch[..n];
        if n in duplicates { continue; }
        var before := Written(batch[..n], duplicates);
        assert (before + [batch[n]])[..|before|] == before;
        Count(batch[n], summary, sorted);
      }
      assert batch[..|batch|] == batch;
    }
  }

  // ------------------------------------------------------------- batches

  lemma {:induction false} CountedConcat(s: Stats, a: seq<Detection>, b: seq<Detection>, summary: bool,
                                              sorted: set<string> -> seq<string>)
    ensures CountedAll(CountedAll(s, a, summary, sorted), b, summary, sorted) == CountedAll(s, a + b, summary, sorted)
  {
    if b == [] {
      assert a + b == a;
    } else {
      CountedConcat(s, a, b[..|b| - 1], summary, sorted);
      assert (a + b)[..|a + b| - 1] == a + b[..|b| - 1];
    }
  }

  // ------------------------------------------------------------- conservation

  function SumTo(c: seq<nat>, n: nat): nat
    requires n <= |c|
  {
    if n == 0 then 0 else SumTo(c, n - 1) + c[n - 1]
  }

  function Sum(c: seq<nat>): nat { SumTo(c, |c|) }

  ghost function Totals(m: ByLevel): LevelCounts { Map(m, (c: map<string, nat>) => Total(c)) }

  lemma {:induction false} SumPlusOne(c: seq<nat>, l: nat, n: nat)
    requires l < |c| && n <= |c|
    ensures SumTo(c[l := c[l] + 1], n) == SumTo(c, n) + if l < n then 1 else 0
  {
    if n > 0 { SumPlusOne(c, l, n - 1); }
  }

  lemma CountUpTotals(m: ByLevel, l: Level, key: string)
    ensures Totals(CountUp(m, l, key)) == Totals(m)[l := Totals(m)[l] + 1]
  {
    TotalBumpBy(m[l], key, 1);
  }

  /**
   For every level the total is the sum over rule titles and the sum over dates;
   the unique counts add up to the distinct rule ids, and the computer counts to
   the distinct computer-and-rule keys.
   */
  ghost predicate Conserved(s: Stats) {
    && s.total == Totals(s.byRule) == Totals(s.byDate)
    && Sum(s.unique) == |s.ruleIds|
    && Sum(Totals(s.byComputer)) == |s.computerRules|
  }

  lemma FreshIsConserved()
    ensures Conserved(Fresh())
  {
    var c := Fresh().byRule;
    assert forall i :: 0 <= i < |c| ==> c[i] == map[];
    assert Totals(c) == NoCounts();
    ZeroSum(NoCounts(), LEVELS);
  }

  lemma {:induction false} ZeroSum(c: seq<nat>, n: nat)
    requires n <= |c| && forall i :: 0 <= i < |c| ==> c[i] == 0
    ensures SumTo(c, n) == 0
  {
    if n > 0 { ZeroSum(c, n - 1); }
  }

  lemma {:induction false} SeeingConserves(s: Seen, names: seq<string>, rulePath: string, l: Level)
    requires Sum(Totals(s.byComputer)) == |s.keys|
    ensures var t := SeeAll(s, names, rulePath, l); Sum(Totals(t.byComputer)) == |t.keys|
  {
    if names != [] {
      var init := names[..|names| - 1];
      SeeingConserves(s, init, rulePath, l);
      var t := SeeAll(s, init, rulePath, l);
      CountUpTotals(t.byComputer, l, names[|names| - 1]);
      SumPlusOne(Totals(t.byComputer), l, LEVELS);
    }
  }

  /** What a detection does to the counters that Conserved speaks of. */
  lemma SummarisedCounters(s: Stats, d: Detection, names: seq<string>)
    ensures var t := Summarised(s, d, names);
            var seen := SeeAll(Seen(s.byComputer, s.computerRules), names, d.rulePath, d.level);
            && t.total == s.total[d.level := s.total[d.level] + 1]
            && t.byDate == CountUp(s.byDate, d.level, d.day) && t.byRule == CountUp(s.byRule, d.level, d.ruleTitle)
            && t.byComputer == seen.byComputer && t.computerRules == seen.keys
            && t.ruleIds == s.ruleIds + {d.ruleId}
            && t.unique == if d.ruleId in s.ruleIds then s.unique else s.unique[d.level := s.unique[d.level] + 1]
  {
  }

  lemma UniqueConserved(unique: LevelCounts, ids: set<string>, id: string, l: Level)
    requires Sum(unique) == |ids|
    ensures Sum(if id in ids then unique else unique[l := unique[l] + 1]) == |ids + {id}|
  {
    if id in ids {
      assert ids + {id} == ids;
    } else {
      SumPlusOne(unique, l, LEVELS);
    }
  }

  lemma CountingConserves(s: Stats, d: Detection, names: seq<string>)
    requires Conserved(s)
    ensures Conserved(Summarised(s, d, names))
  {
    SummarisedCounters(s, d, names);
    CountUpTotals(s.byDate, d.level, d.day);
    CountUpTotals(s.byRule, d.level, d.ruleTitle);
    SeeingConserves(Seen(s.byComputer, s.computerRules), names, d.rulePath, d.level);
    UniqueConserved(s.unique, s.ruleIds, d.ruleId, d.level);
  }

  /** Every run over batches keeps the counters consistent. */
  lemma {:induction false} RunsConserve(s: Stats, ds: seq<Detection>, summary: bool, sorted: set<string> -> seq<string>)
    requires Conserved(s)
    ensures Conserved(CountedAll(s, ds, summary, sorted))
  {
    if ds != [] {
      var init, d := ds[..|ds| - 1], ds[|ds| - 1];
      RunsConserve(s, init, summary, sorted);
      var before := CountedAll(s, init, summary, sorted);
      assert Conserved(Recorded(before, d));
      if summary { CountingConserves(Recorded(before, d), d, sorted(Computers(d))); }
    }
  }

  /**
   A whole scan: the statistics are updated batch by batch.  However the detections are cut
   into batches, the counters are those of all written detections in one list, and they are
   consistent with each other.
   */
  method CalcBatches(batches: seq<Batch>, summary: bool, sorted: set<string> -> seq<string>)
    returns (info: AfterfactInfo)
    ensures fresh(info)
    ensures info.stats == CountedAll(Fresh(), WrittenOver(batches), summary, sorted) && Conserved(info.stats)
  {
    info := new AfterfactInfo();
    ghost var written := (b: Batch) => Written(b.detections, b.duplicates);
    for n := 0 to |batches|
      invariant fresh(info) && info.stats == CountedAll(Fresh(), WrittenOver(batches[..n]), summary, sorted)
    {
      FlatMapNext(batches, n, written);
      CountedConcat(Fresh(), WrittenOver(batches[..n]), written(batches[n]), summary, sorted);
      info.Calc(batches[n].detections, batches[n].duplicates, summary, sorted);
    }
    assert batches[..|batches|] == batches;
    FreshIsConserved();
    RunsConserve(Fresh(), WrittenOver(batches), summary, sorted);
  }

  /** Two scans that write the same detections end with the same counters, whatever their batches were. */
  method BatchesDoNotMatter(x: seq<Batch>, y: seq<Batch>, summary: bool, sorted: set<string> -> seq<string>)
    returns (a: Stats, b: Stats)
    requires WrittenOver(x) == WrittenOver(y)
    ensures a == b == CountedAll(Fresh(), WrittenOver(x), summary, sorted)
  {
    var first := CalcBatches(x, summary, sorted);
    var second := CalcBatches(y, summary, sorted);
    a, b := first.stats, second.stats;
  }

  // ------------------------------------------------------------- what the counters mean

  function OfLevel(ds: seq<Detection>, l: Level): nat {
    if ds == [] then 0 else OfLevel(ds[..|ds| - 1], l) + if ds[|ds| - 1].level == l then 1 else 0
  }

  function RuleIds(ds: seq<Detection>): set<string> { set d | d in ds :: d.ruleId }

  /** The distinct pairs of a computer and a rule file. */
  function Pairs(ds: seq<Detection>): set<(string, string)> {
    if ds == [] then {} else Pairs(ds[..|ds| - 1]) + PairsOf(ds[|ds| - 1])
  }

  function PairsOf(d: Detection): set<(string, string)> { set c | c in Computers(d) :: (c, d.rulePath) }

  /** A sorting of a set of names lists exactly its members. */
  ghost predicate Lists(sorted: set<string> -> seq<string>) {
    forall names, x :: x in sorted(names) <==> x in names
  }

  function PairKey(p: (string, string)): string { ComputerRule(p.0, p.1) }

  function KeysOf(names: seq<string>, rulePath: string): set<string> { set c | c in names :: ComputerRule(c, rulePath) }

  lemma {:induction false} SeenKeys(s: Seen, names: seq<string>, rulePath: string, l: Level)
    ensures SeeAll(s, names, rulePath, l).keys == s.keys + KeysOf(names, rulePath)
  {
    if names != [] {
      var init := names[..|names| - 1];
      SeenKeys(s, init, rulePath, l);
      assert names == init + [names[|init|]];
    }
  }

  lemma {:induction false} TotalsMean(ds: seq<Detection>, sorted: set<string> -> seq<string>, l: Level)
    ensures CountedAll(Fresh(), ds, true, sorted).total[l] == OfLevel(ds, l)
  {
    if ds != [] { TotalsMean(ds[..|ds| - 1], sorted, l); }
  }

  lemma OneMoreRule(ds: seq<Detection>, d: Detection)
    ensures RuleIds(ds + [d]) == RuleIds(ds) + {d.ruleId}
  {
    assert forall x :: x in ds + [d] <==> x in ds || x == d;
  }

  function Titled(ds: seq<Detection>, l: Level, title: string): nat {
    if ds == [] then 0
    else Titled(ds[..|ds| - 1], l, title) + if ds[|ds| - 1].level == l && ds[|ds| - 1].ruleTitle == title then 1 else 0
  }

  function Dated(ds: seq<Detection>, l: Level, day: string): nat {
    if ds == [] then 0
    else Dated(ds[..|ds| - 1], l, day) + if ds[|ds| - 1].level == l && ds[|ds| - 1].day == day then 1 else 0
  }

  /** The counters of a title and of a day are the numbers of their detections. */
  lemma {:induction false} BreakdownsMean(ds: seq<Detection>, sorted: set<string> -> seq<string>, l: Level,
                                          text: string)
    ensures Get(CountedAll(Fresh(), ds, true, sorted).byRule[l], text) == Titled(ds, l, text)
    ensures Get(CountedAll(Fresh(), ds, true, sorted).byDate[l], text) == Dated(ds, l, text)
  {
    if ds != [] { BreakdownsMean(ds[..|ds| - 1], sorted, l, text); }
  }

  lemma {:induction false} RuleIdsMean(ds: seq<Detection>, sorted: set<string> -> seq<string>)
    ensures CountedAll(Fresh(), ds, true, sorted).ruleIds == RuleIds(ds)
  {
    if ds != [] {
      var init, d := ds[..|ds| - 1], ds[|ds| - 1];
      RuleIdsMean(init, sorted);
      assert ds == init + [d];
      OneMoreRule(init, d);
    }
  }

  lemma {:induction false} ComputerRulesMean(ds: seq<Detection>, sorted: set<string> -> seq<string>)
    requires Lists(sorted)
    ensures CountedAll(Fresh(), ds, true, sorted).computerRules == Image(PairKey, Pairs(ds))
  {
    if ds != [] {
      var init, d := ds[..|ds| - 1], ds[|ds| - 1];
      ComputerRulesMean(init, sorted);
      var s := CountedAll(Fresh(), init, true, sorted);
      SummarisedKeys(Recorded(s, d), d, sorted(Computers(d)));
      NewPairs(Pairs(init), d, sorted(Computers(d)));
    }
  }

  lemma SummarisedKeys(s: Stats, d: Detection, names: seq<string>)
    ensures Summarised(s, d, names).computerRules == s.computerRules + KeysOf(names, d.rulePath)
  {
    SeenKeys(Seen(s.byComputer, s.computerRules), names, d.rulePath, d.level);
  }

  lemma NewPairs(pairs: set<(string, string)>, d: Detection, names: seq<string>)
    requires forall x :: x in names <==> x in Computers(d)
    ensures Image(PairKey, pairs + PairsOf(d)) == Image(PairKey, pairs) + KeysOf(names, d.rulePath)
  {
    forall k | k in KeysOf(names, d.rulePath) ensures k in Image(PairKey, pairs + PairsOf(d)) {
      var c :| c in names && k == ComputerRule(c, d.rulePath);
      assert (c, d.rulePath) in PairsOf(d) && PairKey((c, d.rulePath)) == k;
    }
  }

  /** What is kept of every written detection: its time, and `time_eventid` of each of its records. */
  lemma {:induction false} RecordsMean(ds: seq<Detection>, summary: bool, sorted: set<string> -> seq<string>,
                                       id: string)
    ensures var s := CountedAll(Fresh(), ds, summary, sorted);
            && |s.timestamps| == |ds| && (forall i :: 0 <= i < |ds| ==> s.timestamps[i] == ds[i].epoch)
            && (id in s.recordIds <==> exists i :: 0 <= i < |ds| && HasRecord(ds[i], id))
  {
    if ds != [] {
      var init, d := ds[..|ds| - 1], ds[|ds| - 1];
      RecordsMean(init, summary, sorted, id);
      assert ds == init + [d];
      RecordOf(d, id);
      var was := CountedAll(Fresh(), init, summary, sorted);
      assert Recorded(was, d).recordIds == was.recordIds + RecordIds(d);
      assert HasRecord(d, id) ==> HasRecord(ds[|init|], id);
      assert forall i :: 0 <= i < |init| ==> ds[i] == init[i];
    }
  }

  /** The record is that of the detection, or for an aggregation that of one of its hits. */
  predicate HasRecord(d: Detection, id: string) {
    match d.agg
    case None => id == d.stamp + "_" + d.eventId
    case Some(hits) => exists h :: h in hits && id == h.time + "_" + h.eventId
  }

  lemma RecordOf(d: Detection, id: string)
    ensures id in RecordIds(d) <==> HasRecord(d, id)
  {
  }

  /** The rule file of a title is that of the last detection with it. */
  lemma {:induction false} TitlePathsMean(ds: seq<Detection>, sorted: set<string> -> seq<string>, i: nat)
    requires i < |ds| && forall j :: i < j < |ds| ==> ds[j].ruleTitle != ds[i].ruleTitle
    ensures var paths := CountedAll(Fresh(), ds, true, sorted).titlePaths;
            ds[i].ruleTitle in paths && paths[ds[i].ruleTitle] == ds[i].rulePath
  {
    var init := ds[..|ds| - 1];
    if i < |init| {
      assert init[i] == ds[i] && ds[|ds| - 1].ruleTitle != ds[i].ruleTitle;
      assert forall j :: i < j < |init| ==> init[j] == ds[j];
      TitlePathsMean(init, sorted, i);
    }
  }

  /** The first detection of each rule is counted at its level. */
  function FirstOfRules(ds: seq<Detection>, l: Level): nat {
    if ds == [] then 0
    else
      var init, d := ds[..|ds| - 1], ds[|ds| - 1];
      FirstOfRules(init, l) +
      if d.level == l && forall i :: 0 <= i < |init| ==> init[i].ruleId != d.ruleId then 1 else 0
  }

  lemma {:induction false} UniqueMean(ds: seq<Detection>, sorted: set<string> -> seq<string>, l: Level)
    ensures CountedAll(Fresh(), ds, true, sorted).unique[l] == FirstOfRules(ds, l)
  {
    if ds != [] {
      var init, d := ds[..|ds| - 1], ds[|ds| - 1];
      UniqueMean(init, sorted, l);
      RuleIdsMean(init, sorted);
      assert d.ruleId in RuleIds(init) <==> exists i :: 0 <= i < |init| && init[i].ruleId == d.ruleId;
    }
  }

  /** The computer a detection is of, or those of the hits of an aggregation. */
  predicate OnComputer(d: Detection, c: string) {
    match d.agg
    case None => c == d.computer
    case Some(hits) => exists h :: h in hits && h.computer == c
  }

  lemma KeyTellsComputer(x: string, y: string, rulePath: string)
    ensures ComputerRule(x, rulePath) == ComputerRule(y, rulePath) ==> x == y
  {
    var a, b := ComputerRule(x, rulePath), ComputerRule(y, rulePath);
    assert |a| == |x| + 1 + |rulePath| && |b| == |y| + 1 + |rulePath|;
    assert x == a[..|x|] && y == b[..|y|];
  }

  lemma {:induction false} SeeAllCounts(s: Seen, names: seq<string>, rulePath: string, l: Level, m: Level, c: string)
    requires Distinct(names)
    ensures Get(SeeAll(s, names, rulePath, l).byComputer[m], c) == Get(s.byComputer[m], c) +
            if m == l && c in names && c + "|" + rulePath !in s.keys then 1 else 0
  {
    if names != [] {
      var init, last := names[..|names| - 1], names[|names| - 1];
      assert names == init + [last];
      SeeAllCounts(s, init, rulePath, l, m, c);
      SeenKeys(s, init, rulePath, l);
      forall x ensures ComputerRule(x, rulePath) == ComputerRule(last, rulePath) ==> x == last {
        KeyTellsComputer(x, last, rulePath);
      }
    }
  }

  /**
   One more detection counts once, at its level, for each of its computers on which no earlier one
   left the same computer-and-rule key.
   */
  lemma ComputersMean(ds: seq<Detection>, d: Detection, sorted: set<string> -> seq<string>, l: Level, c: string)
    requires Lists(sorted) && Distinct(sorted(Computers(d)))
    ensures Get(CountedAll(Fresh(), ds + [d], true, sorted).byComputer[l], c) ==
            Get(CountedAll(Fresh(), ds, true, sorted).byComputer[l], c) +
            if l == d.level && OnComputer(d, c) && c + "|" + d.rulePath !in Image(PairKey, Pairs(ds)) then 1 else 0
  {
    assert (ds + [d])[..|ds|] == ds;
    var s := CountedAll(Fresh(), ds, true, sorted);
    ComputerRulesMean(ds, sorted);
    var names := sorted(Computers(d));
    SeeAllCounts(Seen(s.byComputer, s.computerRules), names, d.rulePath, d.level, l, c);
    assert c in names <==> OnComputer(d, c);
  }

  /**
   So over any run the unique counts add up to the number of rules that fired, and
   the computer counts to the number of computer-and-rule pairs exactly when no two
   pairs are written alike; otherwise they fall short.
   */
  lemma SummaryIsExactIff(ds: seq<Detection>, sorted: set<string> -> seq<string>)
    requires Lists(sorted)
    ensures var s := CountedAll(Fresh(), ds, true, sorted);
            && Sum(s.unique) == |RuleIds(ds)|
            && Sum(Totals(s.byComputer)) <= |Pairs(ds)|
            && (Sum(Totals(s.byComputer)) == |Pairs(ds)| <==> InjectiveOn(PairKey, Pairs(ds)))
  {
    FreshIsConserved();
    RunsConserve(Fresh(), ds, true, sorted);
    RuleIdsMean(ds, sorted);
    ComputerRulesMean(ds, sorted);
    ImageShrinks(PairKey, Pairs(ds));
    if InjectiveOn(PairKey, Pairs(ds)) { ImageSize(PairKey, Pairs(ds)); }
  }
}
