/**
 The danger ranking: which critical and high rules of a computer count, and the
 score from 0 to 100 made of them.

 The rows of the SQL queries are inputs.  Scores are computed over the reals.
 */
module Ranking {
  import opened Wrappers
  import opened Strings
  import opened Counting

  datatype Level = Critical | High

  /** A row of the distinct critical/high query. */
  datatype Hit = Hit(computer: Option<string>, level: Level, ruleId: string, title: Option<string>)

  const UNKNOWN := "(\U{4E0D}\U{660E})"

  function OrBlank(s: Option<string>): string { match s case None => "" case Some(t) => t }

  function NameOf(computer: Option<string>): string {
    if OrBlank(computer) == "" then UNKNOWN else computer.value
  }

  /** A computer without a name goes by one that says so. */
  lemma NameIs(computer: Option<string>)
    ensures NameOf(computer) == if computer == None || computer == Some("") then "(不明)" else computer.value
  {
    assert "(\U{4E0D}\U{660E})" == "(不明)";
  }

  // ------------------------------------------------------------- what fired where

  function RulesOf(hits: seq<Hit>, comp: string, level: Level): (rules: set<string>)
    ensures "" !in rules
  {
    if hits == [] then {}
    else
      var before, h := RulesOf(hits[..|hits| - 1], comp, level), hits[|hits| - 1];
      if h.ruleId != "" && NameOf(h.computer) == comp && h.level == level then before + {h.ruleId} else before
  }

  function PcsOf(hits: seq<Hit>, rule: string): set<string> {
    if hits == [] then {}
    else
      var before, h := PcsOf(hits[..|hits| - 1], rule), hits[|hits| - 1];
      if h.ruleId == rule then before + {NameOf(h.computer)} else before
  }

  function Rules(hits: seq<Hit>): (rules: set<string>)
    ensures "" !in rules
  {
    if hits == [] then {}
    else
      var before, h := Rules(hits[..|hits| - 1]), hits[|hits| - 1];
      if h.ruleId != "" then before + {h.ruleId} else before
  }

  function Pcs(hits: seq<Hit>): set<string> {
    if hits == [] then {}
    else
      var before, h := Pcs(hits[..|hits| - 1]), hits[|hits| - 1];
      if h.ruleId != "" then before + {NameOf(h.computer)} else before
  }

  /** The title that the last row of the rule carries. */
  function TitleOf(hits: seq<Hit>, rule: string): string {
    if hits == [] then ""
    else if hits[|hits| - 1].ruleId == rule then OrBlank(hits[|hits| - 1].title)
    else TitleOf(hits[..|hits| - 1], rule)
  }

  /** What the collections of rules hold. */
  lemma {:induction false} RulesMean(hits: seq<Hit>, comp: string, level: Level, rule: string)
    ensures rule in RulesOf(hits, comp, level) <==>
              rule != "" && exists i :: 0 <= i < |hits| && hits[i].ruleId == rule && NameOf(hits[i].computer) == comp
                                        && hits[i].level == level
    ensures rule in Rules(hits) <==> rule != "" && exists i :: 0 <= i < |hits| && hits[i].ruleId == rule
  {
    if hits != [] {
      var init := hits[..|hits| - 1];
      RulesMean(init, comp, level, rule);
      assert hits == init + [hits[|hits| - 1]];
    }
  }

  /** What the collections of computers hold. */
  lemma {:induction false} PcsMean(hits: seq<Hit>, comp: string, rule: string)
    ensures comp in PcsOf(hits, rule) <==>
              exists i :: 0 <= i < |hits| && hits[i].ruleId == rule && NameOf(hits[i].computer) == comp
    ensures comp in Pcs(hits) <==>
            exists i :: 0 <= i < |hits| && hits[i].ruleId != "" && NameOf(hits[i].computer) == comp
  {
    if hits != [] {
      var init := hits[..|hits| - 1];
      PcsMean(init, comp, rule);
      assert hits == init + [hits[|hits| - 1]];
    }
  }

  datatype Sets = Sets(critical: set<string>, high: set<string>)

  function Add(s: Sets, level: Level, rule: string): Sets {
    match level
    case Critical => s.(critical := s.critical + {rule})
    case High => s.(high := s.high + {rule})
  }

  ghost predicate Collected(hits: seq<Hit>, perComp: map<string, Sets>, rulePcs: map<string, set<string>>,
                            titles: map<string, string>)
  {
    && perComp.Keys == Pcs(hits) && rulePcs.Keys == Rules(hits) && titles.Keys == Rules(hits)
    && (forall c :: c in perComp ==> perComp[c] == Sets(RulesOf(hits, c, Critical), RulesOf(hits, c, High)))
    && (forall r :: r in rulePcs ==> rulePcs[r] == PcsOf(hits, r))
    && (forall r :: r in titles ==> titles[r] == TitleOf(hits, r))
  }

  lemma {:induction false} NothingYet(seen: seq<Hit>, comp: string, rule: string)
    ensures comp !in Pcs(seen) ==> RulesOf(seen, comp, Critical) == {} && RulesOf(seen, comp, High) == {}
    ensures rule != "" && rule !in Rules(seen) ==> PcsOf(seen, rule) == {}
  {
    if seen != [] { NothingYet(seen[..|seen| - 1], comp, rule); }
  }

  /** The three dictionaries filled in one pass over the query. */
  method Collect(hits: seq<Hit>)
    returns (perComp: map<string, Sets>, rulePcs: map<string, set<string>>, titles: map<string, string>)
    ensures Collected(hits, perComp, rulePcs, titles)
  {
    perComp, rulePcs, titles := map[], map[], map[];
    ghost var seen: seq<Hit> := [];
    for i := 0 to |hits|
      invariant seen == hits[..i] && Collected(seen, perComp, rulePcs, titles)
    {
      ghost var next := seen + [hits[i]];
      assert next[..|next| - 1] == seen;
      if hits[i].ruleId != "" { perComp, rulePcs, titles := CollectOne(hits[i], seen, next, perComp, rulePcs, titles); }
      seen := next;
    }
    assert seen == hits;
  }

  method CollectOne(h: Hit, ghost seen: seq<Hit>, ghost next: seq<Hit>, perComp: map<string, Sets>,
                    rulePcs: map<string, set<string>>, titles: map<string, string>)
    returns (perComp': map<string, Sets>, rulePcs': map<string, set<string>>, titles': map<string, string>)
    requires Collected(seen, perComp, rulePcs, titles) && h.ruleId != ""
    requires next != [] && next[..|next| - 1] == seen && next[|next| - 1] == h
    ensures Collected(next, perComp', rulePcs', titles')
  {
    var comp := NameOf(h.computer);
    NothingYet(seen, comp, h.ruleId);
    var s := if comp in perComp then perComp[comp] else Sets({}, {});
    perComp' := perComp[comp := Add(s, h.level, h.ruleId)];
    var pcs := if h.ruleId in rulePcs then rulePcs[h.ruleId] else {};
    rulePcs' := rulePcs[h.ruleId := pcs + {comp}];
    titles' := titles[h.ruleId := OrBlank(h.title)];
  }

  // ------------------------------------------------------------- high confidence

  function BeforeDot(s: string): string {
    if s == "" || s[0] == '.' then "" else [s[0]] + BeforeDot(s[1..])
  }

  /** Whether some technique of the list, or the base technique of a sub-technique, is tagged. */
  predicate TagsAreHighConfidence(tags: seq<string>, hc: set<string>) {
    exists i :: 0 <= i < |tags| && tags[i] != "" && (Upper(tags[i]) in hc || BeforeDot(Upper(tags[i])) in hc)
  }

  /** `tags` holds the MitreTags of one detection of each critical or high rule. */
  function HcRules(tags: map<string, seq<string>>, hc: set<string>): set<string> {
    set r | r in tags && r != "" && TagsAreHighConfidence(tags[r], hc)
  }

  // ------------------------------------------------------------- which rules count

  const AMBIENT_MIN_PCS := 8

  /** max(2, ceil(0.8 * pcs)). */
  function Need(pcs: nat): nat { var c := (4 * pcs + 4) / 5; if c < 2 then 2 else c }

  function TotalPcs(perComp: set<string>, rows: nat): nat { if perComp == {} then rows else |perComp| }

  /** Everything the score of a computer is computed from, apart from its own feedback and dates. */
  datatype Fleet = Fleet(hits: seq<Hit>, rows: nat, tags: map<string, seq<string>>, hc: set<string>,
                         exclIds: set<string>, exclTerms: seq<string>)

  function Ambient(f: Fleet): set<string> {
    var pcs := TotalPcs(Pcs(f.hits), f.rows);
    if pcs < AMBIENT_MIN_PCS then {}
    else set r | r in Rules(f.hits) && |PcsOf(f.hits, r)| >= Need(pcs) && r !in HcRules(f.tags, f.hc)
  }

  predicate Excluded(f: Fleet, rule: string) {
    || Lower(rule) in f.exclIds
    || exists i :: 0 <= i < |f.exclTerms| && Contains(Lower(TitleOf(f.hits, rule)), f.exclTerms[i])
  }

  predicate Keep(f: Fleet, rule: string, allowAmbient: bool) {
    !(allowAmbient && rule in Ambient(f)) && !Excluded(f, rule)
  }

  predicate KeepHigh(f: Fleet, rule: string) {
    var known := rule in HcRules(f.tags, f.hc);
    Keep(f, rule, !known)
  }

  function CriticalKept(f: Fleet, comp: string): set<string> {
    set r | r in RulesOf(f.hits, comp, Critical) && Keep(f, r, false)
  }

  function HighKept(f: Fleet, comp: string): set<string> {
    set r | r in RulesOf(f.hits, comp, High) && KeepHigh(f, r)
  }

  datatype Counts = Counts(critical: nat, high: nat, criticalHc: nat, highHc: nat)

  function CountsOf(f: Fleet, comp: string): Counts {
    var hc := HcRules(f.tags, f.hc);
    Counts(|CriticalKept(f, comp)|, |HighKept(f, comp)|, |CriticalKept(f, comp) * hc|, |HighKept(f, comp) * hc|)
  }

  // ------------------------------------------------------------- the score

  function Min(a: real, b: real): real { if a < b then a else b }

  function Max(a: real, b: real): real { if a < b then b else a }

  function Points(c: Counts): real {
    var criticalHc := if c.criticalHc < c.critical then c.criticalHc else c.critical;
    var highHc := if c.highHc < c.high then c.highHc else c.high;
    (c.critical - criticalHc) as real * 30.0 + criticalHc as real * 45.0
    + (c.high - highHc) as real * 12.0 + highHc as real * 20.0
  }

  function TpFactor(tp: nat, fp: nat): real {
    Max(0.2, 1.0 + Min(tp as real * 0.05, 1.0) - Min(fp as real * 0.05, 0.8))
  }

  /** None stands for a missing or unreadable last-seen time. */
  function Recency(ageDays: Option<int>): real {
    match ageDays
    case None => 1.0
    case Some(d) => if d <= 1 then 1.5 else if d <= 7 then 1.2 else if d > 60 then 0.7 else 1.0
  }

  /** round(x, 1): the nearest tenth, halves to the even one. */
  function Tenths(x: real): int {
    var t := x * 10.0;
    var low := t.Floor;
    var rest := t - low as real;
    if rest < 0.5 || (rest == 0.5 && low % 2 == 0) then low else low + 1
  }

  function RiskScore(c: Counts, tp: nat, fp: nat, ageDays: Option<int>): real {
    Tenths(Clipped(Points(c), TpFactor(tp, fp), Recency(ageDays))) as real / 10.0
  }

  function Score(f: Fleet, comp: string, tp: nat, fp: nat, ageDays: Option<int>): real {
    RiskScore(CountsOf(f, comp), tp, fp, ageDays)
  }

  lemma TenthsMonotone(x: real, y: real)
    requires x <= y
    ensures Tenths(x) <= Tenths(y)
  {
  }

  lemma ProductMonotone(a: real, b: real, c: real, d: real)
    requires 0.0 <= a <= b && 0.0 <= c <= d
    ensures 0.0 <= a * c <= b * d
  {
    assert a * c <= b * c <= b * d;
  }

  function Clip(x: real): real { Min(100.0, Max(0.0, x)) }

  function Clipped(points: real, tpFactor: real, recency: real): real { Clip(points * tpFactor * recency) }

  lemma ClipMonotone(x: real, y: real)
    requires x <= y
    ensures Tenths(Clip(x)) <= Tenths(Clip(y))
  {
    TenthsMonotone(Clip(x), Clip(y));
  }

  lemma ClippedMonotone(p: real, q: real, t: real, u: real, r: real, s: real)
    requires 0.0 <= p <= q && 0.0 <= t <= u && 0.0 <= r <= s
    ensures Tenths(Clipped(p, t, r)) <= Tenths(Clipped(q, u, s))
  {
    ProductMonotone(p, q, t, u);
    ProductMonotone(p * t, q * u, r, s);
    ClipMonotone(p * t * r, q * u * s);
  }

  ghost predicate ProperCounts(c: Counts) { c.criticalHc <= c.critical && c.highHc <= c.high }

  lemma PointsMonotone(c: Counts, d: Counts)
    requires ProperCounts(c) && ProperCounts(d)
    requires c.critical <= d.critical && c.high <= d.high && c.criticalHc <= d.criticalHc && c.highHc <= d.highHc
    ensures 0.0 <= Points(c) <= Points(d)
  {
    PointsForm(c);
    PointsForm(d);
  }

  /** What one rule is worth: 30 or 12 points, and 15 or 8 more if it is a high-confidence one. */
  lemma PointsForm(c: Counts)
    requires ProperCounts(c)
    ensures Points(c) == (30 * c.critical + 15 * c.criticalHc + 12 * c.high + 8 * c.highHc) as real
  {
    assert (c.critical - c.criticalHc) as real * 30.0 == (30 * (c.critical - c.criticalHc)) as real;
    assert c.criticalHc as real * 45.0 == (45 * c.criticalHc) as real;
    assert (c.high - c.highHc) as real * 12.0 == (12 * (c.high - c.highHc)) as real;
    assert c.highHc as real * 20.0 == (20 * c.highHc) as real;
  }

  lemma TpFactorMonotone(tp: nat, tp': nat, fp: nat, fp': nat)
    requires tp <= tp' && fp' <= fp
    ensures 0.2 <= TpFactor(tp, fp) <= TpFactor(tp', fp')
  {
    assert tp as real * 0.05 <= tp' as real * 0.05;
    assert fp' as real * 0.05 <= fp as real * 0.05;
  }

  /** Whether `b` is seen at least as recently; an unreadable time only compares with itself. */
  predicate NoOlder(a: Option<int>, b: Option<int>) {
    a == b || (a.Some? && b.Some? && b.value <= a.value)
  }

  /**
   No count, no confirmed hit and no fresher sighting ever lowers a score, and a
   false positive never raises it.
   */
  lemma RiskScoreMonotone(c: Counts, d: Counts, tp: nat, tp': nat, fp: nat, fp': nat, age: Option<int>,
                          age': Option<int>)
    requires ProperCounts(c) && ProperCounts(d)
    requires c.critical <= d.critical && c.high <= d.high && c.criticalHc <= d.criticalHc && c.highHc <= d.highHc
    requires tp <= tp' && fp' <= fp && NoOlder(age, age')
    ensures RiskScore(c, tp, fp, age) <= RiskScore(d, tp', fp', age')
  {
    PointsMonotone(c, d);
    TpFactorMonotone(tp, tp', fp, fp');
    ClippedMonotone(Points(c), Points(d), TpFactor(tp, fp), TpFactor(tp', fp'), Recency(age), Recency(age'));
    Divide(Tenths(Clipped(Points(c), TpFactor(tp, fp), Recency(age))),
           Tenths(Clipped(Points(d), TpFactor(tp', fp'), Recency(age'))));
  }

  lemma Divide(a: int, b: int)
    requires a <= b
    ensures a as real / 10.0 <= b as real / 10.0
  {
  }

  lemma CountsAreProper(f: Fleet, comp: string)
    ensures ProperCounts(CountsOf(f, comp))
  {
    var hc := HcRules(f.tags, f.hc);
    SubsetSize(CriticalKept(f, comp) * hc, CriticalKept(f, comp));
    SubsetSize(HighKept(f, comp) * hc, HighKept(f, comp));
  }

  /** Whether a critical or high rule of the computer survives the discounts. */
  predicate Survives(f: Fleet, comp: string) { CriticalKept(f, comp) != {} || HighKept(f, comp) != {} }

  /** The smallest score of a computer with one counting rule is 1.7. */
  lemma ClippedBounds(p: real, t: real, r: real)
    requires p == 0.0 || p >= 12.0
    requires 0.2 <= t && 0.7 <= r
    ensures 0 <= Tenths(Clipped(p, t, r)) <= 1000
    ensures p == 0.0 ==> Tenths(Clipped(p, t, r)) == 0
    ensures p >= 12.0 ==> Tenths(Clipped(p, t, r)) >= 17
  {
    if p == 0.0 {
      assert p * t == 0.0;
      assert p * t * r == 0.0;
    } else {
      ClippedMonotone(12.0, p, 0.2, t, 0.7, r);
      TenthsMonotone(Clipped(p, t, r), 100.0);
      assert Clipped(12.0, 0.2, 0.7) == 1.68;
      assert Tenths(1.68) == 17;
    }
  }

  lemma ScoreBounds(f: Fleet, comp: string, tp: nat, fp: nat, ageDays: Option<int>)
    ensures 0.0 <= Score(f, comp, tp, fp, ageDays) <= 100.0
    ensures Score(f, comp, tp, fp, ageDays) == 0.0 <==> !Survives(f, comp)
  {
    var c := CountsOf(f, comp);
    CountsAreProper(f, comp);
    PointsForm(c);
    TpFactorMonotone(tp, tp, fp, fp);
    ClippedBounds(Points(c), TpFactor(tp, fp), Recency(ageDays));
  }

  // ------------------------------------------------------------- the two lists

  lemma HcRulesGrow(tags: map<string, seq<string>>, hc: set<string>, hc': set<string>)
    requires hc <= hc'
    ensures HcRules(tags, hc) <= HcRules(tags, hc')
  {
  }

  /** A longer high-confidence list takes rules out of the ambient discount and raises weights: it costs no points. */
  lemma HighConfidenceNeverLowers(f: Fleet, hc': set<string>, comp: string, tp: nat, fp: nat, ageDays: Option<int>)
    requires f.hc <= hc'
    ensures Score(f, comp, tp, fp, ageDays) <= Score(f.(hc := hc'), comp, tp, fp, ageDays)
  {
    var g := f.(hc := hc');
    HcRulesGrow(f.tags, f.hc, hc');
    assert Ambient(g) <= Ambient(f);
    assert CriticalKept(f, comp) == CriticalKept(g, comp);
    assert HighKept(f, comp) <= HighKept(g, comp);
    MoreCountsMoreScore(f, g, comp, tp, fp, ageDays);
  }

  lemma MoreCountsMoreScore(f: Fleet, g: Fleet, comp: string, tp: nat, fp: nat, ageDays: Option<int>)
    requires CriticalKept(f, comp) <= CriticalKept(g, comp) && HighKept(f, comp) <= HighKept(g, comp)
    requires HcRules(f.tags, f.hc) <= HcRules(g.tags, g.hc)
    ensures Score(f, comp, tp, fp, ageDays) <= Score(g, comp, tp, fp, ageDays)
  {
    var x, y := HcRules(f.tags, f.hc), HcRules(g.tags, g.hc);
    SubsetSize(CriticalKept(f, comp), CriticalKept(g, comp));
    SubsetSize(HighKept(f, comp), HighKept(g, comp));
    SubsetSize(CriticalKept(f, comp) * x, CriticalKept(g, comp) * y);
    SubsetSize(HighKept(f, comp) * x, HighKept(g, comp) * y);
    CountsAreProper(f, comp);
    CountsAreProper(g, comp);
    RiskScoreMonotone(CountsOf(f, comp), CountsOf(g, comp), tp, tp, fp, fp, ageDays, ageDays);
  }

  /** A longer exclude list never raises a score. */
  lemma ExcludingNeverRaises(f: Fleet, ids: set<string>, terms: seq<string>, comp: string, tp: nat, fp: nat,
                             ageDays: Option<int>)
    requires f.exclIds <= ids && forall t :: t in f.exclTerms ==> t in terms
    ensures Score(f.(exclIds := ids, exclTerms := terms), comp, tp, fp, ageDays) <= Score(f, comp, tp, fp, ageDays)
  {
    var g := f.(exclIds := ids, exclTerms := terms);
    forall r | Excluded(f, r) ensures Excluded(g, r) {
      if Lower(r) !in f.exclIds {
        var i :| 0 <= i < |f.exclTerms| && Contains(Lower(TitleOf(f.hits, r)), f.exclTerms[i]);
        assert f.exclTerms[i] in terms;
      }
    }
    assert Ambient(g) == Ambient(f);
    MoreCountsMoreScore(g, f, comp, tp, fp, ageDays);
  }

  /** The discount never touches a critical or high-confidence rule, and no rule at all below eight computers. */
  lemma DiscountSpares(f: Fleet, comp: string, rule: string)
    requires rule in RulesOf(f.hits, comp, Critical) + RulesOf(f.hits, comp, High) && !Excluded(f, rule)
    ensures rule in RulesOf(f.hits, comp, Critical) ==> rule in CriticalKept(f, comp)
    ensures rule in HcRules(f.tags, f.hc) ==> rule in CriticalKept(f, comp) + HighKept(f, comp)
    ensures |Pcs(f.hits)| < AMBIENT_MIN_PCS ==> rule in CriticalKept(f, comp) + HighKept(f, comp)
    ensures rule !in CriticalKept(f, comp) + HighKept(f, comp) ==>
              |PcsOf(f.hits, rule)| >= 7 && 5 * |PcsOf(f.hits, rule)| >= 4 * |Pcs(f.hits)|
  {
    RulesMean(f.hits, comp, Critical, rule);
    RulesMean(f.hits, comp, High, rule);
    PcsMean(f.hits, comp, rule);
  }

  // ------------------------------------------------------------- which rules count, exactly

  /** The rule fired at this severity on this computer. */
  predicate FiredAt(hits: seq<Hit>, comp: string, level: Level, rule: string) {
    && rule != ""
    && exists i :: 0 <= i < |hits| && hits[i].ruleId == rule && hits[i].level == level
                   && NameOf(hits[i].computer) == comp
  }

  /** A technique of the rule is on the list, in full or, before its first dot, as the base technique. */
  ghost predicate HighConfidenceRule(f: Fleet, rule: string) {
    && rule != "" && rule in f.tags
    && exists i :: 0 <= i < |f.tags[rule]| && f.tags[rule][i] != "" && TechniqueListed(Upper(f.tags[rule][i]), f.hc)
  }

  ghost predicate TechniqueListed(technique: string, hc: set<string>) {
    technique in hc || exists base, sub :: base in hc && '.' !in base && technique == base + "." + sub
  }

  /** The title in the last row of the rule, in lower case, contains a listed term, or the id is listed. */
  predicate OnExcludeList(f: Fleet, rule: string) {
    || Lower(rule) in f.exclIds
    || exists i, n :: 0 <= i < |f.hits| && 0 <= n < |f.exclTerms| && IsLastRow(f.hits, rule, i)
                      && Contains(Lower(OrBlank(f.hits[i].title)), f.exclTerms[n])
  }

  predicate IsLastRow(hits: seq<Hit>, rule: string, i: nat) {
    i < |hits| && hits[i].ruleId == rule && forall j :: i < j < |hits| ==> hits[j].ruleId != rule
  }

  lemma {:induction false} TitleIsLast(hits: seq<Hit>, rule: string) returns (i: nat)
    requires exists k :: 0 <= k < |hits| && hits[k].ruleId == rule
    ensures IsLastRow(hits, rule, i) && TitleOf(hits, rule) == OrBlank(hits[i].title)
  {
    if hits[|hits| - 1].ruleId == rule {
      i := |hits| - 1;
    } else {
      i := TitleIsLast(hits[..|hits| - 1], rule);
    }
  }

  lemma OneLastRow(hits: seq<Hit>, rule: string, i: nat, j: nat)
    requires IsLastRow(hits, rule, i) && IsLastRow(hits, rule, j)
    ensures i == j
  {
  }

  lemma {:induction false} BeforeDotIs(technique: string)
    ensures '.' !in BeforeDot(technique)
    ensures BeforeDot(technique) == technique || BeforeDot(technique) + "." <= technique
  {
    if technique != "" && technique[0] != '.' {
      BeforeDotIs(technique[1..]);
      assert technique == [technique[0]] + technique[1..];
      var rest := BeforeDot(technique[1..]);
      if rest != technique[1..] { assert [technique[0]] + (rest + ".") == BeforeDot(technique) + "."; }
    }
  }

  lemma {:induction false} BeforeDotOf(base: string, sub: string)
    requires '.' !in base
    ensures BeforeDot(base + "." + sub) == base
  {
    var t := base + "." + sub;
    if base != "" {
      BeforeDotOf(base[1..], sub);
      assert t[1..] == base[1..] + "." + sub && base == [base[0]] + base[1..];
    }
  }

  lemma TechniqueListedIff(technique: string, hc: set<string>)
    ensures technique in hc || BeforeDot(technique) in hc <==> TechniqueListed(technique, hc)
  {
    BeforeDotIs(technique);
    var b := BeforeDot(technique);
    if b in hc && b != technique {
      assert technique == b + "." + technique[|b| + 1..];
    }
    forall base, sub | base in hc && '.' !in base && technique == base + "." + sub ensures BeforeDot(technique) in hc {
      BeforeDotOf(base, sub);
    }
  }

  lemma HcRuleIff(f: Fleet, rule: string)
    ensures rule in HcRules(f.tags, f.hc) <==> HighConfidenceRule(f, rule)
  {
    if rule in f.tags {
      forall i | 0 <= i < |f.tags[rule]|
        ensures TechniqueListed(Upper(f.tags[rule][i]), f.hc) <==>
                Upper(f.tags[rule][i]) in f.hc || BeforeDot(Upper(f.tags[rule][i])) in f.hc
      {
        TechniqueListedIff(Upper(f.tags[rule][i]), f.hc);
      }
    }
  }

  lemma ExcludedIff(f: Fleet, rule: string)
    requires exists k :: 0 <= k < |f.hits| && f.hits[k].ruleId == rule
    ensures Excluded(f, rule) <==> OnExcludeList(f, rule)
  {
    var last := TitleIsLast(f.hits, rule);
    forall i | IsLastRow(f.hits, rule, i) ensures i == last { OneLastRow(f.hits, rule, i, last); }
  }

  /**
   A critical rule counts exactly when it fired there and is not on the exclude list.  A
   high rule must besides be a high-confidence one, or fewer than eight computers had any
   such hit, or it fired on less than four fifths of them.
   */
  lemma KeptIff(f: Fleet, comp: string, rule: string)
    ensures rule in CriticalKept(f, comp) <==> FiredAt(f.hits, comp, Critical, rule) && !OnExcludeList(f, rule)
    ensures rule in HighKept(f, comp) <==>
              && FiredAt(f.hits, comp, High, rule) && !OnExcludeList(f, rule)
              && (HighConfidenceRule(f, rule) || |Pcs(f.hits)| < 8 || 5 * |PcsOf(f.hits, rule)| < 4 * |Pcs(f.hits)|)
  {
    RulesMean(f.hits, comp, Critical, rule);
    RulesMean(f.hits, comp, High, rule);
    PcsMean(f.hits, comp, rule);
    HcRuleIff(f, rule);
    if FiredAt(f.hits, comp, Critical, rule) || FiredAt(f.hits, comp, High, rule) {
      ExcludedIff(f, rule);
      assert comp in Pcs(f.hits);
    }
  }

  lemma PointsInNumbers()
    ensures Points(Counts(1, 0, 0, 0)) == 30.0 && Points(Counts(1, 0, 1, 0)) == 45.0
    ensures Points(Counts(0, 1, 0, 0)) == 12.0 && Points(Counts(0, 1, 0, 1)) == 20.0
    ensures Points(Counts(4, 0, 0, 0)) == 120.0
  {
  }

  lemma FactorsInNumbers()
    ensures TpFactor(0, 0) == 1.0 && TpFactor(1, 0) == 1.05 && TpFactor(20, 0) == TpFactor(99, 0) == 2.0
    ensures TpFactor(0, 1) == 0.95 && TpFactor(0, 16) == TpFactor(0, 99) == 0.2
    ensures Recency(None) == 1.0 && Recency(Some(1)) == 1.5 && Recency(Some(2)) == Recency(Some(7)) == 1.2
    ensures Recency(Some(8)) == Recency(Some(60)) == 1.0 && Recency(Some(61)) == 0.7
  {
  }

  lemma RoundingInNumbers()
    ensures Tenths(30.0) == 300 && Tenths(45.0) == 450 && Tenths(12.6) == 126 && Tenths(2.4) == 24 && Tenths(8.4) == 84
    ensures Tenths(0.25) == 2 && Tenths(0.75) == 8 && Tenths(0.26) == 3 && Clip(120.0) == 100.0 && Clip(-1.0) == 0.0
  {
  }

  lemma ClippedIs(p: real, t: real, r: real, x: real, tenths: int)
    requires p * t * r == x && Tenths(Clip(x)) == tenths
    ensures Tenths(Clipped(p, t, r)) == tenths
  {
  }

  lemma ScoreIs(c: Counts, tp: nat, fp: nat, ageDays: Option<int>, x: real, tenths: int)
    requires Points(c) * TpFactor(tp, fp) * Recency(ageDays) == x && Tenths(Clip(x)) == tenths
    ensures RiskScore(c, tp, fp, ageDays) == tenths as real / 10.0
  {
    ClippedIs(Points(c), TpFactor(tp, fp), Recency(ageDays), x, tenths);
  }

  /** What a score is made of, in numbers. */
  lemma ScoresInNumbers()
    ensures RiskScore(Counts(1, 0, 0, 0), 0, 0, None) == 30.0 && RiskScore(Counts(1, 0, 1, 0), 0, 0, None) == 45.0
    ensures RiskScore(Counts(0, 1, 0, 0), 0, 0, Some(8)) == 12.0 && RiskScore(Counts(0, 1, 0, 1), 0, 0, None) == 20.0
    ensures RiskScore(Counts(0, 1, 0, 0), 1, 0, None) == 12.6 && RiskScore(Counts(0, 1, 0, 0), 0, 99, None) == 2.4
    ensures RiskScore(Counts(1, 0, 0, 0), 0, 0, Some(1)) == 45.0 && RiskScore(Counts(1, 0, 0, 0), 0, 0, Some(7)) == 36.0
    ensures RiskScore(Counts(1, 0, 0, 0), 0, 0, Some(61)) == 21.0 && RiskScore(Counts(4, 0, 0, 0), 0, 0, None) == 100.0
  {
    PointsInNumbers();
    FactorsInNumbers();
    RoundingInNumbers();
    ScoreIs(Counts(1, 0, 0, 0), 0, 0, None, 30.0, 300);
    ScoreIs(Counts(1, 0, 1, 0), 0, 0, None, 45.0, 450);
    ScoreIs(Counts(0, 1, 0, 0), 0, 0, Some(8), 12.0, 120);
    ScoreIs(Counts(0, 1, 0, 1), 0, 0, None, 20.0, 200);
    ScoreIs(Counts(0, 1, 0, 0), 1, 0, None, 12.6, 126);
    ScoreIs(Counts(0, 1, 0, 0), 0, 99, None, 2.4, 24);
    ScoreIs(Counts(1, 0, 0, 0), 0, 0, Some(1), 45.0, 450);
    ScoreIs(Counts(1, 0, 0, 0), 0, 0, Some(7), 36.0, 360);
    ScoreIs(Counts(1, 0, 0, 0), 0, 0, Some(61), 21.0, 210);
    ScoreIs(Counts(4, 0, 0, 0), 0, 0, None, 120.0, 1000);
  }

  // ------------------------------------------------------------- a rule that is noise

  /** A computer for each number: so many letters. */
  function Pc(n: nat): (name: string)
    ensures |name| == n + 1
  {
    if n == 0 then "c" else "c" + Pc(n - 1)
  }

  function FirstPcs(n: nat): set<string> { if n == 0 then {} else FirstPcs(n - 1) + {Pc(n - 1)} }

  lemma {:induction false} FirstPcsAre(n: nat)
    ensures |FirstPcs(n)| == n && forall c :: c in FirstPcs(n) ==> |c| <= n
  {
    if n > 0 {
      FirstPcsAre(n - 1);
      assert Pc(n - 1) !in FirstPcs(n - 1);
    }
  }

  /** The high rule "h" on each of the first `n` computers. */
  function Everywhere(n: nat): seq<Hit> {
    if n == 0 then [] else Everywhere(n - 1) + [Hit(Some(Pc(n - 1)), High, "h", None)]
  }

  lemma {:induction false} EverywherePcs(n: nat)
    ensures Pcs(Everywhere(n)) == PcsOf(Everywhere(n), "h") == FirstPcs(n)
  {
    if n > 0 {
      EverywherePcs(n - 1);
      assert Everywhere(n)[..|Everywhere(n)| - 1] == Everywhere(n - 1);
    }
  }

  lemma {:induction false} EverywhereIsHigh(n: nat)
    ensures |Everywhere(n)| == n
    ensures forall i :: 0 <= i < n ==> Everywhere(n)[i] == Hit(Some(Pc(i)), High, "h", None)
  {
    if n > 0 { EverywhereIsHigh(n - 1); }
  }

  /** Ten computers, the high rule on nine of them and a critical rule on the tenth; no lists and no verdicts. */
  function NoisyFleet(): Fleet {
    Fleet(Everywhere(9) + [Hit(Some(Pc(9)), Critical, "k", None)], 10, map[], {}, {}, [])
  }

  lemma NoisyPcs()
    ensures |Pcs(NoisyFleet().hits)| == 10 && |PcsOf(NoisyFleet().hits, "h")| == 9
  {
    var hits := NoisyFleet().hits;
    EverywherePcs(9);
    FirstPcsAre(9);
    FirstPcsAre(10);
    assert hits[..|hits| - 1] == Everywhere(9);
    assert Pcs(hits) == Pcs(Everywhere(9)) + {NameOf(Some(Pc(9)))} == FirstPcs(10);
    assert PcsOf(hits, "h") == PcsOf(Everywhere(9), "h");
  }

  lemma NoisyRows(i: nat)
    requires i < 10
    ensures var h := NoisyFleet().hits; |h| == 10 && h[i].computer == Some(Pc(i)) && NameOf(h[i].computer) == Pc(i)
    ensures NoisyFleet().hits[i].ruleId == if i < 9 then "h" else "k"
    ensures NoisyFleet().hits[i].level == if i < 9 then High else Critical
  {
    EverywhereIsHigh(9);
  }

  /** A fleet of that kind, by its rows and by the numbers of its computers. */
  predicate Noisy(f: Fleet) {
    && f.tags == map[] && f.exclIds == {} && f.exclTerms == []
    && |Pcs(f.hits)| == 10 && |PcsOf(f.hits, "h")| == 9 && |f.hits| == 10
    && forall i :: 0 <= i < 10 ==>
         && NameOf(f.hits[i].computer) == Pc(i)
         && f.hits[i].ruleId == (if i < 9 then "h" else "k") && f.hits[i].level == if i < 9 then High else Critical
  }

  lemma NoisyFleetIsNoisy()
    ensures Noisy(NoisyFleet())
  {
    NoisyPcs();
    forall i: nat | i < 10
      ensures var h := NoisyFleet().hits[i];
              && NameOf(h.computer) == Pc(i) && h.ruleId == (if i < 9 then "h" else "k")
              && h.level == if i < 9 then High else Critical
    {
      NoisyRows(i);
    }
  }

  lemma NoisyKept(f: Fleet, i: nat, rule: string)
    requires Noisy(f) && i < 10
    ensures rule !in HighKept(f, Pc(i))
    ensures rule in CriticalKept(f, Pc(i)) <==> i == 9 && rule == "k"
  {
    KeptIff(f, Pc(i), rule);
    assert forall n: nat :: n < 10 && Pc(n) == Pc(i) ==> n == i by {
      forall n: nat | n < 10 && Pc(n) == Pc(i) ensures n == i { assert |Pc(n)| == |Pc(i)|; }
    }
    assert NameOf(f.hits[9].computer) == Pc(9);
  }

  lemma NoisyCounts(f: Fleet, i: nat)
    requires Noisy(f) && i < 10
    ensures CountsOf(f, Pc(i)) == if i < 9 then Counts(0, 0, 0, 0) else Counts(1, 0, 0, 0)
  {
    forall r ensures r !in HighKept(f, Pc(i)) && (r in CriticalKept(f, Pc(i)) <==> i == 9 && r == "k") {
      NoisyKept(f, i, r);
    }
    assert HighKept(f, Pc(i)) == {} && CriticalKept(f, Pc(i)) == if i == 9 then {"k"} else {};
    assert HcRules(f.tags, f.hc) == {};
  }

  lemma QuietScores()
    ensures RiskScore(Counts(0, 0, 0, 0), 0, 0, Some(30)) == 0.0
    ensures RiskScore(Counts(1, 0, 0, 0), 0, 0, Some(30)) == 30.0
  {
    FactorsInNumbers();
    PointsInNumbers();
    RoundingInNumbers();
    assert Points(Counts(0, 0, 0, 0)) == 0.0 && Tenths(Clip(0.0)) == 0 && Recency(Some(30)) == 1.0;
    ScoreIs(Counts(0, 0, 0, 0), 0, 0, Some(30), 0.0, 0);
    ScoreIs(Counts(1, 0, 0, 0), 0, 0, Some(30), 30.0, 300);
  }

  /** The nine computers score nothing for it, the tenth its critical rule. */
  lemma NoiseScoresNothing(i: nat)
    requires i < 10
    ensures HostScore(NoisyFleet(), HostRow(Some(Pc(i)), 0, 0, Some(30))) == if i < 9 then 0.0 else 30.0
  {
    NoisyFleetIsNoisy();
    NoisyCounts(NoisyFleet(), i);
    QuietScores();
    assert NameOf(Some(Pc(i))) == Pc(i);
  }

  // ------------------------------------------------------------- ranking

  /** A row of the per-computer query. */
  datatype HostRow = HostRow(computer: Option<string>, tp: nat, fp: nat, ageDays: Option<int>)

  function HostScore(f: Fleet, host: HostRow): real {
    Score(f, NameOf(host.computer), host.tp, host.fp, host.ageDays)
  }

  method Ranking(hosts: seq<HostRow>, hits: seq<Hit>, tags: map<string, seq<string>>, hc: set<string>,
                 exclIds: set<string>, exclTerms: seq<string>)
    returns (scores: seq<real>)
    ensures |scores| == |hosts|
    ensures var f := Fleet(hits, |hosts|, tags, hc, exclIds, exclTerms);
            forall i :: 0 <= i < |hosts| ==> scores[i] == HostScore(f, hosts[i])
  {
    var perComp, rulePcs, titles := Collect(hits);
    var hcRules := HcRules(tags, hc);
    var ambient := AmbientRules(rulePcs, hcRules, TotalPcs(perComp.Keys, |hosts|));
    ghost var f := Fleet(hits, |hosts|, tags, hc, exclIds, exclTerms);
    AmbientRulesIs(f, rulePcs, perComp, titles);
    scores := [];
    for i := 0 to |hosts|
      invariant |scores| == i
      invariant forall j :: 0 <= j < i ==> scores[j] == HostScore(f, hosts[j])
    {
      ghost var comp := NameOf(hosts[i].computer);
      CountKeptIs(f, rulePcs, perComp, titles, comp);
      var score := ScoreOne(hosts[i], CountKept(perComp, titles, ambient, hcRules, exclIds, exclTerms,
                                                NameOf(hosts[i].computer)), f);
      scores := scores + [score];
    }
  }

  method ScoreOne(host: HostRow, counts: Counts, ghost f: Fleet) returns (score: real)
    requires counts == CountsOf(f, NameOf(host.computer))
    ensures score == HostScore(f, host)
  {
    score := RiskScore(counts, host.tp, host.fp, host.ageDays);
  }

  function AmbientRules(rulePcs: map<string, set<string>>, hcRules: set<string>, total: nat): set<string> {
    if total < AMBIENT_MIN_PCS then {} else set r | r in rulePcs && |rulePcs[r]| >= Need(total) && r !in hcRules
  }

  lemma AmbientRulesIs(f: Fleet, rulePcs: map<string, set<string>>, perComp: map<string, Sets>,
                       titles: map<string, string>)
    requires Collected(f.hits, perComp, rulePcs, titles)
    ensures AmbientRules(rulePcs, HcRules(f.tags, f.hc), TotalPcs(perComp.Keys, f.rows)) == Ambient(f)
  {
  }

  /** The exclude test on the collected titles. */
  predicate ExcludedBy(titles: map<string, string>, ids: set<string>, terms: seq<string>, rule: string) {
    var title := if rule in titles then titles[rule] else "";
    Lower(rule) in ids || exists i :: 0 <= i < |terms| && Contains(Lower(title), terms[i])
  }

  /** The counts of a computer read off the collected dictionaries. */
  function CountKept(perComp: map<string, Sets>, titles: map<string, string>, ambient: set<string>,
                     hcRules: set<string>, ids: set<string>, terms: seq<string>, comp: string): Counts
  {
    var sets := if comp in perComp then perComp[comp] else Sets({}, {});
    var crit := set r | r in sets.critical && !ExcludedBy(titles, ids, terms, r);
    var high := set r | r in sets.high && (r in hcRules || r !in ambient) && !ExcludedBy(titles, ids, terms, r);
    Counts(|crit|, |high|, |crit * hcRules|, |high * hcRules|)
  }

  lemma CountKeptIs(f: Fleet, rulePcs: map<string, set<string>>, perComp: map<string, Sets>,
                    titles: map<string, string>,
                    comp: string)
    requires Collected(f.hits, perComp, rulePcs, titles)
    ensures CountKept(perComp, titles, Ambient(f), HcRules(f.tags, f.hc), f.exclIds, f.exclTerms, comp)
         == CountsOf(f, comp)
  {
    NothingYet(f.hits, comp, "");
    var sets := if comp in perComp then perComp[comp] else Sets({}, {});
    assert sets == Sets(RulesOf(f.hits, comp, Critical), RulesOf(f.hits, comp, High));
    forall r | r != "" ensures ExcludedBy(titles, f.exclIds, f.exclTerms, r) == Excluded(f, r) {
      if r !in titles { UntitledRule(f.hits, r); }
    }
    var crit := set r | r in sets.critical && !ExcludedBy(titles, f.exclIds, f.exclTerms, r);
    assert crit == CriticalKept(f, comp);
    var high := set r | r in sets.high && (r in HcRules(f.tags, f.hc) || r !in Ambient(f))
                        && !ExcludedBy(titles, f.exclIds, f.exclTerms, r);
    assert high == HighKept(f, comp);
  }

  lemma {:induction false} UntitledRule(hits: seq<Hit>, rule: string)
    requires rule != "" && rule !in Rules(hits)
    ensures TitleOf(hits, rule) == ""
  {
    if hits != [] { UntitledRule(hits[..|hits| - 1], rule); }
  }
}
