/**
 Loading detection rules: the walk over a rule directory, the filter that decides
 about each document, and the counters that account for it.
 */
module RuleLoading {
  import opened Wrappers
  import opened Strings
  import opened Counting
  import opened Sequences
  import opened Yaml
  import E = YamlExpand

  // ------------------------------------------------------------- options

  datatype Output = Output(enableNoisy: bool, enableDeprecated: bool, enableUnsupported: bool,
                           includeCategory: seq<string>, excludeCategory: seq<string>,
                           includeTag: Option<seq<string>>, excludeTag: Option<seq<string>>)

  /** `excludeIds` maps a rule id to the name of the file that lists it. */
  datatype Options = Options(excludeIds: map<string, string>, targetIds: set<string>, minLevel: string,
                             targetLevel: string, includeStatus: set<string>, excludeStatus: set<string>,
                             timeline: bool, output: Option<Output>, placeholders: seq<E.Entry>,
                             isDate: string -> bool)

  function ZeroId(): string { "00000000-0000-0000-0000-000000000000" }

  function EnableNoisy(o: Options): bool { o.output.Some? && o.output.value.enableNoisy }

  // ------------------------------------------------------------- reading a document

  function AsText(y: Option<Yaml>): Option<string> {
    match y
    case Some(Text(s)) => Some(s)
    case _ => None
  }

  function TextOr(y: Option<Yaml>, fallback: string): string {
    match AsText(y) case Some(s) => s case None => fallback
  }

  function Field(doc: Yaml, key: string): Option<string> { AsText(Lookup(doc, key)) }

  function LevelIndex(level: string): nat {
    match Lower(level)
    case "informational" => 1
    case "low" => 2
    case "medium" => 3
    case "high" => 4
    case "critical" => 5
    case "emergency" => 6
    case _ => 0
  }

  function LevelOf(doc: Yaml): nat { LevelIndex(TextOr(Lookup(doc, "level"), "informational")) }

  predicate IsLevel(s: string) {
    s == "informational" || s == "low" || s == "medium" || s == "high" || s == "critical"
  }

  predicate IsStatus(s: string) {
    s == "stable" || s == "test" || s == "experimental" || s == "deprecated" || s == "unsupported"
  }

  function RequiredKeys(doc: Yaml): seq<string> {
    var correlation := Lookup(doc, "correlation");
    if correlation.Some? && correlation.value.Hash? then ["author", "title", "level", "status", "date", "id"]
    else ["author", "title", "logsource", "detection", "level", "status", "date", "id"]
  }

  predicate ValidField(doc: Yaml, key: string, isDate: string -> bool) {
    var value := TextOr(Lookup(doc, key), "");
    && Lookup(doc, key).Some?
    && (key == "level" ==> IsLevel(value))
    && (key == "status" ==> IsStatus(value))
    && (key == "date" ==> isDate(value))
  }

  /** `check_hayabusa_rule_fmt` finds no error. */
  predicate WellFormatted(doc: Yaml, isDate: string -> bool) {
    forall i :: 0 <= i < |RequiredKeys(doc)| ==> ValidField(doc, RequiredKeys(doc)[i], isDate)
  }

  function TagsOf(doc: Yaml): Option<seq<Yaml>> {
    match Lookup(doc, "tags")
    case Some(Array(items)) => Some(items)
    case _ => None
  }

  predicate SomeTagIn(tags: seq<Yaml>, wanted: seq<string>) {
    exists i :: 0 <= i < |tags| && TextOr(Some(tags[i]), "") in wanted
  }

  function CategoryOf(doc: Yaml): string {
    match Lookup(doc, "logsource")
    case Some(source) => TextOr(Lookup(source, "category"), "")
    case None => ""
  }

  // ------------------------------------------------------------- the verdict on a document

  /** What the filter does with a document; every case charges its own counter. */
  datatype Outcome =
    | Unexpanded
    | Listed(listing: Listing)
    | Excluded
    | Malformed
    | StatusOnly(status: string)
    | Loaded(ruleType: string, status: string)

  predicate LevelRefused(doc: Yaml, minLevel: string, targetLevel: string) {
    var level, wanted := LevelOf(doc), LevelIndex(targetLevel);
    level < LevelIndex(minLevel) || (wanted != 0 && level != wanted)
  }

  predicate StatusRefused(doc: Yaml, allowed: set<string>, exclude: set<string>, timeline: bool) {
    match Field(doc, "status")
    case Some(s) => s in exclude || !("*" in allowed || s in allowed)
    case None => "*" !in allowed && timeline
  }

  predicate StatusOnlyCounted(doc: Yaml, output: Option<Output>) {
    match Field(doc, "status")
    case Some(s) =>
      output.Some? && ((s == "deprecated" && !output.value.enableDeprecated)
                       || (s == "unsupported" && !output.value.enableUnsupported))
    case None => false
  }

  predicate OutputRefused(doc: Yaml, output: Option<Output>) {
    match output
    case None => false
    case Some(out) =>
      var category := CategoryOf(doc);
      || (out.includeCategory != [] && category !in out.includeCategory)
      || (out.excludeCategory != [] && category in out.excludeCategory)
      || (out.includeTag.Some? && (TagsOf(doc) == None || !SomeTagIn(TagsOf(doc).value, out.includeTag.value)))
      || (out.excludeTag.Some? && TagsOf(doc).Some? && SomeTagIn(TagsOf(doc).value, out.excludeTag.value))
  }

  /** The list file that names the document's id. */
  function ListOf(doc: Yaml, lists: map<string, string>): Option<string> {
    match Field(doc, "id")
    case Some(id) => if id in lists then Some(lists[id]) else None
    case None => None
  }

  predicate NotTargeted(doc: Yaml, targets: set<string>) {
    match Field(doc, "id")
    case Some(id) => targets != {} && id !in targets
    case None => false
  }

  /** What an id list says about a document; `counted` is false only for a list named like the zero id. */
  datatype Listing = Listing(noisy: bool, counted: bool)

  function ListingOf(doc: Yaml, lists: map<string, string>): Option<Listing> {
    match ListOf(doc, lists)
    case None => None
    case Some(list) => Some(Listing(!Contains(list, "exclude_rule"), list != ZeroId()))
  }

  /** What the filter looks at, for a document whose placeholders are expanded. */
  datatype Facts = Facts(listing: Option<Listing>, enableNoisy: bool, notTargeted: bool, wellFormatted: bool,
                         levelRefused: bool, statusRefused: bool, statusOnly: bool, outputRefused: bool,
                         ruleType: string, status: string)

  function FactsOf(doc: Yaml, o: Options): Facts {
    Facts(ListingOf(doc, o.excludeIds), EnableNoisy(o), NotTargeted(doc, o.targetIds), WellFormatted(doc, o.isDate),
          LevelRefused(doc, o.minLevel, o.targetLevel),
          StatusRefused(doc, o.includeStatus, o.excludeStatus, o.timeline), StatusOnlyCounted(doc, o.output),
          OutputRefused(doc, o.output), TextOr(Lookup(doc, "ruletype"), "Other"),
          TextOr(Lookup(doc, "status"), "undefined"))
  }

  function DecideUnlisted(f: Facts): Outcome {
    if f.notTargeted then Excluded
    else if !f.wellFormatted then Malformed
    else if f.levelRefused || f.statusRefused then Excluded
    else if f.statusOnly then StatusOnly(f.status)
    else if f.outputRefused then Excluded
    else Loaded(f.ruleType, f.status)
  }

  function Decide(f: Facts, expandFailed: bool): Outcome {
    if expandFailed then Unexpanded
    else if f.listing.Some? && !(f.listing.value.noisy && f.enableNoisy) then Listed(f.listing.value)
    else DecideUnlisted(f)
  }

  /** Everything the counters depend on; the noisy counter also counts documents that go on. */
  datatype Note = Note(found: bool, enabled: bool, noisy: bool, outcome: Outcome)

  function NoteFor(f: Facts, found: bool, enabled: bool): Note {
    var failed := found && !enabled;
    Note(found, enabled, !failed && f.listing == Some(Listing(true, true)), Decide(f, failed))
  }

  function NoteOf(raw: Yaml, o: Options): Note {
    NoteFor(FactsOf(E.Expand(raw, o.placeholders), o), E.HasExpand(raw), E.Enables(raw, o.placeholders))
  }

  // ------------------------------------------------------------- counters

  /** `excluded` and `noisy` are the two entries of `rule_load_cnt`. */
  datatype Counters = Counters(rules: map<string, nat>, excluded: nat, noisy: nat, status: map<string, nat>,
                               expand: nat, expandEnabled: nat, errors: nat)

  function NoCounts(): Counters {
    Counters(map[], 0, 0, map["deprecated" := 0, "unsupported" := 0], 0, 0, 0)
  }

  function One(b: bool): nat { if b then 1 else 0 }

  /** Charged to "excluded": by a list, or by one of the later tests. */
  predicate ChargedExcluded(x: Outcome) {
    x.Excluded? || (x.Listed? && !x.listing.noisy && x.listing.counted)
  }

  function ChargeOutcome(c: Counters, x: Outcome): Counters {
    c.(rules := if x.Loaded? then Bump(c.rules, x.ruleType) else c.rules,
       excluded := c.excluded + One(ChargedExcluded(x)),
       status := if x.Loaded? || x.StatusOnly? then Bump(c.status, x.status) else c.status,
       errors := c.errors + One(x.Malformed?))
  }

  function Charge(c: Counters, n: Note): Counters {
    ChargeOutcome(c.(noisy := c.noisy + One(n.noisy), expand := c.expand + One(n.found),
                     expandEnabled := c.expandEnabled + One(n.found && n.enabled)), n.outcome)
  }

  function ChargeAll(c: Counters, notes: seq<Note>): Counters {
    if notes == [] then c else Charge(ChargeAll(c, notes[..|notes| - 1]), notes[|notes| - 1])
  }

  datatype Doc = Doc(path: string, yaml: Yaml)

  /** The filter's answer for one document: its note, and the document if it is loaded. */
  function Kept(doc: Doc, o: Options): seq<Doc> {
    if NoteOf(doc.yaml, o).outcome.Loaded? then [Doc(doc.path, E.Expand(doc.yaml, o.placeholders))] else []
  }

  function NoteBy(o: Options): Doc -> Note { (d: Doc) => NoteOf(d.yaml, o) }

  function KeptBy(o: Options): Doc -> seq<Doc> { (d: Doc) => Kept(d, o) }

  function Notes(docs: seq<Doc>, o: Options): seq<Note> { Map(docs, NoteBy(o)) }

  /** The documents that are loaded, in order and expanded. */
  function LoadedDocs(docs: seq<Doc>, o: Options): seq<Doc> { FlatMap(docs, KeptBy(o)) }

  // ------------------------------------------------------------- the rule directory

  datatype Content = Unreadable | Unparsable | Docs(docs: seq<Yaml>)

  /** `Special` is neither a directory nor a regular file. */
  datatype Entry = Dir(entries: seq<Entry>) | File(path: string, extension: string, content: Content) | Special

  predicate Ignored(path: string) {
    || Contains(path, "/.git/") || Contains(path, "\\.git\\")
    || Contains(path, "rules/tools/sigmac/test_files") || Contains(path, "rules\\tools\\sigmac\\test_files")
  }

  predicate Taken(e: Entry) { e.File? && e.extension == "yml" && !Ignored(e.path) }

  /** Only files with the extension yml are read, and none below a git directory or the test files of sigmac. */
  lemma TakenIff(e: Entry)
    ensures Taken(e) <==>
            && e.File? && e.extension == "yml"
            && !Within(e.path, "/.git/") && !Within(e.path, "\\.git\\")
            && !Within(e.path, "rules/tools/sigmac/test_files") && !Within(e.path, "rules\\tools\\sigmac\\test_files")
  {
    if e.File? {
      ContainsIff(e.path, "/.git/");
      ContainsIff(e.path, "\\.git\\");
      ContainsIff(e.path, "rules/tools/sigmac/test_files");
      ContainsIff(e.path, "rules\\tools\\sigmac\\test_files");
    }
  }

  predicate Within(path: string, part: string) { exists i :: 0 <= i <= |path| && part <= path[i..] }

  function Numbered(path: string, docs: seq<Yaml>): seq<Doc> {
    if docs == [] then [] else Numbered(path, docs[..|docs| - 1]) + [Doc(path, docs[|docs| - 1])]
  }

  /** The documents of the files directly in a directory. */
  function OwnDocs(entries: seq<Entry>): seq<Doc> {
    if entries == [] then []
    else
      var before, e := OwnDocs(entries[..|entries| - 1]), entries[|entries| - 1];
      if Taken(e) && e.content.Docs? then before + Numbered(e.path, e.content.docs) else before
  }

  /** Documents in the order they are filtered: every subdirectory first, then the directory's own files. */
  function AllDocs(entries: seq<Entry>): seq<Doc>
    decreases entries, 1
  {
    SubDocs(entries) + OwnDocs(entries)
  }

  function SubDocs(entries: seq<Entry>): seq<Doc>
    decreases entries, 0
  {
    if entries == [] then []
    else SubDocs(entries[..|entries| - 1]) + EntryDocs(entries[|entries| - 1])
  }

  function EntryDocs(e: Entry): seq<Doc>
    decreases e
  {
    if e.Dir? then AllDocs(e.entries) else []
  }

  /** Files that could not be read or parsed, at any depth. */
  function BadFiles(entries: seq<Entry>): nat
    decreases entries
  {
    if entries == [] then 0 else BadFiles(entries[..|entries| - 1]) + EntryBad(entries[|entries| - 1])
  }

  function EntryBad(e: Entry): nat
    decreases e
  {
    if e.Dir? then BadFiles(e.entries) else if Taken(e) && !e.content.Docs? then 1 else 0
  }

  function WithErrors(c: Counters, n: nat): Counters { c.(errors := c.errors + n) }

  class ParseYaml {
    const o: Options
    var files: seq<Doc>
    var counts: Counters

    constructor (o: Options)
      ensures this.o == o && files == [] && counts == NoCounts()
    {
      this.o := o;
      files, counts := [], NoCounts();
    }

    /** The filter closure after placeholder expansion; `keep` tells whether the document is loaded. */
    method Judge(f: Facts, found: bool, enabled: bool) returns (keep: bool)
      modifies this`counts
      ensures counts == Charge(old(counts), NoteFor(f, found, enabled))
      ensures keep == NoteFor(f, found, enabled).outcome.Loaded?
    {
      if found {
        counts := counts.(expand := counts.expand + 1);
        if enabled { counts := counts.(expandEnabled := counts.expandEnabled + 1); } else { return false; }
      }
      if f.listing.Some? {
        var l := f.listing.value;
        if l.counted {
          if l.noisy {
            counts := counts.(noisy := counts.noisy + 1);
          } else {
            counts := counts.(excluded := counts.excluded + 1);
          }
        }
        if !l.noisy || !f.enableNoisy { return false; }
      }
      keep := JudgeUnlisted(f);
    }

    method JudgeUnlisted(f: Facts) returns (keep: bool)
      modifies this`counts
      ensures counts == ChargeOutcome(old(counts), DecideUnlisted(f))
      ensures keep == DecideUnlisted(f).Loaded?
    {
      if f.notTargeted {
        counts := counts.(excluded := counts.excluded + 1);
        return false;
      }
      if !f.wellFormatted {
        counts := counts.(errors := counts.errors + 1);
        return false;
      }
      if f.levelRefused || f.statusRefused {
        counts := counts.(excluded := counts.excluded + 1);
        return false;
      }
      if f.statusOnly {
        counts := counts.(status := Bump(counts.status, f.status));
        return false;
      }
      if f.outputRefused {
        counts := counts.(excluded := counts.excluded + 1);
        return false;
      }
      counts := counts.(rules := Bump(counts.rules, f.ruleType), status := Bump(counts.status, f.status));
      return true;
    }

    method Filter(d: Doc) returns (r: seq<Doc>)
      modifies this`counts
      ensures counts == Charge(old(counts), NoteBy(o)(d))
      ensures r == KeptBy(o)(d)
    {
      var doc, found, enabled := E.ProcessYaml(d.yaml, o.placeholders, false, false);
      var keep := Judge(FactsOf(doc, o), found, enabled);
      r := if keep then [Doc(d.path, doc)] else [];
    }

    method FilterAll(docs: seq<Doc>)
      modifies this
      ensures counts == ChargeAll(old(counts), Notes(docs, o))
      ensures files == old(files) + LoadedDocs(docs, o)
    {
      var kept: seq<Doc> := [];
      for n := 0 to |docs|
        invariant counts == ChargeAll(old(counts), Map(docs[..n], NoteBy(o)))
        invariant kept == FlatMap(docs[..n], KeptBy(o)) && files == old(files)
      {
        ChargeNext(old(counts), docs, n, NoteBy(o));
        FlatMapNext(docs, n, KeptBy(o));
        var r := Filter(docs[n]);
        kept := kept + r;
      }
      assert docs[..|docs|] == docs;
      files := files + kept;
    }

    /** A directory: subdirectories are loaded while the entries are read, its own documents after that. */
    method ReadDir(entries: seq<Entry>)
      modifies this
      ensures files == old(files) + LoadedDocs(AllDocs(entries), o)
      ensures counts == WithErrors(ChargeAll(old(counts), Notes(AllDocs(entries), o)), BadFiles(entries))
      decreases entries, 1
    {
      ghost var start, was := counts, files;
      var docs: seq<Doc> := [];
      for n := 0 to |entries|
        invariant docs == OwnDocs(entries[..n])
        invariant ReadSoFar(was, start, SubDocs(entries[..n]), BadFiles(entries[..n]), o, files, counts)
      {
        NextEntry(entries, n);
        var more := ReadEntry(entries[n], was, start, SubDocs(entries[..n]), BadFiles(entries[..n]));
        docs := docs + more;
      }
      assert entries[..|entries|] == entries;
      FilterAll(docs);
      ReadConcat(was, start, SubDocs(entries), docs, BadFiles(entries), o);
    }

    method ReadEntry(e: Entry, ghost was: seq<Doc>, ghost start: Counters, ghost docs: seq<Doc>, ghost bad: nat)
      returns (more: seq<Doc>)
      requires ReadSoFar(was, start, docs, bad, o, files, counts)
      modifies this
      ensures ReadSoFar(was, start, docs + EntryDocs(e), bad + EntryBad(e), o, files, counts)
      ensures more == if Taken(e) && e.content.Docs? then Numbered(e.path, e.content.docs) else []
      decreases e
    {
      more := [];
      if e.Dir? {
        ReadDir(e.entries);
        ReadConcat(was, start, docs, AllDocs(e.entries), bad, o);
        return;
      }
      assert docs + [] == docs;
      if Taken(e) {
        match e.content
        case Docs(ds) => more := Numbered(e.path, ds);
        case _ => counts := counts.(errors := counts.errors + 1);
      }
    }
  }

  /** The state after these documents and this many bad files, counted from `was` and `start`. */
  ghost predicate ReadSoFar(was: seq<Doc>, start: Counters, docs: seq<Doc>, bad: nat, o: Options, now: seq<Doc>,
                            counters: Counters)
  {
    now == was + LoadedDocs(docs, o) && counters == WithErrors(ChargeAll(start, Notes(docs, o)), bad)
  }

  lemma ChargeNext(c: Counters, docs: seq<Doc>, n: nat, g: Doc -> Note)
    requires n < |docs|
    ensures ChargeAll(c, Map(docs[..n + 1], g)) == Charge(ChargeAll(c, Map(docs[..n], g)), g(docs[n]))
  {
    MapNext(docs, n, g);
    var notes := Map(docs[..n + 1], g);
    assert notes[..|notes| - 1] == Map(docs[..n], g);
  }

  lemma FoldConcat(was: seq<Doc>, start: Counters, a: seq<Doc>, b: seq<Doc>, bad: nat, f: Doc -> seq<Doc>,
                   g: Doc -> Note)
    ensures was + FlatMap(a, f) + FlatMap(b, f) == was + FlatMap(a + b, f)
    ensures ChargeAll(WithErrors(ChargeAll(start, Map(a, g)), bad), Map(b, g))
         == WithErrors(ChargeAll(start, Map(a + b, g)), bad)
  {
    FlatMapConcat(a, b, f);
    MapConcat(a, b, g);
    ChargeAllConcat(start, Map(a, g), Map(b, g), bad);
  }

  /** Reading more documents from such a state leads to such a state. */
  lemma ReadConcat(was: seq<Doc>, start: Counters, a: seq<Doc>, b: seq<Doc>, bad: nat, o: Options)
    ensures was + LoadedDocs(a, o) + LoadedDocs(b, o) == was + LoadedDocs(a + b, o)
    ensures ChargeAll(WithErrors(ChargeAll(start, Notes(a, o)), bad), Notes(b, o))
         == WithErrors(ChargeAll(start, Notes(a + b, o)), bad)
  {
    FoldConcat(was, start, a, b, bad, KeptBy(o), NoteBy(o));
  }

  lemma NextEntry(entries: seq<Entry>, n: nat)
    requires n < |entries|
    ensures OwnDocs(entries[..n + 1])
         == OwnDocs(entries[..n]) +
            if Taken(entries[n]) && entries[n].content.Docs?
            then Numbered(entries[n].path, entries[n].content.docs) else []
    ensures SubDocs(entries[..n + 1]) == SubDocs(entries[..n]) + EntryDocs(entries[n])
    ensures BadFiles(entries[..n + 1]) == BadFiles(entries[..n]) + EntryBad(entries[n])
  {
    assert entries[..n + 1][..n] == entries[..n];
  }

  lemma ChargeAddsErrors(c: Counters, n: Note, k: nat)
    ensures Charge(WithErrors(c, k), n) == WithErrors(Charge(c, n), k)
  {
  }

  /** Errors counted on the way do not disturb the rest. */
  lemma {:induction false} ChargeAllConcat(c: Counters, a: seq<Note>, b: seq<Note>, k: nat)
    ensures ChargeAll(WithErrors(ChargeAll(c, a), k), b) == WithErrors(ChargeAll(c, a + b), k)
  {
    if b == [] {
      assert a + b == a;
    } else {
      var init := b[..|b| - 1];
      ChargeAllConcat(c, a, init, k);
      assert (a + b)[..|a + b| - 1] == a + init;
      ChargeAddsErrors(ChargeAll(c, a + init), b[|b| - 1], k);
    }
  }

  // ------------------------------------------------------------- accounting

  /** A listed document that no counter records. */
  predicate Silent(n: Note) { n.outcome.Listed? && !n.outcome.listing.counted }

  function CountSilent(notes: seq<Note>): nat {
    if notes == [] then 0 else CountSilent(notes[..|notes| - 1]) + One(Silent(notes[|notes| - 1]))
  }

  /** What the counters say about how many documents were filtered. */
  ghost function Accounted(c: Counters, enableNoisy: bool): int {
    Total(c.status) + c.excluded + c.errors + (c.expand - c.expandEnabled) + (if enableNoisy then 0 else c.noisy)
  }

  /** How the parts of a note hang together. */
  predicate Consistent(n: Note, enableNoisy: bool) {
    && (n.outcome.Unexpanded? <==> n.found && !n.enabled)
    && (!enableNoisy ==> (n.noisy <==> n.outcome == Listed(Listing(true, true))))
    && (enableNoisy && n.outcome.Listed? ==> !n.outcome.listing.noisy)
  }

  lemma NotesConsistent(f: Facts, found: bool, enabled: bool)
    ensures Consistent(NoteFor(f, found, enabled), f.enableNoisy)
  {
  }

  lemma ChargeAccounts(c: Counters, n: Note, enableNoisy: bool)
    requires Consistent(n, enableNoisy)
    ensures Accounted(Charge(c, n), enableNoisy) + One(Silent(n)) == Accounted(c, enableNoisy) + 1
  {
    match n.outcome
    case StatusOnly(s) => TotalBumpBy(c.status, s, 1);
    case Loaded(t, s) => TotalBumpBy(c.status, s, 1);
    case _ =>
  }

  lemma {:induction false} NotesAreAccountedFor(c: Counters, notes: seq<Note>, enableNoisy: bool)
    requires forall i :: 0 <= i < |notes| ==> Consistent(notes[i], enableNoisy)
    ensures Accounted(ChargeAll(c, notes), enableNoisy) + CountSilent(notes) == Accounted(c, enableNoisy) + |notes|
  {
    if notes != [] {
      var init := notes[..|notes| - 1];
      NotesAreAccountedFor(c, init, enableNoisy);
      ChargeAccounts(ChargeAll(c, init), notes[|notes| - 1], enableNoisy);
    }
  }

  /**
   Every filtered document is on exactly one counter: a status, "excluded", the
   errors, the expansions that found nothing, or "noisy" unless noisy rules are
   enabled.  Only a listed document whose list is named like the zero id is on none.
   */
  lemma EveryDocumentIsAccountedFor(c: Counters, docs: seq<Doc>, o: Options)
    ensures Accounted(ChargeAll(c, Notes(docs, o)), EnableNoisy(o)) + CountSilent(Notes(docs, o))
         == Accounted(c, EnableNoisy(o)) + |docs|
  {
    var notes := Notes(docs, o);
    forall i | 0 <= i < |notes| ensures Consistent(notes[i], EnableNoisy(o)) {
      var raw := docs[i].yaml;
      NotesConsistent(FactsOf(E.Expand(raw, o.placeholders), o), E.HasExpand(raw), E.Enables(raw, o.placeholders));
    }
    NotesAreAccountedFor(c, notes, EnableNoisy(o));
  }

  /** From a new loader over a whole tree, with the files that could not be read or parsed. */
  lemma TreeIsAccountedFor(entries: seq<Entry>, o: Options)
    ensures var c := WithErrors(ChargeAll(NoCounts(), Notes(AllDocs(entries), o)), BadFiles(entries));
            Accounted(c, EnableNoisy(o)) + CountSilent(Notes(AllDocs(entries), o))
            == |AllDocs(entries)| + BadFiles(entries)
  {
    EveryDocumentIsAccountedFor(NoCounts(), AllDocs(entries), o);
    NothingCounted();
  }

  lemma NothingCounted()
    ensures Total(NoCounts().status) == 0 && Total(NoCounts().rules) == 0
  {
    var z := map["deprecated" := 0, "unsupported" := 0];
    TotalAt(z, "deprecated");
    TotalAt(z - {"deprecated"}, "unsupported");
    assert z - {"deprecated"} - {"unsupported"} == map[];
  }

  lemma ChargeRules(c: Counters, n: Note)
    ensures Total(Charge(c, n).rules) == Total(c.rules) + One(n.outcome.Loaded?)
  {
    if n.outcome.Loaded? { TotalBumpBy(c.rules, n.outcome.ruleType, 1); }
  }

  function CountLoaded(notes: seq<Note>): nat {
    if notes == [] then 0 else CountLoaded(notes[..|notes| - 1]) + One(notes[|notes| - 1].outcome.Loaded?)
  }

  lemma {:induction false} RulesCountLoaded(c: Counters, notes: seq<Note>)
    ensures Total(ChargeAll(c, notes).rules) == Total(c.rules) + CountLoaded(notes)
  {
    if notes != [] {
      var init := notes[..|notes| - 1];
      RulesCountLoaded(c, init);
      ChargeRules(ChargeAll(c, init), notes[|notes| - 1]);
    }
  }

  lemma {:induction false} LoadedAreCounted(docs: seq<Doc>, o: Options)
    ensures CountLoaded(Notes(docs, o)) == |LoadedDocs(docs, o)|
  {
    if docs != [] {
      var init, d := docs[..|docs| - 1], docs[|docs| - 1];
      LoadedAreCounted(init, o);
      assert |KeptBy(o)(d)| == One(NoteBy(o)(d).outcome.Loaded?);
      var notes := Notes(docs, o);
      assert notes[..|notes| - 1] == Notes(init, o);
    }
  }

  /** The rule type counters add up to the files loaded. */
  lemma RuleCountersMatchFiles(c: Counters, docs: seq<Doc>, o: Options)
    ensures Total(ChargeAll(c, Notes(docs, o)).rules) == Total(c.rules) + |LoadedDocs(docs, o)|
  {
    RulesCountLoaded(c, Notes(docs, o));
    LoadedAreCounted(docs, o);
  }

  /** `insert_ids`: every id of a list file maps to the name of that file. */
  method InsertIds(ids: map<string, string>, lines: seq<string>, filename: string, isId: string -> bool)
    returns (r: map<string, string>)
    ensures forall k :: k in r ==> (k in ids && r[k] == ids[k]) || (isId(k) && r[k] == filename)
    ensures forall k :: k in ids ==> k in r
    ensures forall i :: 0 <= i < |lines| && IdOf(lines[i]) != "" && isId(IdOf(lines[i])) ==>
                          IdOf(lines[i]) in r && r[IdOf(lines[i])] == filename
  {
    r := ids;
    for n := 0 to |lines|
      invariant forall k :: k in r ==> (k in ids && r[k] == ids[k]) || (isId(k) && r[k] == filename)
      invariant forall k :: k in ids ==> k in r
      invariant forall i :: 0 <= i < n && IdOf(lines[i]) != "" && isId(IdOf(lines[i])) ==>
                              IdOf(lines[i]) in r && r[IdOf(lines[i])] == filename
    {
      var v := IdOf(lines[n]);
      if v == "" || !isId(v) { continue; }
      r := r[v := filename];
    }
  }

  function BeforeHash(line: string): string {
    if line == "" || line[0] == '#' then "" else [line[0]] + BeforeHash(line[1..])
  }

  function IdOf(line: string): string { Strip(BeforeHash(line)) }

  /** The id lists name files, and no list file is named like the zero id. */
  ghost predicate ListsAreFiles(o: Options) {
    forall k :: k in o.excludeIds ==> |o.excludeIds[k]| >= 4 && o.excludeIds[k][|o.excludeIds[k]| - 4..] == ".txt"
  }

  lemma ListIsNotZero(doc: Yaml, o: Options)
    requires ListsAreFiles(o)
    ensures ListingOf(doc, o.excludeIds).Some? ==> ListingOf(doc, o.excludeIds).value.counted
  {
    assert ZeroId()[|ZeroId()| - 4..][0] != ".txt"[0];
  }

  lemma CountedIsNotSilent(f: Facts, found: bool, enabled: bool)
    requires f.listing.Some? ==> f.listing.value.counted
    ensures !Silent(NoteFor(f, found, enabled))
  {
  }

  lemma {:induction false} NoneSilent(notes: seq<Note>)
    requires forall i :: 0 <= i < |notes| ==> !Silent(notes[i])
    ensures CountSilent(notes) == 0
  {
    if notes != [] { NoneSilent(notes[..|notes| - 1]); }
  }

  /** So with the lists the program builds every document is on some counter, the zero id included. */
  lemma NothingIsSilent(docs: seq<Doc>, o: Options)
    requires ListsAreFiles(o)
    ensures CountSilent(Notes(docs, o)) == 0
  {
    var notes := Notes(docs, o);
    forall i | 0 <= i < |notes| ensures !Silent(notes[i]) {
      var raw := docs[i].yaml;
      ListIsNotZero(E.Expand(raw, o.placeholders), o);
      CountedIsNotSilent(FactsOf(E.Expand(raw, o.placeholders), o), E.HasExpand(raw), E.Enables(raw, o.placeholders));
    }
    NoneSilent(notes);
  }

  // ------------------------------------------------------------- the minimum level

  function IfAtLevel(least: nat): Doc -> seq<Doc> { (d: Doc) => if LevelOf(d.yaml) >= least then [d] else [] }

  /** The documents at or above a level, in their order. */
  function AtLevel(docs: seq<Doc>, least: nat): seq<Doc> { FlatMap(docs, IfAtLevel(least)) }

  lemma LevelDecides(f: Facts, refused: bool, found: bool, enabled: bool)
    requires f.levelRefused ==> refused
    ensures NoteFor(f.(levelRefused := refused), found, enabled).outcome.Loaded?
       <==> NoteFor(f, found, enabled).outcome.Loaded? && !refused
    ensures NoteFor(f, found, enabled).outcome.Loaded? ==> !f.levelRefused
  {
  }

  lemma HigherLevelKept(d: Doc, o: Options, level: string)
    requires LevelIndex(o.minLevel) <= LevelIndex(level)
    ensures Kept(d, o.(minLevel := level)) == AtLevel(Kept(d, o), LevelIndex(level))
  {
    var doc := E.Expand(d.yaml, o.placeholders);
    var refused := LevelRefused(doc, level, o.targetLevel);
    HigherLevelRefuses(doc, o.minLevel, o.targetLevel, level);
    LevelDecides(FactsOf(doc, o), refused, E.HasExpand(d.yaml), E.Enables(d.yaml, o.placeholders));
    AtLevelOne(Doc(d.path, doc), LevelIndex(level));
  }

  lemma HigherLevelRefuses(doc: Yaml, minLevel: string, targetLevel: string, level: string)
    requires LevelIndex(minLevel) <= LevelIndex(level)
    ensures LevelRefused(doc, level, targetLevel)
       <==> LevelRefused(doc, minLevel, targetLevel) || LevelOf(doc) < LevelIndex(level)
  {
  }

  lemma AtLevelOne(d: Doc, least: nat)
    ensures AtLevel([d], least) == if LevelOf(d.yaml) >= least then [d] else []
  {
    assert [d][..0] == [];
    assert FlatMap([d], IfAtLevel(least)) == [] + IfAtLevel(least)(d);
  }

  /** Raising the minimum level keeps exactly the loaded files at or above it, in their order. */
  lemma HigherLevelKeepsThoseAbove(docs: seq<Doc>, o: Options, level: string)
    requires LevelIndex(o.minLevel) <= LevelIndex(level)
    ensures LoadedDocs(docs, o.(minLevel := level)) == AtLevel(LoadedDocs(docs, o), LevelIndex(level))
  {
    var p := o.(minLevel := level);
    forall d | d in docs ensures KeptBy(p)(d) == FlatMap(KeptBy(o)(d), IfAtLevel(LevelIndex(level))) {
      HigherLevelKept(d, o, level);
    }
    FlatMapTwice(docs, KeptBy(o), IfAtLevel(LevelIndex(level)), KeptBy(p));
  }

  // ------------------------------------------------------------- what the format check implies

  /**
   Whatever is loaded has one of five levels and one of five statuses, so neither
   the default level nor the `undefined` status counter is ever reached.
   */
  lemma LoadedDocsAreClassified(doc: Yaml, o: Options, found: bool, enabled: bool)
    requires NoteFor(FactsOf(doc, o), found, enabled).outcome.Loaded?
    ensures Field(doc, "level").Some? && IsLevel(Field(doc, "level").value)
    ensures Field(doc, "status").Some? && IsStatus(Field(doc, "status").value)
    ensures NoteFor(FactsOf(doc, o), found, enabled).outcome.status == Field(doc, "status").value
  {
    assert WellFormatted(doc, o.isDate);
    FormattedMeans(doc, o.isDate);
  }

  lemma FormattedMeans(doc: Yaml, isDate: string -> bool)
    requires WellFormatted(doc, isDate)
    ensures Field(doc, "level").Some? && IsLevel(Field(doc, "level").value)
    ensures Field(doc, "status").Some? && IsStatus(Field(doc, "status").value)
  {
    var keys := RequiredKeys(doc);
    var l: nat := if |keys| == 6 then 2 else 4;
    assert keys[l] == "level" && keys[l + 1] == "status";
    assert ValidField(doc, keys[l], isDate) && ValidField(doc, keys[l + 1], isDate);
    assert !IsLevel("") && !IsStatus("");
  }

  // ------------------------------------------------------------- which documents are loaded, by their fields

  function Severities(): seq<string> { ["informational", "low", "medium", "high", "critical", "emergency"] }

  /** In the list of severities `level` comes no earlier than `least`. */
  predicate NoEarlierIn(names: seq<string>, level: string, least: string) {
    exists i, j :: 0 <= j <= i < |names| && names[i] == level && names[j] == least
  }

  lemma PlacesCompare(names: seq<string>, level: string, least: string, n: nat, m: nat)
    requires n < |names| && m < |names|
    requires forall i :: 0 <= i < |names| ==> (names[i] == level <==> i == n) && (names[i] == least <==> i == m)
    ensures NoEarlierIn(names, level, least) <==> m <= n
  {
    if m <= n { assert names[n] == level && names[m] == least; }
  }

  /** `n` is the place of a name in the list, counted from one, or zero. */
  predicate At(names: seq<string>, name: string, n: nat) {
    && n <= |names| && (n == 0 <==> name !in names)
    && forall i :: 0 <= i < |names| ==> (names[i] == name <==> i + 1 == n)
  }

  lemma WantedPlaces(names: seq<string>, level: string, least: string, target: string, n: nat, m: nat, t: nat)
    requires At(names, level, n) && At(names, least, m) && At(names, target, t) && n > 0
    ensures LevelWantedIn(names, level, least, target) <==> m <= n && (t == 0 || t == n)
  {
    if m > 0 { PlacesCompare(names, level, least, n - 1, m - 1); }
    assert names[n - 1] == level;
  }

  /** A minimum that is no severity admits every level, and a target that is none does not choose. */
  predicate LevelWanted(level: string, minLevel: string, targetLevel: string) {
    LevelWantedIn(Severities(), level, Lower(minLevel), Lower(targetLevel))
  }

  predicate LevelWantedIn(names: seq<string>, level: string, least: string, target: string) {
    (least in names ==> NoEarlierIn(names, level, least)) && (target in names ==> level == target)
  }

  lemma LevelIndexIs(level: string)
    ensures At(Severities(), Lower(level), LevelIndex(level))
  {
    var l, s := Lower(level), Severities();
    assert s[0][0] == 'i' && s[1][0] == 'l' && s[2][0] == 'm' && s[3][0] == 'h' && s[4][0] == 'c' && s[5][0] == 'e';
    assert l in s <==> l == s[0] || l == s[1] || l == s[2] || l == s[3] || l == s[4] || l == s[5];
  }

  lemma LevelCompare(level: string, minLevel: string, targetLevel: string)
    requires Lower(level) == level && level in Severities()
    ensures LevelWanted(level, minLevel, targetLevel) <==>
              && LevelIndex(minLevel) <= LevelIndex(level)
              && (LevelIndex(targetLevel) == 0 || LevelIndex(targetLevel) == LevelIndex(level))
  {
    LevelIndexIs(level);
    LevelIndexIs(minLevel);
    LevelIndexIs(targetLevel);
    WantedPlaces(Severities(), level, Lower(minLevel), Lower(targetLevel), LevelIndex(level), LevelIndex(minLevel),
                 LevelIndex(targetLevel));
  }

  lemma LevelWantedIff(doc: Yaml, minLevel: string, targetLevel: string)
    requires Field(doc, "level").Some? && IsLevel(Field(doc, "level").value)
    ensures LevelRefused(doc, minLevel, targetLevel)
       <==> !LevelWanted(Field(doc, "level").value, minLevel, targetLevel)
  {
    LowerSeverity(Field(doc, "level").value);
    LevelCompare(Field(doc, "level").value, minLevel, targetLevel);
  }

  lemma LowerSeverity(level: string)
    requires IsLevel(level)
    ensures Lower(level) == level && level in Severities()
  {
    assert level == Severities()[0] || level == Severities()[1] || level == Severities()[2] || level == Severities()[3]
           || level == Severities()[4];
    LowerPlain(level);
  }

  lemma {:induction false} LowerPlain(s: string)
    requires forall i :: 0 <= i < |s| ==> 'a' <= s[i] <= 'z'
    ensures Lower(s) == s
  {
    if s != "" { LowerPlain(s[1..]); }
  }

  /** The keys that a rule must have, and the values that three of them may have. */
  predicate FormatOk(doc: Yaml, isDate: string -> bool) {
    var correlation := Lookup(doc, "correlation");
    && Lookup(doc, "author").Some? && Lookup(doc, "title").Some? && Lookup(doc, "id").Some?
    && ((correlation.Some? && correlation.value.Hash?)
        || (Lookup(doc, "logsource").Some? && Lookup(doc, "detection").Some?))
    && Field(doc, "level").Some?
    && Field(doc, "level").value in {"informational", "low", "medium", "high", "critical"}
    && Field(doc, "status").Some?
    && Field(doc, "status").value in {"stable", "test", "experimental", "deprecated", "unsupported"}
    && Lookup(doc, "date").Some? && isDate(TextOr(Lookup(doc, "date"), ""))
  }

  lemma FormatOkIff(doc: Yaml, isDate: string -> bool)
    ensures WellFormatted(doc, isDate) <==> FormatOk(doc, isDate)
  {
    var keys := RequiredKeys(doc);
    if WellFormatted(doc, isDate) {
      FormattedMeans(doc, isDate);
      var n := |keys|;
      assert keys[0] == "author" && keys[1] == "title" && keys[n - 1] == "id" && keys[n - 2] == "date";
      assert ValidField(doc, keys[0], isDate) && ValidField(doc, keys[1], isDate);
      assert ValidField(doc, keys[n - 1], isDate) && ValidField(doc, keys[n - 2], isDate);
      if n == 8 {
        assert keys[2] == "logsource" && keys[3] == "detection";
        assert ValidField(doc, keys[2], isDate) && ValidField(doc, keys[3], isDate);
      }
    }
    if FormatOk(doc, isDate) {
      forall i | 0 <= i < |keys| ensures ValidField(doc, keys[i], isDate) { OneKeyOk(doc, isDate, keys[i]); }
    }
  }

  lemma OneKeyOk(doc: Yaml, isDate: string -> bool, key: string)
    requires FormatOk(doc, isDate) && key in RequiredKeys(doc)
    ensures ValidField(doc, key, isDate)
  {
  }

  predicate StatusWanted(status: string, o: Options) {
    && status !in o.excludeStatus && ("*" in o.includeStatus || status in o.includeStatus)
    && (o.output.Some? && !o.output.value.enableDeprecated ==> status != "deprecated")
    && (o.output.Some? && !o.output.value.enableUnsupported ==> status != "unsupported")
  }

  /** The text of `logsource: category:`, or nothing. */
  predicate HasCategory(doc: Yaml, category: string) {
    match Lookup(doc, "logsource")
    case None => category == ""
    case Some(source) =>
      match Lookup(source, "category")
      case Some(Text(s)) => category == s
      case _ => category == ""
  }

  /** An entry of the list under `tags` reads like this; what is no text reads like nothing. */
  predicate HasTag(doc: Yaml, tag: string) {
    match Lookup(doc, "tags")
    case Some(Array(items)) =>
      exists i :: 0 <= i < |items| && (items[i] == Text(tag) || (tag == "" && !items[i].Text?))
    case _ => false
  }

  ghost predicate OutputWants(doc: Yaml, out: Output) {
    && (out.includeCategory != [] ==> exists c :: c in out.includeCategory && HasCategory(doc, c))
    && (forall c :: c in out.excludeCategory ==> !HasCategory(doc, c))
    && (out.includeTag.Some? ==> exists t :: t in out.includeTag.value && HasTag(doc, t))
    && (out.excludeTag.Some? ==> forall t :: t in out.excludeTag.value ==> !HasTag(doc, t))
  }

  lemma CategoryIs(doc: Yaml, category: string)
    ensures HasCategory(doc, category) <==> category == CategoryOf(doc)
  {
  }

  lemma TagsAre(doc: Yaml, wanted: seq<string>)
    ensures (exists t :: t in wanted && HasTag(doc, t)) <==>
            TagsOf(doc).Some? && SomeTagIn(TagsOf(doc).value, wanted)
  {
    if TagsOf(doc).Some? {
      var items := TagsOf(doc).value;
      if SomeTagIn(items, wanted) {
        var i :| 0 <= i < |items| && TextOr(Some(items[i]), "") in wanted;
        assert HasTag(doc, TextOr(Some(items[i]), ""));
      }
      forall t | t in wanted && HasTag(doc, t) ensures SomeTagIn(items, wanted) {
        var i :| 0 <= i < |items| && (items[i] == Text(t) || (t == "" && !items[i].Text?));
        assert TextOr(Some(items[i]), "") == t;
      }
    }
  }

  lemma OutputWantsIff(doc: Yaml, out: Output)
    ensures OutputWants(doc, out) <==> !OutputRefused(doc, Some(out))
  {
    forall c ensures HasCategory(doc, c) <==> c == CategoryOf(doc) { CategoryIs(doc, c); }
    if out.includeTag.Some? { TagsAre(doc, out.includeTag.value); }
    if out.excludeTag.Some? { TagsAre(doc, out.excludeTag.value); }
  }

  predicate IdWanted(doc: Yaml, o: Options) {
    match Lookup(doc, "id")
    case Some(Text(id)) =>
      && (id in o.excludeIds ==> !Contains(o.excludeIds[id], "exclude_rule") && EnableNoisy(o))
      && (o.targetIds != {} ==> id in o.targetIds)
    case _ => true
  }

  /** A document that passes, in terms of its fields and of the options. */
  ghost predicate Wanted(doc: Yaml, o: Options) {
    && IdWanted(doc, o) && FormatOk(doc, o.isDate)
    && LevelWanted(Field(doc, "level").value, o.minLevel, o.targetLevel)
    && StatusWanted(Field(doc, "status").value, o)
    && (o.output.Some? ==> OutputWants(doc, o.output.value))
  }

  lemma DecidedIff(doc: Yaml, o: Options, failed: bool)
    ensures Decide(FactsOf(doc, o), failed).Loaded? <==> !failed && Wanted(doc, o)
  {
    DecideIff(FactsOf(doc, o), failed);
    IdWantedIff(doc, o);
    FormatOkIff(doc, o.isDate);
    if o.output.Some? { OutputWantsIff(doc, o.output.value); }
    if FormatOk(doc, o.isDate) {
      FormattedMeans(doc, o.isDate);
      LevelWantedIff(doc, o.minLevel, o.targetLevel);
      StatusWantedIff(doc, o);
    }
  }

  lemma DecideIff(f: Facts, failed: bool)
    ensures Decide(f, failed).Loaded? <==>
              && !failed && (f.listing.Some? ==> f.listing.value.noisy && f.enableNoisy) && !f.notTargeted
              && f.wellFormatted && !f.levelRefused && !f.statusRefused && !f.statusOnly && !f.outputRefused
  {
  }

  lemma IdWantedIff(doc: Yaml, o: Options)
    ensures IdWanted(doc, o) <==>
              && (ListingOf(doc, o.excludeIds).Some? ==> ListingOf(doc, o.excludeIds).value.noisy && EnableNoisy(o))
              && !NotTargeted(doc, o.targetIds)
  {
  }

  lemma StatusWantedIff(doc: Yaml, o: Options)
    requires Field(doc, "status").Some?
    ensures StatusWanted(Field(doc, "status").value, o) <==>
              && !StatusRefused(doc, o.includeStatus, o.excludeStatus, o.timeline)
              && !StatusOnlyCounted(doc, o.output)
  {
  }

  /**
   A document is loaded, expanded, exactly when its placeholders could be filled in and its
   id, format, level, status, category and tags pass.
   */
  lemma LoadedIff(d: Doc, o: Options)
    ensures var doc := E.Expand(d.yaml, o.placeholders);
            KeptBy(o)(d) == if (E.HasExpand(d.yaml) ==> E.Enables(d.yaml, o.placeholders)) && Wanted(doc, o)
                            then [Doc(d.path, doc)] else []
  {
    DecidedIff(E.Expand(d.yaml, o.placeholders), o, E.HasExpand(d.yaml) && !E.Enables(d.yaml, o.placeholders));
  }

  lemma NoTarget()
    ensures LevelIndex("") == 0
  {
    assert Lower("") == "";
  }

  lemma LevelsByPlace(level: string, least: string)
    requires IsLevel(level)
    ensures LevelWanted(level, least, "") <==> LevelIndex(least) <= LevelIndex(level)
  {
    LowerSeverity(level);
    NoTarget();
    LevelCompare(level, least, "");
  }

  /** Which levels pass which minimum. */
  lemma LevelsInWords(level: string)
    requires IsLevel(level)
    ensures LevelWanted(level, "informational", "")
    ensures LevelWanted(level, "low", "") <==> level != "informational"
    ensures LevelWanted(level, "medium", "") <==> level == "medium" || level == "high" || level == "critical"
    ensures LevelWanted(level, "high", "") <==> level == "high" || level == "critical"
    ensures LevelWanted(level, "critical", "") <==> level == "critical"
  {
    LevelsByPlace(level, "informational");
    LevelsByPlace(level, "low");
    LevelsByPlace(level, "medium");
    LevelsByPlace(level, "high");
    LevelsByPlace(level, "critical");
    NamedPlaces();
    LevelIndexNames(level);
  }

  lemma NamedPlaces()
    ensures LevelIndex("informational") == 1 && LevelIndex("low") == 2 && LevelIndex("medium") == 3
    ensures LevelIndex("high") == 4 && LevelIndex("critical") == 5
  {
    LevelIndexNames("informational");
    LevelIndexNames("low");
    LevelIndexNames("medium");
    LevelIndexNames("high");
    LevelIndexNames("critical");
  }

  lemma LevelIndexNames(level: string)
    requires IsLevel(level)
    ensures LevelIndex(level) == 1 <==> level == "informational"
    ensures LevelIndex(level) == 2 <==> level == "low"
    ensures LevelIndex(level) == 3 <==> level == "medium"
    ensures LevelIndex(level) == 4 <==> level == "high"
    ensures LevelIndex(level) == 5 <==> level == "critical"
  {
    LowerSeverity(level);
  }
}
