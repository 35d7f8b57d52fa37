/**
 Choosing event log files before a scan: the index from channels to files that is
 matched against the Channel values of the rules, and the four filters made of it.

 Opening a log, the YAML parser and the wildcard matcher are function parameters.
 */
module ChannelFilter {
  import opened Wrappers
  import opened Strings
  import opened Yaml

  type Path = string

  // ------------------------------------------------------------- the index of files by channel

  /** The files of a channel, in their order. */
  function FilesOf(files: seq<Path>, channelOf: Path -> Option<string>, c: string): seq<Path> {
    if files == [] then []
    else
      var before, p := FilesOf(files[..|files| - 1], channelOf, c), files[|files| - 1];
      if channelOf(p) == Some(c) then before + [p] else before
  }

  ghost predicate Indexed(files: seq<Path>, channelOf: Path -> Option<string>, channels: map<string, seq<Path>>) {
    && (forall c :: c in channels ==> channels[c] == FilesOf(files, channelOf, c) && channels[c] != [])
    && (forall i :: 0 <= i < |files| && channelOf(files[i]).Some? ==> channelOf(files[i]).value in channels)
  }

  /** `channelOf` is the channel of a log's first record, None when there is no readable one. */
  method PeekChannels(files: seq<Path>, channelOf: Path -> Option<string>) returns (channels: map<string, seq<Path>>)
    ensures Indexed(files, channelOf, channels)
  {
    channels := map[];
    ghost var seen: seq<Path> := [];
    for n := 0 to |files|
      invariant seen == files[..n] && Indexed(seen, channelOf, channels)
    {
      ghost var next := seen + [files[n]];
      assert next[..|next| - 1] == seen;
      channels := PeekOne(files[n], channelOf, channels, seen, next);
      seen := next;
    }
    assert seen == files;
  }

  method PeekOne(path: Path, channelOf: Path -> Option<string>, channels: map<string, seq<Path>>, ghost seen: seq<Path>,
                 ghost next: seq<Path>)
    returns (r: map<string, seq<Path>>)
    requires Indexed(seen, channelOf, channels)
    requires next != [] && next[..|next| - 1] == seen && next[|next| - 1] == path
    ensures Indexed(next, channelOf, r)
  {
    r := channels;
    match channelOf(path)
    case None =>
      assert forall i :: 0 <= i < |seen| ==> next[i] == seen[i];
    case Some(key) =>
      if key !in channels { NoFiles(seen, channelOf, key, channels.Keys); }
      var before := if key in channels then channels[key] else [];
      r := channels[key := before + [path]];
      assert forall i :: 0 <= i < |seen| ==> next[i] == seen[i];
  }

  lemma {:induction false} NoFiles(files: seq<Path>, channelOf: Path -> Option<string>, c: string, known: set<string>)
    requires forall i :: 0 <= i < |files| && channelOf(files[i]).Some? ==> channelOf(files[i]).value in known
    requires c !in known
    ensures FilesOf(files, channelOf, c) == []
  {
    if files != [] {
      var init := files[..|files| - 1];
      assert forall i :: 0 <= i < |init| ==> init[i] == files[i];
      NoFiles(init, channelOf, c, known);
    }
  }

  lemma {:induction false} FilesOfMeans(files: seq<Path>, channelOf: Path -> Option<string>, c: string, p: Path)
    ensures p in FilesOf(files, channelOf, c) <==> p in files && channelOf(p) == Some(c)
  {
    if files != [] {
      var init := files[..|files| - 1];
      FilesOfMeans(init, channelOf, c, p);
      assert files == init + [files[|init|]];
    }
  }

  // ------------------------------------------------------------- the channels a rule names

  const CHANNEL := "Channel"

  function TrimLeft(s: string): string { if s != "" && s[0] == '*' then TrimLeft(s[1..]) else s }

  function TrimRight(s: string): string { if s != "" && s[|s| - 1] == '*' then TrimRight(s[..|s| - 1]) else s }

  function TrimStars(s: string): string { TrimRight(TrimLeft(s)) }

  function Stars(n: nat): string { seq(n, _ => '*') }

  lemma {:induction false} TrimLeftIs(s: string) returns (n: nat)
    ensures s == Stars(n) + TrimLeft(s)
    ensures TrimLeft(s) != "" ==> TrimLeft(s)[0] != '*'
  {
    if s != "" && s[0] == '*' {
      n := TrimLeftIs(s[1..]);
      n := n + 1;
      assert s == [s[0]] + s[1..];
    } else {
      n := 0;
    }
  }

  lemma {:induction false} TrimRightIs(s: string) returns (n: nat)
    ensures s == TrimRight(s) + Stars(n)
    ensures var r := TrimRight(s); r != "" ==> r[|r| - 1] != '*' && r[0] == s[0]
  {
    if s != "" && s[|s| - 1] == '*' {
      n := TrimRightIs(s[..|s| - 1]);
      n := n + 1;
      assert s == s[..|s| - 1] + [s[|s| - 1]];
    } else {
      n := 0;
    }
  }

  /** Trimming takes the stars at both ends and nothing else, and leaves none there. */
  lemma TrimStarsIs(s: string) returns (before: nat, after: nat)
    ensures s == Stars(before) + TrimStars(s) + Stars(after)
    ensures var r := TrimStars(s); r != "" ==> r[0] != '*' && r[|r| - 1] != '*'
  {
    before := TrimLeftIs(s);
    after := TrimRightIs(TrimLeft(s));
  }

  lemma {:induction false} HasStar(s: string, i: nat)
    requires i < |s| && s[i] == '*'
    ensures Contains(s, "*")
  {
    if i > 0 { HasStar(s[1..], i - 1); }
  }

  /** A Channel value of the form `*word*` covers exactly the channels that contain the word. */
  lemma StarredWordCovers(word: string, before: nat, after: nat, channel: string)
    requires before + after > 0 && word != "" && word[0] != '*' && word[|word| - 1] != '*'
    ensures Covers(Stars(before) + word + Stars(after), channel) <==> Contains(channel, word)
  {
    var s, n := Stars(before) + word + Stars(after), before + |word|;
    var b, a := TrimStarsIs(s);
    var r := TrimStars(s);
    assert s[before] == word[0] && s[n - 1] == word[|word| - 1];
    assert b + |r| + a == |s| && forall i :: 0 <= i < b || b + |r| <= i < |s| ==> s[i] == '*';
    assert r != "" && s[b] == r[0] && s[b + |r| - 1] == r[|r| - 1];
    assert b == before && |r| == |word|;
    assert r == s[b..b + |r|] == word;
    HasStar(s, if before > 0 then 0 else |s| - 1);
  }

  /** Whether a Channel value of a rule covers a channel. */
  predicate Covers(text: string, channel: string) {
    if Contains(text, "*") then Contains(channel, TrimStars(text)) else channel == text
  }

  /** Mapping keys are texts; the code unwraps them. */
  predicate TextKeys(y: Yaml) {
    match y
    case Hash(pairs) => forall i :: 0 <= i < |pairs| ==> PairTextKeys(pairs[i])
    case Array(items) => forall i :: 0 <= i < |items| ==> TextKeys(items[i])
    case _ => true
  }

  predicate PairTextKeys(p: Pair) { p.key.Text? && TextKeys(p.value) }

  /** Some text under the key Channel, at any depth and through lists, covers the channel. */
  predicate Names(key: string, y: Yaml, channel: string)
    requires TextKeys(y)
    decreases y
  {
    match y
    case Text(s) => key == CHANNEL && Covers(s, channel)
    case Hash(pairs) => exists i :: 0 <= i < |pairs| && PairNames(pairs[i], channel)
    case Array(items) => exists i :: 0 <= i < |items| && Names(key, items[i], channel)
    case Scalar(_) => false
  }

  predicate PairNames(p: Pair, channel: string)
    requires PairTextKeys(p)
    decreases p
  {
    Names(p.key.s, p.value, channel)
  }

  function SetOf(s: seq<string>): set<string> { set x | x in s }

  /** What one visit adds to the vector: these channels, and the vector grows exactly if there are any. */
  ghost predicate Visited(key: string, y: Yaml, evtx: set<string>, before: seq<string>, after: seq<string>)
    requires TextKeys(y)
  {
    && |before| <= |after|
    && (|before| < |after| <==> exists c :: c in evtx && Names(key, y, c))
    && (forall c :: c in after <==> c in before || (c in evtx && Names(key, y, c)))
  }

  method VisitValue(key: string, y: Yaml, evtx: set<string>, found: seq<string>) returns (r: seq<string>)
    requires TextKeys(y)
    ensures Visited(key, y, evtx, found, r)
    decreases y
  {
    r := found;
    match y
    case Text(s) =>
      if key == CHANNEL { r := VisitText(s, evtx, found); }
    case Hash(pairs) =>
      for n := 0 to |pairs|
        invariant |found| <= |r|
        invariant |found| < |r| <==> exists c, i :: c in evtx && 0 <= i < n && PairNames(pairs[i], c)
        invariant forall c :: c in r <==> c in found || (c in evtx && exists i :: 0 <= i < n && PairNames(pairs[i], c))
      {
        r := VisitPair(pairs[n], evtx, r);
      }
    case Array(items) =>
      for n := 0 to |items|
        invariant |found| <= |r|
        invariant |found| < |r| <==> exists c, i :: c in evtx && 0 <= i < n && Names(key, items[i], c)
        invariant forall c :: c in r <==> c in found || (c in evtx && exists i :: 0 <= i < n && Names(key, items[i], c))
      {
        r := VisitValue(key, items[n], evtx, r);
      }
    case Scalar(_) =>
  }

  method VisitPair(p: Pair, evtx: set<string>, found: seq<string>) returns (r: seq<string>)
    requires PairTextKeys(p)
    ensures Visited(p.key.s, p.value, evtx, found, r)
    decreases p
  {
    r := VisitValue(p.key.s, p.value, evtx, found);
  }

  method VisitText(s: string, evtx: set<string>, found: seq<string>) returns (r: seq<string>)
    ensures Visited(CHANNEL, Text(s), evtx, found, r)
  {
    r := found;
    assert forall c :: Names(CHANNEL, Text(s), c) <==> Covers(s, c);
    if Contains(s, "*") {
      var todo := evtx;
      while todo != {}
        invariant todo <= evtx && |found| <= |r|
        invariant |found| < |r| <==> exists c :: c in evtx - todo && Contains(c, TrimStars(s))
        invariant forall c :: c in r <==> c in found || (c in evtx - todo && Contains(c, TrimStars(s)))
        decreases todo
      {
        var ch :| ch in todo;
        if Contains(ch, TrimStars(s)) { r := r + [ch]; }
        todo := todo - {ch};
      }
      assert evtx - todo == evtx;
    } else if s in evtx {
      r := r + [s];
    }
  }

  /** A rule names a channel by a text without stars under the key Channel, and only there. */
  lemma ChannelKeyNames(key: string, text: string, channel: string)
    requires !Contains(text, "*")
    ensures Names("", Hash([Pair(Text(key), Text(text))]), channel) <==> key == "Channel" && channel == text
  {
    var pairs := [Pair(Text(key), Text(text))];
    assert PairNames(pairs[0], channel) <==> key == "Channel" && channel == text;
    assert Names("", Hash(pairs), channel) <==> exists i :: 0 <= i < |pairs| && PairNames(pairs[i], channel);
  }

  // ------------------------------------------------------------- the filter

  datatype Rule = Rule(path: string, yaml: Yaml)

  ghost predicate ValidRules(rules: seq<Rule>) { forall i :: 0 <= i < |rules| ==> TextKeys(rules[i].yaml) }

  predicate RuleNames(rule: Rule, channel: string)
    requires TextKeys(rule.yaml)
  {
    Names("", rule.yaml, channel)
  }

  /** The paths of the rules that name one of the channels. */
  ghost function NamingRules(rules: seq<Rule>, evtx: set<string>): seq<string>
    requires ValidRules(rules)
  {
    if rules == [] then []
    else
      var before, rule := NamingRules(rules[..|rules| - 1], evtx), rules[|rules| - 1];
      if exists c :: c in evtx && RuleNames(rule, c) then before + [rule.path] else before
  }

  method ExtractChannels(rules: seq<Rule>, evtx: set<string>) returns (paths: seq<string>, channels: seq<string>)
    requires ValidRules(rules)
    ensures paths == NamingRules(rules, evtx)
    ensures forall c :: c in channels <==> c in evtx && exists i :: 0 <= i < |rules| && RuleNames(rules[i], c)
  {
    paths, channels := [], [];
    for n := 0 to |rules|
      invariant paths == NamingRules(rules[..n], evtx)
      invariant forall c :: c in channels <==> c in evtx && exists i :: 0 <= i < n && RuleNames(rules[i], c)
    {
      assert rules[..n + 1][..n] == rules[..n];
      var before := |channels|;
      assert forall c :: RuleNames(rules[n], c) <==> Names("", rules[n].yaml, c);
      channels := VisitValue("", rules[n].yaml, evtx, channels);
      if before < |channels| { paths := paths + [rules[n].path]; }
    }
    assert rules[..|rules|] == rules;
  }

  datatype Filter = Filter(rulePaths: seq<string>, channels: set<string>, index: map<string, seq<Path>>)

  predicate Scannable(f: Filter, path: Path) {
    exists c :: c in f.index && path in f.index[c] && c in f.channels
  }

  /** What the index stands for: the file's own channel is named by some rule. */
  ghost predicate FileIsNamed(path: Path, channelOf: Path -> Option<string>, rules: seq<Rule>)
    requires ValidRules(rules)
  {
    channelOf(path).Some? && exists i :: 0 <= i < |rules| && RuleNames(rules[i], channelOf(path).value)
  }

  /** A file is scannable by the index exactly when it is one of the files and passes the test on its own. */
  method CreateChannelFilter(files: seq<Path>, rules: seq<Rule>, channelOf: Path -> Option<string>) returns (f: Filter)
    requires ValidRules(rules)
    ensures forall p :: Scannable(f, p) <==> p in files && FileIsNamed(p, channelOf, rules)
    ensures f.rulePaths == if f.index == map[] then [] else NamingRules(rules, f.index.Keys)
    ensures Indexed(files, channelOf, f.index)
  {
    var index := PeekChannels(files, channelOf);
    if index == map[] {
      f := Filter([], {}, map[]);
    } else {
      var paths, channels := ExtractChannels(rules, index.Keys);
      f := Filter(paths, SetOf(channels), index);
    }
    forall p ensures Scannable(f, p) <==> p in files && FileIsNamed(p, channelOf, rules) {
      IndexAgrees(files, rules, channelOf, f, p);
    }
  }

  lemma IndexAgrees(files: seq<Path>, rules: seq<Rule>, channelOf: Path -> Option<string>, f: Filter, p: Path)
    requires ValidRules(rules) && Indexed(files, channelOf, f.index)
    requires forall c :: c in f.channels <==> c in f.index && exists i :: 0 <= i < |rules| && RuleNames(rules[i], c)
    ensures Scannable(f, p) <==> p in files && FileIsNamed(p, channelOf, rules)
  {
    if Scannable(f, p) {
      var c :| c in f.index && p in f.index[c] && c in f.channels;
      FilesOfMeans(files, channelOf, c, p);
    }
    if p in files && FileIsNamed(p, channelOf, rules) {
      var c := channelOf(p).value;
      var i :| 0 <= i < |files| && files[i] == p;
      FilesOfMeans(files, channelOf, c, p);
      assert c in f.index && p in f.index[c] && c in f.channels;
    }
  }

  // ------------------------------------------------------------- the four stages

  function Retain(files: seq<Path>, keep: Path -> bool): seq<Path> {
    if files == [] then []
    else
      var before, p := Retain(files[..|files| - 1], keep), files[|files| - 1];
      if keep(p) then before + [p] else before
  }

  /** None when the YAML made of the channel names cannot be read, in which case the stage does nothing. */
  function ChannelDoc(channels: Option<seq<string>>, load: seq<string> -> Option<Yaml>): Option<Yaml> {
    match channels case None => None case Some(cs) => load(cs)
  }

  ghost predicate ReadableKeys(doc: Option<Yaml>) { doc.Some? ==> TextKeys(doc.value) }

  predicate DocCovers(doc: Yaml, channel: Option<string>) {
    TextKeys(doc) && channel.Some? && Names("", doc, channel.value)
  }

  function ChannelTest(doc: Option<Yaml>, exclude: bool, channelOf: Path -> Option<string>): Path -> bool {
    (p: Path) => doc.Some? ==> DocCovers(doc.value, channelOf(p)) != exclude
  }

  method ApplyChannelFilter(files: seq<Path>, channels: Option<seq<string>>, exclude: bool,
                            channelOf: Path -> Option<string>, load: seq<string> -> Option<Yaml>)
    returns (r: seq<Path>)
    requires ReadableKeys(ChannelDoc(channels, load))
    ensures r == Retain(files, ChannelTest(ChannelDoc(channels, load), exclude, channelOf))
  {
    var doc := ChannelDoc(channels, load);
    if doc == None {
      r := files;
      RetainAllOf(files, ChannelTest(doc, exclude, channelOf));
      return;
    }
    var rules := [Rule("log-metrics", doc.value)];
    var f := CreateChannelFilter(files, rules, channelOf);
    r := [];
    for n := 0 to |files|
      invariant r == Retain(files[..n], ChannelTest(doc, exclude, channelOf))
    {
      assert files[..n + 1][..n] == files[..n];
      OneRule(files[n], channelOf, rules);
      if Scannable(f, files[n]) != exclude { r := r + [files[n]]; }
    }
    assert files[..|files|] == files;
  }

  lemma OneRule(p: Path, channelOf: Path -> Option<string>, rules: seq<Rule>)
    requires |rules| == 1 && TextKeys(rules[0].yaml)
    ensures FileIsNamed(p, channelOf, rules) <==> DocCovers(rules[0].yaml, channelOf(p))
  {
    if DocCovers(rules[0].yaml, channelOf(p)) { assert RuleNames(rules[0], channelOf(p).value); }
  }

  lemma {:induction false} RetainAllOf(files: seq<Path>, keep: Path -> bool)
    requires forall p :: keep(p)
    ensures Retain(files, keep) == files
  {
    if files != [] { RetainAllOf(files[..|files| - 1], keep); }
  }

  predicate Matches(patterns: seq<string>, name: string, wild: (string, string) -> bool) {
    exists i :: 0 <= i < |patterns| && wild(Lower(patterns[i]), Lower(name))
  }

  /** `nameOf` is None for a path without a readable file name; such a path never passes. */
  function FilenameTest(patterns: Option<seq<string>>, exclude: bool, nameOf: Path -> Option<string>,
                        wild: (string, string) -> bool): Path -> bool
  {
    (p: Path) => patterns.Some? ==> nameOf(p).Some? && Matches(patterns.value, nameOf(p).value, wild) != exclude
  }

  method ApplyFilenameFilter(files: seq<Path>, patterns: Option<seq<string>>, exclude: bool,
                             nameOf: Path -> Option<string>, wild: (string, string) -> bool)
    returns (r: seq<Path>)
    ensures r == Retain(files, FilenameTest(patterns, exclude, nameOf, wild))
  {
    if patterns == None {
      r := files;
      RetainAllOf(files, FilenameTest(patterns, exclude, nameOf, wild));
      return;
    }
    r := [];
    for n := 0 to |files|
      invariant r == Retain(files[..n], FilenameTest(patterns, exclude, nameOf, wild))
    {
      assert files[..n + 1][..n] == files[..n];
      var name := nameOf(files[n]);
      if name.Some? && Matches(patterns.value, name.value, wild) != exclude { r := r + [files[n]]; }
    }
    assert files[..|files|] == files;
  }

  /** A name matches a pattern when the matcher says so of both in lower case: case makes no difference. */
  lemma MatchesMeans(pattern: string, more: seq<string>, name: string, other: string, wild: (string, string) -> bool)
    ensures Matches([pattern] + more, name, wild) <==> wild(Lower(pattern), Lower(name)) || Matches(more, name, wild)
    ensures !Matches([], name, wild)
    ensures Lower(name) == Lower(other) ==> (Matches(more, name, wild) <==> Matches(more, other, wild))
  {
    var all := [pattern] + more;
    assert all[0] == pattern && forall i :: 0 <= i < |more| ==> all[i + 1] == more[i];
    if Matches(all, name, wild) {
      var i :| 0 <= i < |all| && wild(Lower(all[i]), Lower(name));
      if i > 0 { assert wild(Lower(more[i - 1]), Lower(name)); }
    }
    if Matches(more, name, wild) {
      var i :| 0 <= i < |more| && wild(Lower(more[i]), Lower(name));
      assert wild(Lower(all[i + 1]), Lower(name));
    }
  }

  function Both(a: Path -> bool, b: Path -> bool): Path -> bool { (p: Path) => a(p) && b(p) }

  lemma {:induction false} RetainTwice(files: seq<Path>, a: Path -> bool, b: Path -> bool)
    ensures Retain(Retain(files, a), b) == Retain(files, Both(a, b))
  {
    if files != [] {
      var init := files[..|files| - 1];
      RetainTwice(init, a, b);
      assert (Retain(init, a) + [files[|init|]])[..|Retain(init, a)|] == Retain(init, a);
    }
  }

  /** The four filters are one pass with all four tests, in the order of the files. */
  method FilterEvtxFiles(files: seq<Path>, includeChannel: Option<seq<string>>, includeFilename: Option<seq<string>>,
                         excludeChannel: Option<seq<string>>, excludeFilename: Option<seq<string>>,
                         channelOf: Path -> Option<string>, load: seq<string> -> Option<Yaml>,
                         nameOf: Path -> Option<string>, wild: (string, string) -> bool)
    returns (r: seq<Path>)
    requires ReadableKeys(ChannelDoc(includeChannel, load)) && ReadableKeys(ChannelDoc(excludeChannel, load))
    ensures var a := ChannelTest(ChannelDoc(includeChannel, load), false, channelOf);
            var b := ChannelTest(ChannelDoc(excludeChannel, load), true, channelOf);
            var c := FilenameTest(includeFilename, false, nameOf, wild);
            var d := FilenameTest(excludeFilename, true, nameOf, wild);
            r == Retain(files, Both(Both(Both(a, b), c), d))
  {
    ghost var a := ChannelTest(ChannelDoc(includeChannel, load), false, channelOf);
    ghost var b := ChannelTest(ChannelDoc(excludeChannel, load), true, channelOf);
    ghost var c := FilenameTest(includeFilename, false, nameOf, wild);
    ghost var d := FilenameTest(excludeFilename, true, nameOf, wild);
    r := ApplyChannelFilter(files, includeChannel, false, channelOf, load);
    r := ApplyChannelFilter(r, excludeChannel, true, channelOf, load);
    RetainTwice(files, a, b);
    r := ApplyFilenameFilter(r, includeFilename, false, nameOf, wild);
    RetainTwice(files, Both(a, b), c);
    r := ApplyFilenameFilter(r, excludeFilename, true, nameOf, wild);
    RetainTwice(files, Both(Both(a, b), c), d);
  }

  lemma {:induction false} SameTestSameFiles(files: seq<Path>, a: Path -> bool, b: Path -> bool)
    requires forall p :: p in files ==> a(p) == b(p)
    ensures Retain(files, a) == Retain(files, b)
  {
    if files != [] { SameTestSameFiles(files[..|files| - 1], a, b); }
  }

  /** One of the filters with its argument. */
  datatype Stage =
    | ByChannel(channels: Option<seq<string>>, exclude: bool)
    | ByFilename(patterns: Option<seq<string>>, exclude: bool)

  /** What is outside the filters: the logs, the YAML parser, file names and the wildcard matcher. */
  datatype Machine = Machine(channelOf: Path -> Option<string>, load: seq<string> -> Option<Yaml>,
                             nameOf: Path -> Option<string>, wild: (string, string) -> bool)

  ghost predicate Readable(stages: seq<Stage>, m: Machine) {
    forall i :: 0 <= i < |stages| && stages[i].ByChannel? ==> ReadableKeys(ChannelDoc(stages[i].channels, m.load))
  }

  function TestOf(stage: Stage, m: Machine): Path -> bool {
    match stage
    case ByChannel(channels, exclude) => ChannelTest(ChannelDoc(channels, m.load), exclude, m.channelOf)
    case ByFilename(patterns, exclude) => FilenameTest(patterns, exclude, m.nameOf, m.wild)
  }

  predicate Passes(stages: seq<Stage>, m: Machine, p: Path) { forall s :: s in stages ==> TestOf(s, m)(p) }

  function AllTests(stages: seq<Stage>, m: Machine): Path -> bool { (p: Path) => Passes(stages, m, p) }

  /** Each stage works on the files that the one before left over; a channel stage indexes just these. */
  method RunStages(files: seq<Path>, stages: seq<Stage>, m: Machine) returns (r: seq<Path>)
    requires Readable(stages, m)
    ensures r == Retain(files, AllTests(stages, m))
  {
    r := files;
    RetainAllOf(files, AllTests([], m));
    for n := 0 to |stages|
      invariant r == Retain(files, AllTests(stages[..n], m))
    {
      ghost var before, test := AllTests(stages[..n], m), TestOf(stages[n], m);
      RetainTwice(files, before, test);
      match stages[n] {
        case ByChannel(channels, exclude) => r := ApplyChannelFilter(r, channels, exclude, m.channelOf, m.load);
        case ByFilename(patterns, exclude) => r := ApplyFilenameFilter(r, patterns, exclude, m.nameOf, m.wild);
      }
      assert stages[..n + 1] == stages[..n] + [stages[n]];
      forall p | p in files ensures Both(before, test)(p) == AllTests(stages[..n + 1], m)(p) { }
      SameTestSameFiles(files, Both(before, test), AllTests(stages[..n + 1], m));
    }
    assert stages[..|stages|] == stages;
  }

  /**
   The stages can be run in any order, although the index of a channel stage is then built
   from other files: the files left over and their order are the same.
   */
  method StagesCommute(files: seq<Path>, stages: seq<Stage>, other: seq<Stage>, m: Machine)
    returns (x: seq<Path>, y: seq<Path>)
    requires multiset(stages) == multiset(other) && Readable(stages, m)
    ensures x == y == Retain(files, AllTests(stages, m))
  {
    forall s ensures s in stages <==> s in other { assert s in multiset(stages) <==> s in multiset(other); }
    forall i | 0 <= i < |other| && other[i].ByChannel?
      ensures ReadableKeys(ChannelDoc(other[i].channels, m.load))
    {
      assert other[i] in stages;
    }
    x := RunStages(files, stages, m);
    y := RunStages(files, other, m);
    SameTestSameFiles(files, AllTests(stages, m), AllTests(other, m));
  }

  // ------------------------------------------------------------- include and exclude

  lemma {:induction false} Complementary(files: seq<Path>, a: Path -> bool, b: Path -> bool)
    requires forall p :: p in files ==> a(p) != b(p)
    ensures multiset(Retain(files, a)) + multiset(Retain(files, b)) == multiset(files)
  {
    if files != [] {
      var init := files[..|files| - 1];
      Complementary(init, a, b);
      assert files == init + [files[|init|]];
    }
  }

  /** Including and excluding the same channels splits the files, exactly when the channel names can be read. */
  lemma ChannelsPartitionIff(files: seq<Path>, channels: seq<string>, channelOf: Path -> Option<string>,
                             load: seq<string> -> Option<Yaml>)
    ensures var included := Retain(files, ChannelTest(load(channels), false, channelOf));
            var excluded := Retain(files, ChannelTest(load(channels), true, channelOf));
            multiset(included) + multiset(excluded) == multiset(files) <==> load(channels).Some? || files == []
  {
    var a, b := ChannelTest(load(channels), false, channelOf), ChannelTest(load(channels), true, channelOf);
    if load(channels).Some? {
      Complementary(files, a, b);
    } else {
      RetainAllOf(files, a);
      RetainAllOf(files, b);
      if files != [] { assert |multiset(files) + multiset(files)| != |multiset(files)|; }
    }
  }

  function Nameless(files: seq<Path>, nameOf: Path -> Option<string>): nat {
    if files == [] then 0
    else Nameless(files[..|files| - 1], nameOf) + if nameOf(files[|files| - 1]) == None then 1 else 0
  }

  /** A path without a file name is dropped in both modes; nothing else is lost or doubled. */
  lemma {:induction false} FilenamesLoseTheNameless(files: seq<Path>, patterns: seq<string>,
                                                    nameOf: Path -> Option<string>,
                                                    wild: (string, string) -> bool)
    ensures |Retain(files, FilenameTest(Some(patterns), false, nameOf, wild))|
            + |Retain(files, FilenameTest(Some(patterns), true, nameOf, wild))| == |files| - Nameless(files, nameOf)
  {
    if files != [] { FilenamesLoseTheNameless(files[..|files| - 1], patterns, nameOf, wild); }
  }
}
