/**
 The live tail of a log that is still being written, against the boot reindex of the
 finished log.

 The tail reads whatever a poll finds, so a line can come in pieces.  It numbers the
 pieces that read, while the reindex numbers all lines.
 */
module LiveTail {
  import opened Wrappers
  import opened Strings
  import opened Sequences
  import opened LogText
  import opened Store
  import opened Recovery

  // ------------------------------------------------------------- what the two indexers see

  /** What a line of text is to either indexer. */
  type Reader = string -> Line

  /** The reader made of a JSON decoder: a line of blanks is skipped before it gets there. */
  function ReaderOf(parse: string -> Option<Event>): Reader {
    (raw: string) =>
      if Strip(raw) == "" then Blank
      else match parse(raw)
        case None => Bad
        case Some(e) => Good(raw, e)
  }

  /** Nothing is read from an empty text, and a detection keeps its text. */
  ghost predicate IsReader(read: Reader) {
    !read("").Good? && forall raw :: read(raw).Good? ==> read(raw).raw == raw
  }

  lemma ReaderOfReads(parse: string -> Option<Event>)
    ensures IsReader(ReaderOf(parse))
  {
    assert StripLeft("") == "";
  }

  /** What the tail sees of a log that its polls bring in these parts. */
  function Seen(polls: seq<string>, read: Reader): seq<Line> { Map(FlatMap(polls, Split), read) }

  /** The lines of the finished log. */
  function Written(polls: seq<string>, read: Reader): seq<Line> { Map(Split(Joined(polls)), read) }

  /** The tail numbers what parses. */
  function Tailed(seen: seq<Line>, n: nat, start: nat): seq<Item>
    requires n <= |seen|
  {
    if n == 0 then []
    else
      var before := Tailed(seen, n - 1, start);
      before + (if seen[n - 1].Good? then [Item(start + |before| + 1, seen[n - 1].raw, seen[n - 1].event)] else [])
  }

  /** What the tail makes of the tables of a job without rows. */
  function AfterTail(t: Tables, job: string, seen: seq<Line>, sha1: string -> string): Tables {
    Flush(t, job, Tailed(seen, |seen|, 0), sha1)
  }

  lemma {:induction false} TailedPrefix(a: seq<Line>, b: seq<Line>, n: nat, start: nat)
    requires n <= |a|
    ensures Tailed(a + b, n, start) == Tailed(a, n, start)
  {
    if n > 0 { TailedPrefix(a, b, n - 1, start); }
  }

  // ------------------------------------------------------------- the code

  /** The pieces of one poll: those that parse are numbered on. */
  method TakeChunk(pieces: seq<string>, read: Reader, lineNo: nat, ghost seen: seq<Line>, ghost start: nat)
    returns (batch: seq<Item>, lineNo': nat)
    requires lineNo == start + |Tailed(seen, |seen|, start)|
    ensures var all := seen + Map(pieces, read);
            && Tailed(all, |all|, start) == Tailed(seen, |seen|, start) + batch
            && lineNo' == start + |Tailed(all, |all|, start)|
  {
    ghost var more := Map(pieces, read);
    ghost var all := seen + more;
    batch, lineNo' := [], lineNo;
    TailedPrefix(seen, more, |seen|, start);
    for i := 0 to |pieces|
      invariant lineNo' == start + |Tailed(all, |seen| + i, start)|
      invariant Tailed(all, |seen| + i, start) == Tailed(seen, |seen|, start) + batch
    {
      assert all[|seen| + i] == more[i] == read(pieces[i]);
      match read(pieces[i]) {
        case Good(raw, event) =>
          lineNo' := lineNo' + 1;
          batch := batch + [Item(lineNo', raw, event)];
        case _ =>
      }
    }
  }

  /** Each poll brings the text written since the one before, wherever that ends. */
  method TailResults(store: Store, job: string, polls: seq<string>, read: Reader, start: nat)
    modifies store`detections, store`jobs
    ensures var seen := Seen(polls, read);
            store.Now() == Flush(old(store.Now()), job, Tailed(seen, |seen|, start), store.sha1)
  {
    ghost var was := store.Now();
    ghost var seen: seq<Line> := [];
    var lineNo := start;
    for p := 0 to |polls|
      invariant seen == Seen(polls[..p], read)
      invariant lineNo == start + |Tailed(seen, |seen|, start)|
      invariant store.Now() == Flush(was, job, Tailed(seen, |seen|, start), store.sha1)
    {
      var pieces := Split(polls[p]);
      FlatMapNext(polls, p, Split);
      MapConcat(FlatMap(polls[..p], Split), pieces, read);
      var batch;
      batch, lineNo := TakeChunk(pieces, read, lineNo, seen, start);
      if batch != [] {
        var n := FlushBatch(store, job, batch, was, Tailed(seen, |seen|, start));
      } else {
        assert Tailed(seen, |seen|, start) + batch == Tailed(seen, |seen|, start);
      }
      seen := seen + Map(pieces, read);
    }
    assert polls[..|polls|] == polls;
  }

  // ------------------------------------------------------------- what parses

  /** Those of the first `n` lines that parse. */
  function Goods(s: seq<Line>, n: nat): (r: seq<Line>)
    requires n <= |s|
    ensures forall l :: l in r ==> l.Good? && l in s
  {
    if n == 0 then [] else Goods(s, n - 1) + if s[n - 1].Good? then [s[n - 1]] else []
  }

  /** No detection comes after a line that does not parse. */
  predicate GoodsFirst(file: seq<Line>) {
    forall i, j :: 0 <= i < j < |file| && file[j].Good? ==> file[i].Good?
  }

  /** The same text always parses to the same event. */
  ghost predicate Alike(seen: seq<Line>, file: seq<Line>) {
    forall a, b :: a in seen && b in file && a.Good? && b.Good? && a.raw == b.raw ==> a == b
  }

  /** A job the store knows but has no rows of. */
  ghost predicate Fresh(t: Tables, job: string) {
    job in t.jobs && IndexedLines(t.jobs, job) == 0 && JobRows(t.detections, job) == {}
  }

  lemma {:induction false} TailedIs(seen: seq<Line>, n: nat, start: nat)
    requires n <= |seen|
    ensures |Tailed(seen, n, start)| == |Goods(seen, n)|
    ensures forall j :: 0 <= j < |Goods(seen, n)| ==>
              Tailed(seen, n, start)[j] == Item(start + j + 1, Goods(seen, n)[j].raw, Goods(seen, n)[j].event)
  {
    if n > 0 { TailedIs(seen, n - 1, start); }
  }

  lemma {:induction false} GoodsPrefix(s: seq<Line>, a: nat, b: nat)
    requires a <= b <= |s|
    ensures Goods(s, a) <= Goods(s, b)
  {
    if a < b { GoodsPrefix(s, a, b - 1); }
  }

  lemma {:induction false} GoodsCount(file: seq<Line>, n: nat)
    requires n <= |file|
    ensures |Goods(file, n)| == GoodLines(file, n)
  {
    if n > 0 { GoodsCount(file, n - 1); }
  }

  lemma {:induction false} GoodsAreFirst(file: seq<Line>, m: nat, n: nat)
    requires m <= |file| && n <= |file| && forall i :: 0 <= i < |file| ==> (file[i].Good? <==> i < m)
    ensures Goods(file, n) == if n <= m then file[..n] else file[..m]
  {
    if n > 0 { GoodsAreFirst(file, m, n - 1); }
  }

  lemma {:induction false} FirstItems(file: seq<Line>, m: nat)
    requires m <= |file| && forall i :: 0 <= i < m ==> file[i].Good?
    ensures |Items(file, m, 0)| == m
    ensures forall j :: 0 <= j < m ==> Items(file, m, 0)[j] == Item(j + 1, file[j].raw, file[j].event)
  {
    if m > 0 { FirstItems(file, m - 1); }
  }

  /** If what the tail has parsed is the beginning of the log, it has the numbers of the reindex. */
  lemma TailedIsItems(seen: seq<Line>, n: nat, file: seq<Line>)
    requires n <= |seen| && Goods(seen, n) <= file
    ensures Tailed(seen, n, 0) == Items(file, |Goods(seen, n)|, 0)
  {
    var m := |Goods(seen, n)|;
    assert Goods(seen, n) == file[..m];
    forall i | 0 <= i < m ensures file[i].Good? { assert Goods(seen, n)[i] == file[i]; }
    TailedIs(seen, n, 0);
    FirstItems(file, m);
  }

  lemma {:induction false} NoMoreItems(file: seq<Line>, m: nat, n: nat)
    requires m <= n <= |file| && forall i :: m <= i < n ==> !file[i].Good?
    ensures Items(file, n, 0) == Items(file, m, 0)
  {
    if m < n { NoMoreItems(file, m, n - 1); }
  }

  /** The pieces are stored under 1, 2, 3 and so on. */
  ghost predicate HoldsPieces(d: map<Key, Row>, job: string, goods: seq<Line>) {
    forall i: nat :: (Key(job, i) in d <==> 1 <= i <= |goods|)
                     && (Key(job, i) in d ==> d[Key(job, i)].raw == Raw(goods, i))
  }

  function Raw(s: seq<Line>, i: nat): string {
    if 1 <= i <= |s| && s[i - 1].Good? then s[i - 1].raw else ""
  }

  /** The lines that parse are stored under their line numbers. */
  ghost predicate HoldsLines(d: map<Key, Row>, job: string, file: seq<Line>) {
    forall i: nat :: (Key(job, i) in d <==> 1 <= i <= |file| && file[i - 1].Good?)
                     && (Key(job, i) in d ==> d[Key(job, i)].raw == Raw(file, i))
  }

  lemma TailRow(t: Tables, job: string, seen: seq<Line>, n: nat, sha1: string -> string, i: nat)
    requires Fresh(t, job) && n <= |seen|
    ensures var d := Inserted(t.detections, job, Tailed(seen, n, 0), sha1);
            && (Key(job, i) in d <==> 1 <= i <= |Goods(seen, n)|)
            && (Key(job, i) in d ==> d[Key(job, i)].raw == Raw(Goods(seen, n), i))
  {
    TailedIs(seen, n, 0);
    assert Key(job, i) !in JobRows(t.detections, job);
    NumberedRow(t.detections, job, Tailed(seen, n, 0), Goods(seen, n), sha1, i);
  }

  lemma NumberedRow(d: map<Key, Row>, job: string, items: seq<Item>, goods: seq<Line>, sha1: string -> string, i: nat)
    requires Key(job, i) !in d && |items| == |goods| && forall l :: l in goods ==> l.Good?
    requires forall j :: 0 <= j < |goods| ==> items[j] == Item(j + 1, goods[j].raw, goods[j].event)
    ensures var e := Inserted(d, job, items, sha1);
            && (Key(job, i) in e <==> 1 <= i <= |goods|) && (Key(job, i) in e ==> e[Key(job, i)].raw == Raw(goods, i))
  {
    var e, k := Inserted(d, job, items, sha1), Key(job, i);
    if 1 <= i <= |items| { InsertedHas(d, job, items, sha1, i - 1); }
    if k in e {
      InsertedSource(d, job, items, sha1, k);
      var j :| 0 <= j < |items| && k == Key(job, items[j].line) && e[k] == RowOf(items[j], sha1);
      assert goods[i - 1] in goods;
    }
  }

  lemma TailRows(t: Tables, job: string, seen: seq<Line>, n: nat, sha1: string -> string)
    requires Fresh(t, job) && n <= |seen|
    ensures HoldsPieces(Inserted(t.detections, job, Tailed(seen, n, 0), sha1), job, Goods(seen, n))
  {
    var d, goods := Inserted(t.detections, job, Tailed(seen, n, 0), sha1), Goods(seen, n);
    forall i: nat
      ensures (Key(job, i) in d <==> 1 <= i <= |goods|) && (Key(job, i) in d ==> d[Key(job, i)].raw == Raw(goods, i))
    {
      TailRow(t, job, seen, n, sha1, i);
    }
  }

  /** Column by column the row stored under `i` says what the i-th piece that parses says. */
  lemma TailRowSays(t: Tables, job: string, seen: seq<Line>, sha1: string -> string, i: nat)
    requires Fresh(t, job) && i < |Goods(seen, |seen|)|
    ensures var d, l := AfterTail(t, job, seen, sha1).detections, Goods(seen, |seen|)[i];
            l.Good? && Key(job, i + 1) in d && Says(d[Key(job, i + 1)], l.raw, l.event, sha1)
  {
    var items, goods := Tailed(seen, |seen|, 0), Goods(seen, |seen|);
    TailedIs(seen, |seen|, 0);
    assert goods[i] in goods && Key(job, i + 1) !in JobRows(t.detections, job);
    ItemRowSays(t.detections, job, items, sha1, i);
  }

  lemma ItemRowSays(d: map<Key, Row>, job: string, items: seq<Item>, sha1: string -> string, i: nat)
    requires i < |items| && Key(job, i + 1) !in d && forall j :: 0 <= j < |items| ==> items[j].line == j + 1
    ensures var e := Inserted(d, job, items, sha1);
            Key(job, i + 1) in e && Says(e[Key(job, i + 1)], items[i].raw, items[i].event, sha1)
  {
    InsertedHas(d, job, items, sha1, i);
    InsertedSource(d, job, items, sha1, Key(job, i + 1));
  }

  // ------------------------------------------------------------- the tail against the reindex

  lemma ReindexRow(t: Tables, job: string, file: seq<Line>, sha1: string -> string, i: nat)
    requires Fresh(t, job)
    ensures var d := Reindexed(t, job, file, sha1).detections;
            && (Key(job, i) in d <==> 1 <= i <= |file| && file[i - 1].Good?)
            && (Key(job, i) in d ==> d[Key(job, i)].raw == Raw(file, i))
  {
    EmptyIsSound(t, job, file, sha1);
    CompleteStoresAll(t, job, file, sha1);
    InGoodKeys(file, |file|, job, Key(job, i));
    var d := Reindexed(t, job, file, sha1).detections;
    assert Key(job, i) in JobRows(d, job) <==> Key(job, i) in d;
    if Key(job, i) in d { assert HoldsLine(d, job, file, i, sha1); }
  }

  lemma ReindexRows(t: Tables, job: string, file: seq<Line>, sha1: string -> string)
    requires Fresh(t, job)
    ensures HoldsLines(Reindexed(t, job, file, sha1).detections, job, file)
  {
    var d := Reindexed(t, job, file, sha1).detections;
    forall i: nat ensures (Key(job, i) in d <==> 1 <= i <= |file| && file[i - 1].Good?)
                          && (Key(job, i) in d ==> d[Key(job, i)].raw == Raw(file, i))
    {
      ReindexRow(t, job, file, sha1, i);
    }
  }

  /** Number i is that of a line that parses exactly if it is that of a stored piece, and they are the same. */
  predicate Agree(goods: seq<Line>, file: seq<Line>, i: nat) {
    && (i < |goods| <==> i < |file| && file[i].Good?)
    && (i < |goods| ==> goods[i] == file[i])
  }

  lemma BothHeld(d: map<Key, Row>, job: string, seen: seq<Line>, goods: seq<Line>, file: seq<Line>)
    requires HoldsPieces(d, job, goods) && HoldsLines(d, job, file)
    requires Alike(seen, file) && forall l :: l in goods ==> l.Good? && l in seen
    ensures forall i: nat :: Agree(goods, file, i)
  {
    forall i: nat ensures Agree(goods, file, i) {
      assert Key(job, i + 1) in d <==> i < |goods|;
      if i < |goods| { assert goods[i] in goods && file[i] in file; }
    }
  }

  lemma AgreeOnAll(goods: seq<Line>, file: seq<Line>)
    requires forall i: nat :: Agree(goods, file, i)
    ensures GoodsFirst(file) && goods == Goods(file, |file|)
  {
    var m := |goods|;
    assert m > 0 ==> Agree(goods, file, m - 1);
    forall i | 0 <= i < |file| ensures file[i].Good? <==> i < m { assert Agree(goods, file, i); }
    GoodsAreFirst(file, m, |file|);
    forall i | 0 <= i < m ensures goods[i] == file[..m][i] { assert Agree(goods, file, i); }
    assert goods == file[..m];
  }

  lemma SameTables(t: Tables, job: string, seen: seq<Line>, file: seq<Line>, sha1: string -> string)
    requires Fresh(t, job) && Alike(seen, file)
    requires AfterTail(t, job, seen, sha1) == Reindexed(t, job, file, sha1)
    ensures Goods(seen, |seen|) == Goods(file, |file|) && GoodsFirst(file)
  {
    TailRows(t, job, seen, |seen|, sha1);
    ReindexRows(t, job, file, sha1);
    BothHeld(Reindexed(t, job, file, sha1).detections, job, seen, Goods(seen, |seen|), file);
    AgreeOnAll(Goods(seen, |seen|), file);
  }

  lemma GoodsFirstCount(file: seq<Line>)
    requires GoodsFirst(file)
    ensures var m := |Goods(file, |file|)|;
            && m <= |file| && Goods(file, |file|) == file[..m]
            && forall i :: 0 <= i < |file| ==> (file[i].Good? <==> i < m)
  {
    var m := FirstBad(file, 0);
    forall i | m <= i < |file| ensures !file[i].Good? { assert m == i || !file[m].Good?; }
    GoodsAreFirst(file, m, |file|);
  }

  function FirstBad(file: seq<Line>, i: nat): (m: nat)
    requires i <= |file|
    ensures i <= m <= |file| && (m < |file| ==> !file[m].Good?) && forall k :: i <= k < m ==> file[k].Good?
    decreases |file| - i
  {
    if i < |file| && file[i].Good? then FirstBad(file, i + 1) else i
  }

  /**
   The tail and the reindex leave the same tables exactly when the pieces that parse are
   the lines that read, and no detection follows a line that does not.
   */
  lemma TailMatchesReindexIff(t: Tables, job: string, seen: seq<Line>, file: seq<Line>, sha1: string -> string)
    requires Fresh(t, job) && Alike(seen, file)
    ensures AfterTail(t, job, seen, sha1) == Reindexed(t, job, file, sha1) <==>
            Goods(seen, |seen|) == Goods(file, |file|) && GoodsFirst(file)
  {
    if Goods(seen, |seen|) == Goods(file, |file|) && GoodsFirst(file) {
      GoodsFirstCount(file);
      TailedIsItems(seen, |seen|, file);
      NoMoreItems(file, |Goods(file, |file|)|, |file|);
    } else if AfterTail(t, job, seen, sha1) == Reindexed(t, job, file, sha1) {
      SameTables(t, job, seen, file, sha1);
    }
  }

  function Numbered(job: string, m: nat): set<Key> {
    set i | 1 <= i <= m :: Key(job, i)
  }

  lemma {:induction false} NumberedSize(job: string, m: nat)
    ensures |Numbered(job, m)| == m
  {
    if m > 0 {
      NumberedSize(job, m - 1);
      assert Numbered(job, m) == Numbered(job, m - 1) + {Key(job, m)};
    }
  }

  /** After the tail the rows and the counter equal the number of pieces that parse. */
  lemma TailCounter(t: Tables, job: string, seen: seq<Line>, sha1: string -> string)
    requires Fresh(t, job)
    ensures var u, m := AfterTail(t, job, seen, sha1), |Goods(seen, |seen|)|;
            IndexedLines(u.jobs, job) == m && JobRows(u.detections, job) == Numbered(job, m)
  {
    var items, m := Tailed(seen, |seen|, 0), |Goods(seen, |seen|)|;
    var d := Inserted(t.detections, job, items, sha1);
    TailedIs(seen, |seen|, 0);
    TailRows(t, job, seen, |seen|, sha1);
    forall k ensures k in JobRows(d, job) <==> k in Numbered(job, m) {
      if k in JobRows(d, job) || k in Numbered(job, m) { assert k == Key(job, k.line); }
    }
    assert JobRows(d, job) == Numbered(job, m);
    NumberedSize(job, m);
    AddedIsGrowth(t.detections, job, items, sha1);
  }

  /** A boot reindex after the tail changes nothing exactly when no detection has a number above the tail's counter. */
  lemma ReindexAfterTailIsNoopIff(t: Tables, job: string, seen: seq<Line>, file: seq<Line>, sha1: string -> string)
    requires Fresh(t, job)
    ensures var u := AfterTail(t, job, seen, sha1);
            Reindexed(u, job, file, sha1) == u <==>
            forall i :: |Goods(seen, |seen|)| <= i < |file| ==> !file[i].Good?
  {
    TailCounter(t, job, seen, sha1);
    NoopIff(AfterTail(t, job, seen, sha1), job, |Goods(seen, |seen|)|, file, sha1);
  }

  lemma NoopIff(u: Tables, job: string, m: nat, file: seq<Line>, sha1: string -> string)
    requires job in u.jobs && IndexedLines(u.jobs, job) == m && JobRows(u.detections, job) == Numbered(job, m)
    ensures Reindexed(u, job, file, sha1) == u <==> forall i :: m <= i < |file| ==> !file[i].Good?
  {
    var items := Items(file, |file|, m);
    if forall i :: m <= i < |file| ==> !file[i].Good? {
      if items != [] { ItemsExact(file, |file|, m, 0); }
      FlushNothing(u, job, sha1);
    } else {
      var i :| m <= i < |file| && file[i].Good?;
      var j := ItemsHave(file, |file|, m, i + 1);
      InsertedHas(u.detections, job, items, sha1, j);
      assert Key(job, i + 1) !in Numbered(job, m);
      assert Key(job, i + 1) !in JobRows(u.detections, job);
    }
  }

  // ------------------------------------------------------------- lines that come in pieces

  function IfGood(l: Line): seq<Line> { if l.Good? then [l] else [] }

  function GoodText(read: Reader): string -> seq<Line> { (raw: string) => IfGood(read(raw)) }

  /** A piece of a line that is not the whole of it gives nothing. */
  predicate PartsFail<B(==)>(g: seq<string>, f: string -> seq<B>) {
    forall p :: p in g && p != Joined(g) ==> f(p) == []
  }

  /** The line gives something, but none of its pieces is the whole line. */
  predicate Cut<B(==)>(g: seq<string>, f: string -> seq<B>) { Joined(g) !in g && f(Joined(g)) != [] }

  predicate AllFail<B(==)>(groups: seq<seq<string>>, f: string -> seq<B>) {
    forall g :: g in groups ==> PartsFail(g, f)
  }

  predicate SomeCut<B(==)>(groups: seq<seq<string>>, f: string -> seq<B>) { exists g :: g in groups && Cut(g, f) }

  /** A piece of a line that is not the whole of it does not parse. */
  predicate NoPartParses(polls: seq<string>, read: Reader) {
    AllFail(Groups(polls), GoodText(read))
  }

  /** A poll end has cut a line that parses. */
  predicate Torn(polls: seq<string>, read: Reader) { SomeCut(Groups(polls), GoodText(read)) }

  /** What `f` makes of the pieces of a line, and of the line. */
  function OfPieces<B>(f: string -> seq<B>): seq<string> -> seq<B> { (g: seq<string>) => FlatMap(g, f) }

  function OfWhole<B>(f: string -> seq<B>): seq<string> -> seq<B> { (g: seq<string>) => f(Joined(g)) }

  lemma {:induction false} GoodsFlat(s: seq<Line>, n: nat)
    requires n <= |s|
    ensures Goods(s, n) == FlatMap(s[..n], IfGood)
  {
    if n > 0 {
      GoodsFlat(s, n - 1);
      assert s[..n][..n - 1] == s[..n - 1];
    }
  }

  lemma {:induction false} FlatMapMap<A, B, C>(s: seq<A>, r: A -> B, f: B -> seq<C>, h: A -> seq<C>)
    requires forall x :: x in s ==> h(x) == f(r(x))
    ensures FlatMap(Map(s, r), f) == FlatMap(s, h)
  {
    if s != [] {
      var init := s[..|s| - 1];
      FlatMapMap(init, r, f, h);
      assert Map(s, r)[..|init|] == Map(init, r);
    }
  }

  lemma GoodsOfTexts(texts: seq<string>, read: Reader)
    ensures var s := Map(texts, read); Goods(s, |s|) == FlatMap(texts, GoodText(read))
  {
    var s := Map(texts, read);
    GoodsFlat(s, |s|);
    assert s[..|s|] == s;
    FlatMapMap(texts, read, IfGood, GoodText(read));
  }

  lemma ByLine<B>(polls: seq<string>, f: string -> seq<B>)
    ensures FlatMap(FlatMap(polls, Split), f) == FlatMap(Groups(polls), OfPieces(f))
    ensures FlatMap(Split(Joined(polls)), f) == FlatMap(Groups(polls), OfWhole(f))
  {
    GroupsAreLines(polls);
    FlatMapTwice(Groups(polls), Itself, f, OfPieces(f));
    FlatMapMap(Groups(polls), Joined, f, OfWhole(f));
  }

  lemma SeenByLine(polls: seq<string>, read: Reader)
    ensures var seen := Seen(polls, read);
            Goods(seen, |seen|) == FlatMap(FlatMap(polls, Split), GoodText(read))
  {
    GoodsOfTexts(FlatMap(polls, Split), read);
  }

  lemma WrittenByLine(polls: seq<string>, read: Reader)
    ensures var file := Written(polls, read);
            Goods(file, |file|) == FlatMap(Split(Joined(polls)), GoodText(read))
  {
    GoodsOfTexts(Split(Joined(polls)), read);
  }

  lemma {:induction false} OnlyWhole<B>(g: seq<string>, w: string, f: string -> seq<B>)
    requires forall p :: p in g && p != w ==> f(p) == []
    requires f(w) == [] || forall i, j :: 0 <= i < j < |g| ==> g[i] != w || g[j] != w
    ensures FlatMap(g, f) == if w in g then f(w) else []
  {
    if g != [] {
      var init, last := g[..|g| - 1], g[|g| - 1];
      assert g == init + [last];
      OnlyWhole(init, w, f);
      if last == w && w in init {
        var i :| 0 <= i < |init| && init[i] == w;
        assert g[i] == w && g[|init|] == w;
      }
    }
  }

  lemma PiecesOfLine<B>(g: seq<string>, f: string -> seq<B>)
    requires f("") == [] && PartsFail(g, f)
    ensures OfPieces(f)(g) == if Joined(g) in g then OfWhole(f)(g) else []
  {
    forall i, j | 0 <= i < j < |g| && Joined(g) != "" ensures g[i] != Joined(g) || g[j] != Joined(g) {
      PieceSize(g, i, j);
    }
    OnlyWhole(g, Joined(g), f);
  }

  /** Leaving out some parts of a sequence shortens it. */
  lemma {:induction false} ThinnedIff<A, B>(s: seq<A>, thin: A -> seq<B>, full: A -> seq<B>)
    requires forall x :: x in s ==> thin(x) == full(x) || thin(x) == []
    ensures |FlatMap(s, thin)| <= |FlatMap(s, full)|
    ensures |FlatMap(s, thin)| == |FlatMap(s, full)| <==> forall x :: x in s ==> thin(x) == full(x)
    ensures FlatMap(s, thin) == FlatMap(s, full) <==> forall x :: x in s ==> thin(x) == full(x)
  {
    if s != [] {
      var init, last := s[..|s| - 1], s[|s| - 1];
      assert s == init + [last];
      ThinnedIff(init, thin, full);
    }
  }

  lemma TornGroups<B>(groups: seq<seq<string>>, f: string -> seq<B>)
    requires f("") == [] && AllFail(groups, f)
    ensures var pieces, lines := FlatMap(groups, OfPieces(f)), FlatMap(groups, OfWhole(f));
            var torn := SomeCut(groups, f);
            && |pieces| <= |lines| && (|pieces| == |lines| <==> !torn) && (pieces == lines <==> !torn)
  {
    forall g | g in groups
      ensures (OfPieces(f)(g) == OfWhole(f)(g) || OfPieces(f)(g) == [])
              && (OfPieces(f)(g) == OfWhole(f)(g) <==> !Cut(g, f))
    {
      PiecesOfLine(g, f);
    }
    ThinnedIff(groups, OfPieces(f), OfWhole(f));
  }

  lemma TornParts<B>(polls: seq<string>, f: string -> seq<B>)
    requires f("") == [] && AllFail(Groups(polls), f)
    ensures var pieces, lines := FlatMap(FlatMap(polls, Split), f), FlatMap(Split(Joined(polls)), f);
            var torn := SomeCut(Groups(polls), f);
            && |pieces| <= |lines| && (|pieces| == |lines| <==> !torn) && (pieces == lines <==> !torn)
  {
    ByLine(polls, f);
    TornGroups(Groups(polls), f);
  }

  /** The tail misses exactly the detections that a poll end has cut. */
  lemma TornIff(polls: seq<string>, read: Reader)
    requires IsReader(read) && NoPartParses(polls, read)
    ensures var seen, file := Seen(polls, read), Written(polls, read);
            && |Goods(seen, |seen|)| <= |Goods(file, |file|)|
            && (|Goods(seen, |seen|)| == |Goods(file, |file|)| <==> !Torn(polls, read))
            && (Goods(seen, |seen|) == Goods(file, |file|) <==> !Torn(polls, read))
  {
    SeenByLine(polls, read);
    WrittenByLine(polls, read);
    TornParts(polls, GoodText(read));
  }

  lemma SameReader(a: seq<string>, b: seq<string>, read: Reader)
    requires IsReader(read)
    ensures Alike(Map(a, read), Map(b, read))
  {
    var x, y := Map(a, read), Map(b, read);
    forall l, m | l in x && m in y && l.Good? && m.Good? && l.raw == m.raw ensures l == m {
      var i :| 0 <= i < |x| && x[i] == l;
      var j :| 0 <= j < |y| && y[j] == m;
      assert x[i] == read(a[i]) && y[j] == read(b[j]);
    }
  }

  /** The last line that parses has at least the number of lines that parse. */
  lemma {:induction false} LastGood(file: seq<Line>, n: nat, m: nat)
    requires n <= |file| && forall i :: m <= i < n ==> !file[i].Good?
    ensures |Goods(file, n)| <= m
    ensures |Goods(file, n)| == m && m <= n ==> forall i :: 0 <= i < m ==> file[i].Good?
  {
    if n > 0 {
      if n <= m { GoodsSize(file, n); } else { LastGood(file, n - 1, m); }
    }
  }

  lemma {:induction false} GoodsSize(file: seq<Line>, n: nat)
    requires n <= |file|
    ensures |Goods(file, n)| <= n
    ensures |Goods(file, n)| == n ==> forall i :: 0 <= i < n ==> file[i].Good?
  {
    if n > 0 { GoodsSize(file, n - 1); }
  }

  lemma MatchesUnlessTorn(t: Tables, job: string, seen: seq<Line>, file: seq<Line>, torn: bool,
                          sha1: string -> string)
    requires Fresh(t, job) && Alike(seen, file) && |Goods(seen, |seen|)| <= |Goods(file, |file|)|
    requires |Goods(seen, |seen|)| == |Goods(file, |file|)| <==> !torn
    requires Goods(seen, |seen|) == Goods(file, |file|) <==> !torn
    ensures var u := AfterTail(t, job, seen, sha1);
            && (u == Reindexed(t, job, file, sha1) <==> GoodsFirst(file) && !torn)
            && (Reindexed(u, job, file, sha1) == u <==> GoodsFirst(file) && !torn)
  {
    TailMatchesReindexIff(t, job, seen, file, sha1);
    ReindexAfterTailIsNoopIff(t, job, seen, file, sha1);
    var m := |Goods(seen, |seen|)|;
    if GoodsFirst(file) && !torn { GoodsFirstCount(file); }
    if forall i :: m <= i < |file| ==> !file[i].Good? {
      LastGood(file, |file|, m);
      GoodsSize(file, |file|);
    }
  }

  /**
   Whatever the polls bring of a log that is followed from its start: the tables agree
   exactly when the pieces that parse are the lines that parse and these come first.
   */
  lemma PolledLogMatchesIff(t: Tables, job: string, polls: seq<string>, read: Reader, sha1: string -> string)
    requires Fresh(t, job) && IsReader(read)
    ensures var seen, file := Seen(polls, read), Written(polls, read);
            AfterTail(t, job, seen, sha1) == Reindexed(t, job, file, sha1) <==>
            Goods(seen, |seen|) == Goods(file, |file|) && GoodsFirst(file)
  {
    SameReader(FlatMap(polls, Split), Split(Joined(polls)), read);
    TailMatchesReindexIff(t, job, Seen(polls, read), Written(polls, read), sha1);
  }

  /**
   So for a log that is followed from its start, whose parts of lines do not parse, the
   tail and the reindex leave the same tables exactly when no detection follows a line that
   does not parse and no poll end cuts a detection.  In the same cases a reindex after the
   tail changes nothing.
   */
  lemma TornLogMatchesIff(t: Tables, job: string, polls: seq<string>, read: Reader, sha1: string -> string)
    requires Fresh(t, job) && IsReader(read) && NoPartParses(polls, read)
    ensures var u, file := AfterTail(t, job, Seen(polls, read), sha1), Written(polls, read);
            && (u == Reindexed(t, job, file, sha1) <==> GoodsFirst(file) && !Torn(polls, read))
            && (Reindexed(u, job, file, sha1) == u <==> GoodsFirst(file) && !Torn(polls, read))
  {
    SameReader(FlatMap(polls, Split), Split(Joined(polls)), read);
    TornIff(polls, read);
    MatchesUnlessTorn(t, job, Seen(polls, read), Written(polls, read), Torn(polls, read), sha1);
  }

  lemma NothingCut<B>(groups: seq<seq<string>>, f: string -> seq<B>)
    requires forall g :: g in groups ==> |g| == 1 && Joined(g) == g[0]
    ensures AllFail(groups, f) && !SomeCut(groups, f)
  {
    forall g | g in groups ensures PartsFail(g, f) && !Cut(g, f) { assert g[0] in g; }
  }

  /** Polls that end at line ends cut nothing. */
  lemma WholePollsMatchIff(t: Tables, job: string, polls: seq<string>, read: Reader, sha1: string -> string)
    requires Fresh(t, job) && IsReader(read) && AtLineEnds(polls)
    ensures var u, file := AfterTail(t, job, Seen(polls, read), sha1), Written(polls, read);
            && (u == Reindexed(t, job, file, sha1) <==> GoodsFirst(file))
            && (Reindexed(u, job, file, sha1) == u <==> GoodsFirst(file))
  {
    WholeLinesOnly(polls);
    NothingCut(Groups(polls), GoodText(read));
    TornLogMatchesIff(t, job, polls, read, sha1);
  }

  // ------------------------------------------------------------- inputs on which they part

  lemma InsertOne(d: map<Key, Row>, job: string, i: Item, sha1: string -> string)
    ensures Inserted(d, job, [i], sha1) ==
            if Key(job, i.line) in d then d else d[Key(job, i.line) := RowOf(i, sha1)]
    ensures JobRows(Inserted(d, job, [i], sha1), job) == JobRows(d, job) + {Key(job, i.line)}
    ensures Key(job, i.line) !in d ==> |Inserted(d, job, [i], sha1)| == |d| + 1
  {
    assert [i][..|[i]| - 1] == [];
  }

  lemma OneTailed(t: Tables, job: string, i: Item, sha1: string -> string)
    requires Fresh(t, job)
    ensures var u := Flush(t, job, [i], sha1);
            JobRows(u.detections, job) == {Key(job, i.line)} && IndexedLines(u.jobs, job) == 1
  {
    InsertOne(t.detections, job, i, sha1);
    assert Key(job, i.line) !in JobRows(t.detections, job);
  }

  lemma BadLineItems(raw: string, e: Event)
    ensures var file := [Bad, Good(raw, e)];
            && Tailed(file, 2, 0) == [Item(1, raw, e)]
            && Items(file, 2, 0) == [Item(2, raw, e)] && Items(file, 2, 1) == [Item(2, raw, e)]
  {
    var file := [Bad, Good(raw, e)];
    assert Tailed(file, 0, 0) == [] && Items(file, 0, 0) == [] && Items(file, 0, 1) == [];
    assert Tailed(file, 1, 0) == [] && Items(file, 1, 0) == [] && Items(file, 1, 1) == [];
  }

  /** One bad line before a detection: the tail stores it as line 1, and the reindex again as line 2. */
  lemma BadLineStoresTwice(t: Tables, job: string, raw: string, e: Event, sha1: string -> string)
    requires Fresh(t, job)
    ensures var file := [Bad, Good(raw, e)];
            var u := AfterTail(t, job, file, sha1);
            && JobRows(u.detections, job) == {Key(job, 1)}
            && JobRows(Reindexed(t, job, file, sha1).detections, job) == {Key(job, 2)}
            && JobRows(Reindexed(u, job, file, sha1).detections, job) == {Key(job, 1), Key(job, 2)}
  {
    BadLineItems(raw, e);
    OneTailed(t, job, Item(1, raw, e), sha1);
    InsertOne(t.detections, job, Item(2, raw, e), sha1);
    InsertOne(Flush(t, job, [Item(1, raw, e)], sha1).detections, job, Item(2, raw, e), sha1);
  }

  predicate Plain(line: string) { line != "" && '\n' !in line }

  lemma {:induction false} PlainLine(line: string)
    requires Plain(line)
    ensures Split(line) == [line] && Open(line)
  {
    var init, c := line[..|line| - 1], line[|line| - 1];
    assert line == init + [c];
    if init == "" { assert Split(init) == [] && [c] == line; } else { PlainLine(init); }
  }

  lemma LineThen(line: string, rest: string)
    requires Plain(line)
    ensures Split(line + "\n" + rest) == [line] + Split(rest)
  {
    var ended := line + "\n";
    PlainLine(line);
    assert ended[..|line|] == line && ended[|line|] == '\n';
    assert Split(ended) == Put(Split(line), Open(line), '\n');
    SplitConcat(ended, rest);
    assert Join([line], Split(rest), false) == [line] + Split(rest);
  }

  lemma TwoPolls<B>(x: string, y: string, f: string -> seq<B>)
    ensures FlatMap([x, y], f) == f(x) + f(y) && Joined([x, y]) == x + y
  {
    assert [x, y][..1] == [x] && [x][..0] == [];
    assert FlatMap([x], f) == [] + f(x) && Joined([x]) == "" + x;
  }

  lemma JoinOneTwo(a: string, b: string, c: string)
    ensures Join([a], [b, c], true) == [a + b, c] && [a] + [b, c] == [a, b, c]
  {
  }

  lemma TwoLines(b: string, c: string)
    requires Plain(b) && Plain(c)
    ensures Split(b + "\n" + c) == [b, c]
  {
    PlainLine(c);
    LineThen(b, c);
  }

  lemma CutText(a: string, second: string, b: string, c: string)
    requires Plain(a) && Split(second) == [b, c]
    ensures FlatMap([a, second], Split) == [a, b, c] && Split(Joined([a, second])) == [a + b, c]
  {
    TwoPolls(a, second, Split);
    PlainLine(a);
    SplitConcat(a, second);
    JoinOneTwo(a, b, c);
  }

  /** Two lines, and a poll that ends inside the first. */
  lemma CutFirstLine(a: string, b: string, c: string)
    requires Plain(a) && Plain(b) && Plain(c)
    ensures var polls := [a, b + "\n" + c];
            FlatMap(polls, Split) == [a, b, c] && Split(Joined(polls)) == [a + b, c]
  {
    TwoLines(b, c);
    CutText(a, b + "\n" + c, b, c);
  }

  lemma CutLineItems(a: Line, b: Line, c: Line, d: Line)
    requires !a.Good? && !b.Good? && c.Good? && d.Good?
    ensures Tailed([a, b, c], 3, 0) == [Item(1, c.raw, c.event)] && Items([d, c], 2, 1) == [Item(2, c.raw, c.event)]
    ensures Items([d, c], 2, 2) == []
  {
    var s, f := [a, b, c], [d, c];
    assert Tailed(s, 0, 0) == [] && Tailed(s, 1, 0) == [] && Tailed(s, 2, 0) == [];
    assert Items(f, 0, 1) == [] && Items(f, 1, 1) == [] && Items(f, 0, 2) == [] && Items(f, 1, 2) == [];
  }

  /**
   The first of two detections is cut: the tail stores the second as line 1, a reindex
   stores it again as line 2, and the first is never stored, however often the log is
   indexed.
   */
  lemma CutLineIsLost(t: Tables, job: string, a: string, b: string, c: string, read: Reader, sha1: string -> string)
    requires Fresh(t, job) && IsReader(read) && Plain(a) && Plain(b) && Plain(c)
    requires read(a + b).Good? && read(c).Good? && !read(a).Good? && !read(b).Good?
    ensures var polls := [a, b + "\n" + c];
            var u, file := AfterTail(t, job, Seen(polls, read), sha1), Written(polls, read);
            var done := Reindexed(u, job, file, sha1);
            && JobRows(u.detections, job) == {Key(job, 1)}
            && JobRows(done.detections, job) == {Key(job, 1), Key(job, 2)}
            && (forall k :: k in JobRows(done.detections, job) ==> done.detections[k].raw == c)
            && Reindexed(done, job, file, sha1) == done
  {
    var x, y := read(a + b), read(c);
    CutLineReads(a, b, c, read);
    LostIn(t, job, [read(a), read(b), y], [x, y], sha1);
  }

  lemma CutLineReads(a: string, b: string, c: string, read: Reader)
    requires Plain(a) && Plain(b) && Plain(c)
    ensures Seen([a, b + "\n" + c], read) == [read(a), read(b), read(c)]
    ensures Written([a, b + "\n" + c], read) == [read(a + b), read(c)]
  {
    CutFirstLine(a, b, c);
    ReadTexts([a, b + "\n" + c], [a, b, c], [a + b, c], read);
  }

  lemma ReadTexts(polls: seq<string>, pieces: seq<string>, lines: seq<string>, read: Reader)
    requires FlatMap(polls, Split) == pieces && Split(Joined(polls)) == lines && |pieces| == 3 && |lines| == 2
    ensures Seen(polls, read) == [read(pieces[0]), read(pieces[1]), read(pieces[2])]
    ensures Written(polls, read) == [read(lines[0]), read(lines[1])]
  {
    FewRead(pieces, lines, read);
  }

  lemma FewRead(pieces: seq<string>, lines: seq<string>, read: Reader)
    requires |pieces| == 3 && |lines| == 2
    ensures Map(pieces, read) == [read(pieces[0]), read(pieces[1]), read(pieces[2])]
    ensures Map(lines, read) == [read(lines[0]), read(lines[1])]
  {
  }

  lemma LostIn(t: Tables, job: string, seen: seq<Line>, file: seq<Line>, sha1: string -> string)
    requires Fresh(t, job) && |seen| == 3 && !seen[0].Good? && !seen[1].Good? && seen[2].Good?
    requires |file| == 2 && file[0].Good? && file[1] == seen[2]
    ensures var u := AfterTail(t, job, seen, sha1);
            var done := Reindexed(u, job, file, sha1);
            && JobRows(u.detections, job) == {Key(job, 1)}
            && JobRows(done.detections, job) == {Key(job, 1), Key(job, 2)}
            && (forall k :: k in JobRows(done.detections, job) ==> done.detections[k].raw == file[1].raw)
            && Reindexed(done, job, file, sha1) == done
  {
    var y := file[1];
    CutLineItems(seen[0], seen[1], y, file[0]);
    assert seen == [seen[0], seen[1], y] && file == [file[0], y];
    var first, second := Item(1, y.raw, y.event), Item(2, y.raw, y.event);
    LostLine(t, job, file, first, second, sha1);
    OnlyTwo(Reindexed(Flush(t, job, [first], sha1), job, file, sha1).detections, job, y.raw);
  }

  lemma OnlyTwo(d: map<Key, Row>, job: string, raw: string)
    requires JobRows(d, job) == {Key(job, 1), Key(job, 2)}
    requires d[Key(job, 1)].raw == raw && d[Key(job, 2)].raw == raw
    ensures forall k :: k in JobRows(d, job) ==> d[k].raw == raw
  {
  }

  lemma LostLine(t: Tables, job: string, file: seq<Line>, first: Item, second: Item, sha1: string -> string)
    requires Fresh(t, job) && |file| == 2 && first.line == 1 && second.line == 2
    requires Items(file, 2, 1) == [second] && Items(file, 2, 2) == []
    ensures var u := Flush(t, job, [first], sha1);
            var done := Reindexed(u, job, file, sha1);
            && JobRows(u.detections, job) == {Key(job, 1)}
            && JobRows(done.detections, job) == {Key(job, 1), Key(job, 2)}
            && done.detections[Key(job, 1)].raw == first.raw && done.detections[Key(job, 2)].raw == second.raw
            && Reindexed(done, job, file, sha1) == done
  {
    var u := Flush(t, job, [first], sha1);
    OneTailed(t, job, first, sha1);
    InsertOne(t.detections, job, first, sha1);
    InsertOne(u.detections, job, second, sha1);
    assert Key(job, 1) !in JobRows(t.detections, job);
    assert Key(job, 2) !in JobRows(u.detections, job);
    var done := Flush(u, job, [second], sha1);
    assert IndexedLines(done.jobs, job) == 2;
    FlushNothing(done, job, sha1);
  }

  // ------------------------------------------------------------- a tail that is cut off

  /** The tables when `stored` pieces have been stored, and the last commit of the counter was for `counted`. */
  function Crashed(t: Tables, job: string, seen: seq<Line>, counted: nat, stored: nat, sha1: string -> string): Tables
    requires counted <= stored <= |seen|
  {
    Tables(Bumped(t.jobs, job, Added(t.detections, job, Tailed(seen, counted, 0), sha1)),
           Inserted(t.detections, job, Tailed(seen, stored, 0), sha1), t.feedback)
  }

  lemma {:induction false} ItemsGrow(file: seq<Line>, a: nat, b: nat)
    requires a <= b <= |file|
    ensures Items(file, a, 0) <= Items(file, b, 0)
  {
    if a < b { ItemsGrow(file, a, b - 1); }
  }

  lemma ScanIsSound(t: Tables, job: string, file: seq<Line>, sha1: string -> string, stored: nat) returns (upTo: nat)
    requires Fresh(t, job) && stored <= |file|
    ensures SoundUpTo(Flush(t, job, Items(file, stored, 0), sha1), job, file, sha1, upTo)
  {
    assert SoundUpTo(t, job, file, sha1, 0);
    var items := Items(file, stored, 0);
    var x := ItemsPrefix(file, stored, 0, |items|);
    assert items[..|items|] == items;
    upTo := BatchKeepsSound(t, job, file, sha1, 0, x, 0);
  }

  /** A scan whose counter commit covers only a first part of it leaves sound tables. */
  lemma PartlyCounted(t: Tables, job: string, file: seq<Line>, sha1: string -> string, counted: nat, stored: nat)
    requires Fresh(t, job) && counted <= stored <= |file|
    ensures Sound(Tables(Bumped(t.jobs, job, Added(t.detections, job, Items(file, counted, 0), sha1)),
                         Inserted(t.detections, job, Items(file, stored, 0), sha1), t.feedback),
                  job, file, sha1)
  {
    var upTo := ScanIsSound(t, job, file, sha1, stored);
    CountedIsLess(t.detections, job, file, sha1, counted, stored);
    CounterMayLag(t, job, file, sha1, Items(file, stored, 0),
                  Added(t.detections, job, Items(file, counted, 0), sha1), upTo);
  }

  lemma CountedIsLess(d: map<Key, Row>, job: string, file: seq<Line>, sha1: string -> string, counted: nat, stored: nat)
    requires counted <= stored <= |file|
    ensures Added(d, job, Items(file, counted, 0), sha1) <= Added(d, job, Items(file, stored, 0), sha1)
  {
    var items, n := Items(file, stored, 0), |Items(file, counted, 0)|;
    ItemsGrow(file, counted, stored);
    assert items[..n] == Items(file, counted, 0) && items[..|items|] == items;
    AddedMonotone(d, job, items, n, |items|, sha1);
  }

  lemma CounterMayLag(t: Tables, job: string, file: seq<Line>, sha1: string -> string, items: seq<Item>, added: nat,
                      upTo: nat)
    requires job in t.jobs && added <= Added(t.detections, job, items, sha1)
    requires SoundUpTo(Flush(t, job, items, sha1), job, file, sha1, upTo)
    ensures SoundUpTo(Tables(Bumped(t.jobs, job, added), Inserted(t.detections, job, items, sha1), t.feedback),
                      job, file, sha1, upTo)
  {
  }

  /** What sound tables hold under a number is the line with that number. */
  lemma SoundRow(d: map<Key, Row>, job: string, seen: seq<Line>, goods: seq<Line>, file: seq<Line>,
                 sha1: string -> string, upTo: nat, i: nat)
    requires HoldsPieces(d, job, goods) && Alike(seen, file) && forall l :: l in goods ==> l.Good? && l in seen
    requires upTo <= |file| && JobRows(d, job) == GoodKeys(file, upTo, job)
    requires forall j :: 0 < j <= upTo && file[j - 1].Good? ==> HoldsLine(d, job, file, j, sha1)
    requires 1 <= i <= |goods|
    ensures i <= |file| && goods[i - 1] == file[i - 1]
  {
    assert Key(job, i) in JobRows(d, job);
    InGoodKeys(file, upTo, job, Key(job, i));
    assert HoldsLine(d, job, file, i, sha1);
    assert goods[i - 1] in goods && file[i - 1] in file;
  }

  lemma SoundRows(cut: Tables, job: string, seen: seq<Line>, goods: seq<Line>, file: seq<Line>,
                  sha1: string -> string)
    requires HoldsPieces(cut.detections, job, goods) && Sound(cut, job, file, sha1)
    requires Alike(seen, file) && forall l :: l in goods ==> l.Good? && l in seen
    ensures goods <= file
  {
    var upTo :| SoundUpTo(cut, job, file, sha1, upTo);
    if goods != [] { SoundRow(cut.detections, job, seen, goods, file, sha1, upTo, |goods|); }
    forall i | 0 <= i < |goods| ensures goods[i] == file[i] {
      SoundRow(cut.detections, job, seen, goods, file, sha1, upTo, i + 1);
    }
  }

  lemma CrashInFirstLines(t: Tables, job: string, seen: seq<Line>, file: seq<Line>, sha1: string -> string,
                          counted: nat, stored: nat)
    requires Fresh(t, job) && counted <= stored <= |seen| && Goods(seen, stored) <= file
    ensures Sound(Crashed(t, job, seen, counted, stored, sha1), job, file, sha1)
  {
    GoodsPrefix(seen, counted, stored);
    TailedIsItems(seen, counted, file);
    TailedIsItems(seen, stored, file);
    PartlyCounted(t, job, file, sha1, |Goods(seen, counted)|, |Goods(seen, stored)|);
  }

  /**
   A tail that is cut off, also between its two commits, leaves sound tables exactly when
   the pieces stored so far are the first lines of the log.
   */
  lemma TailCrashIsSoundIff(t: Tables, job: string, seen: seq<Line>, file: seq<Line>, sha1: string -> string,
                            counted: nat, stored: nat)
    requires Fresh(t, job) && Alike(seen, file) && counted <= stored <= |seen|
    ensures Sound(Crashed(t, job, seen, counted, stored, sha1), job, file, sha1) <==> Goods(seen, stored) <= file
  {
    if Goods(seen, stored) <= file {
      CrashInFirstLines(t, job, seen, file, sha1, counted, stored);
    } else if Sound(Crashed(t, job, seen, counted, stored, sha1), job, file, sha1) {
      TailRows(t, job, seen, stored, sha1);
      SoundRows(Crashed(t, job, seen, counted, stored, sha1), job, seen, Goods(seen, stored), file, sha1);
    }
  }

  /**
   From there any run of growth, crashes and verdicts ends as usual: a completed reindex
   stores what the log holds.
   */
  lemma TailCrashIsRecovered(t: Tables, job: string, seen: seq<Line>, file: seq<Line>, sha1: string -> string,
                             counted: nat, stored: nat, run: seq<Happening>)
    requires Fresh(t, job) && Alike(seen, file) && counted <= stored <= |seen|
    requires Goods(seen, stored) <= file && Legal(file, run)
    ensures var e := After(World(file, Crashed(t, job, seen, counted, stored, sha1)), job, run, sha1);
            var done := Reindexed(e.t, job, e.file, sha1);
            && JobRows(done.detections, job) == GoodKeys(e.file, |e.file|, job)
            && (forall i :: 0 < i <= |e.file| && e.file[i - 1].Good? ==>
                  HoldsLine(done.detections, job, e.file, i, sha1))
            && Reindexed(done, job, e.file, sha1) == done
  {
    TailCrashIsSoundIff(t, job, seen, file, sha1, counted, stored);
    ReindexConverges(World(file, Crashed(t, job, seen, counted, stored, sha1)), job, run, sha1);
  }
}
