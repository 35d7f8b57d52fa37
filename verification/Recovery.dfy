/**
 Indexing one log file into the detection store: the boot reindex, which may be cut off
 by a crash at any time.  `LiveTail` says what the other indexer does.

 Rows are inserted with insert-or-ignore, and a separate counter records how many
 were new.  The two are separate commits, so a crash can fall between them.  The
 reindexer takes the counter for a line number and skips that many lines.
 */
module Recovery {
  import opened Wrappers
  import opened Store

  /** A line of the log: empty, not valid JSON, or a detection. */
  datatype Line = Blank | Bad | Good(raw: string, event: Event)

  const BATCH := 500

  // ------------------------------------------------------------- numbering

  /** The detections among the first `n` lines that come after line `skip`, by line number. */
  function Items(file: seq<Line>, n: nat, skip: nat): seq<Item>
    requires n <= |file|
  {
    if n == 0 then []
    else
      var before := Items(file, n - 1, skip);
      before + (if file[n - 1].Good? && n > skip then [Item(n, file[n - 1].raw, file[n - 1].event)] else [])
  }

  /** How many of the items are new. */
  function Added(d: map<Key, Row>, job: string, items: seq<Item>, sha1: string -> string): nat {
    InsertedGrows(d, job, items, sha1);
    |Inserted(d, job, items, sha1)| - |d|
  }

  /** Insert a batch, then add the number of new rows to the counters. */
  function Flush(t: Tables, job: string, items: seq<Item>, sha1: string -> string): Tables {
    Tables(Bumped(t.jobs, job, Added(t.detections, job, items, sha1)),
           Inserted(t.detections, job, items, sha1), t.feedback)
  }

  function Minted(t: Tables, job: string): Tables {
    if job in t.jobs then t else t.(jobs := t.jobs[job := Job(0, 0)])
  }

  /** What a reindex that is not interrupted makes of the tables. */
  function Reindexed(t: Tables, job: string, file: seq<Line>, sha1: string -> string): Tables {
    Flush(Minted(t, job), job, Items(file, |file|, IndexedLines(t.jobs, job)), sha1)
  }

  lemma {:induction false} InsertedGrows(d: map<Key, Row>, job: string, items: seq<Item>, sha1: string -> string)
    ensures |d| <= |Inserted(d, job, items, sha1)| <= |d| + |items|
  {
    if items != [] { InsertedGrows(d, job, items[..|items| - 1], sha1); }
  }

  lemma BumpTwice(jobs: map<string, Job>, job: string, a: nat, b: nat)
    ensures Bumped(Bumped(jobs, job, a), job, b) == Bumped(jobs, job, a + b)
  {
    if job in jobs {
      assert jobs[job := Job(jobs[job].indexedLines + a, jobs[job].detectionCount + a)][job].indexedLines
          == jobs[job].indexedLines + a;
    }
  }

  /** Splitting the rows into batches makes no difference to the tables. */
  lemma FlushConcat(t: Tables, job: string, a: seq<Item>, b: seq<Item>, sha1: string -> string)
    ensures Flush(Flush(t, job, a, sha1), job, b, sha1) == Flush(t, job, a + b, sha1)
  {
    var d := t.detections;
    AddedConcat(d, job, a, b, sha1);
    assert Flush(t, job, a, sha1).detections == Inserted(d, job, a, sha1);
    BumpTwice(t.jobs, job, Added(d, job, a, sha1), Added(Inserted(d, job, a, sha1), job, b, sha1));
  }

  lemma AddedConcat(d: map<Key, Row>, job: string, a: seq<Item>, b: seq<Item>, sha1: string -> string)
    ensures Inserted(d, job, a + b, sha1) == Inserted(Inserted(d, job, a, sha1), job, b, sha1)
    ensures Added(d, job, a + b, sha1) == Added(d, job, a, sha1) + Added(Inserted(d, job, a, sha1), job, b, sha1)
  {
    InsertedConcat(d, job, a, b, sha1);
  }

  lemma FlushNothing(t: Tables, job: string, sha1: string -> string)
    ensures Flush(t, job, [], sha1) == t
  {
  }

  // ------------------------------------------------------------- the two indexers

  method InsertAndBump(store: Store, job: string, batch: seq<Item>) returns (inserted: nat)
    modifies store`detections, store`jobs
    ensures store.Now() == Flush(old(store.Now()), job, batch, store.sha1)
    ensures inserted == |store.detections| - |old(store.detections)|
  {
    inserted := store.InsertDetections(job, batch);
    store.BumpIndexedLines(job, inserted);
  }

  /** A batch goes on top of the rows of `flushed`. */
  method FlushBatch(store: Store, job: string, batch: seq<Item>, ghost start: Tables, ghost flushed: seq<Item>)
    returns (inserted: nat)
    requires store.Now() == Flush(start, job, flushed, store.sha1)
    modifies store`detections, store`jobs
    ensures store.Now() == Flush(start, job, flushed + batch, store.sha1)
    ensures inserted == |store.detections| - |old(store.detections)|
  {
    FlushConcat(start, job, flushed, batch, store.sha1);
    inserted := InsertAndBump(store, job, batch);
  }

  /** The boot reindex of one job's log; returns the number of rows it added. */
  method ReindexJob(store: Store, job: string, file: seq<Line>) returns (added: nat)
    modifies store`detections, store`jobs
    ensures store.Now() == Reindexed(old(store.Now()), job, file, store.sha1)
    ensures added == |store.detections| - |old(store.detections)|
  {
    ghost var was := store.Now();
    store.MintJob(job);
    ghost var start := Minted(was, job);
    var already := if job in store.jobs then store.jobs[job].indexedLines else 0;
    var batch: seq<Item> := [];
    ghost var flushed: seq<Item> := [];
    added := 0;
    var lineNo := 0;
    FlushNothing(start, job, store.sha1);
    while lineNo < |file|
      invariant 0 <= lineNo <= |file| && |batch| < BATCH
      invariant flushed + batch == Items(file, lineNo, already)
      invariant store.Now() == Flush(start, job, flushed, store.sha1)
      invariant added == |store.detections| - |was.detections|
    {
      var l := file[lineNo];
      lineNo := lineNo + 1;
      if lineNo > already && l.Good? {
        batch := batch + [Item(lineNo, l.raw, l.event)];
        if |batch| >= BATCH {
          var n := FlushBatch(store, job, batch, start, flushed);
          flushed, added, batch := flushed + batch, added + n, [];
          assert flushed + batch == flushed;
        }
      }
    }
    if batch != [] {
      var n := FlushBatch(store, job, batch, start, flushed);
      added := added + n;
    } else {
      assert flushed == flushed + batch;
    }
  }

  // ------------------------------------------------------------- crashes and growth

  /**
   The tables after the first `commits` commits of a reindex over `items`: each
   batch commits its rows first and its counter second.
   */
  function Interrupted(t: Tables, job: string, items: seq<Item>, commits: nat, sha1: string -> string): Tables
    decreases |items|
  {
    if commits == 0 || items == [] then t
    else
      var size := if |items| <= BATCH then |items| else BATCH;
      if commits == 1 then t.(detections := Inserted(t.detections, job, items[..size], sha1))
      else Interrupted(Flush(t, job, items[..size], sha1), job, items[size..], commits - 2, sha1)
  }

  /** A log only grows at its end, and only its last line can still be incomplete. */
  predicate Grows(file: seq<Line>, file': seq<Line>) {
    |file| <= |file'| &&
    forall i :: 0 <= i < |file| ==> file'[i] == file[i] || (i == |file| - 1 && !file[i].Good?)
  }

  function JobRows(d: map<Key, Row>, job: string): set<Key> {
    set k | k in d && k.job == job
  }

  /** The keys of the detections among the first `n` lines. */
  function GoodKeys(file: seq<Line>, n: nat, job: string): set<Key>
    requires n <= |file|
  {
    if n == 0 then {}
    else if file[n - 1].Good? then GoodKeys(file, n - 1, job) + {Key(job, n)}
    else GoodKeys(file, n - 1, job)
  }

  /** There is a row for line `i`, and it says what the line says. */
  predicate HoldsLine(d: map<Key, Row>, job: string, file: seq<Line>, i: nat, sha1: string -> string) {
    && 0 < i <= |file| && file[i - 1].Good? && Key(job, i) in d
    && Says(d[Key(job, i)], file[i - 1].raw, file[i - 1].event, sha1)
  }

  /** Exactly the detections up to line `upTo` are stored, and the counter does not exceed their number. */
  ghost predicate SoundUpTo(t: Tables, job: string, file: seq<Line>, sha1: string -> string, upTo: nat) {
    && upTo <= |file| && (upTo > 0 ==> file[upTo - 1].Good?)
    && JobRows(t.detections, job) == GoodKeys(file, upTo, job)
    && (forall i :: 0 < i <= upTo && file[i - 1].Good? ==> HoldsLine(t.detections, job, file, i, sha1))
    && IndexedLines(t.jobs, job) <= |GoodKeys(file, upTo, job)|
  }

  ghost predicate Sound(t: Tables, job: string, file: seq<Line>, sha1: string -> string) {
    exists upTo :: SoundUpTo(t, job, file, sha1, upTo)
  }

  lemma {:induction false} InGoodKeys(file: seq<Line>, n: nat, job: string, k: Key)
    requires n <= |file|
    ensures k in GoodKeys(file, n, job) <==> k.job == job && 0 < k.line <= n && file[k.line - 1].Good?
  {
    if n > 0 { InGoodKeys(file, n - 1, job, k); }
  }

  lemma GoodKeysBound(file: seq<Line>, n: nat, job: string)
    requires n <= |file|
    ensures |GoodKeys(file, n, job)| <= n
    ensures |GoodKeys(file, n, job)| == |Items(file, n, 0)|
  {
    GoodKeysCount(file, n, job);
    ItemsCount(file, n);
  }

  function GoodLines(file: seq<Line>, n: nat): (c: nat)
    requires n <= |file|
    ensures c <= n
  {
    if n == 0 then 0 else GoodLines(file, n - 1) + if file[n - 1].Good? then 1 else 0
  }

  lemma {:induction false} ItemsCount(file: seq<Line>, n: nat)
    requires n <= |file|
    ensures |Items(file, n, 0)| == GoodLines(file, n)
  {
    if n > 0 { ItemsCount(file, n - 1); }
  }

  lemma NotYetGood(file: seq<Line>, n: nat, job: string)
    requires n <= |file|
    ensures Key(job, n + 1) !in GoodKeys(file, n, job)
  {
    InGoodKeys(file, n, job, Key(job, n + 1));
  }

  lemma {:induction false} GoodKeysCount(file: seq<Line>, n: nat, job: string)
    requires n <= |file|
    ensures |GoodKeys(file, n, job)| == GoodLines(file, n)
  {
    if n > 0 {
      GoodKeysCount(file, n - 1, job);
      NotYetGood(file, n - 1, job);
      if file[n - 1].Good? { AddKey(GoodKeys(file, n - 1, job), Key(job, n)); }
    }
  }

  lemma AddKey(keys: set<Key>, k: Key)
    requires k !in keys
    ensures |keys + {k}| == |keys| + 1
  {
  }

  lemma {:induction false} GoodKeysSame(file: seq<Line>, file': seq<Line>, n: nat, job: string)
    requires n <= |file| && n <= |file'| && forall i :: 0 <= i < n ==> file[i] == file'[i]
    ensures GoodKeys(file, n, job) == GoodKeys(file', n, job)
  {
    if n > 0 { GoodKeysSame(file, file', n - 1, job); }
  }

  /** Growth of the log cannot touch what has been stored. */
  lemma GrowthKeepsSound(t: Tables, job: string, file: seq<Line>, file': seq<Line>, sha1: string -> string, upTo: nat)
    requires SoundUpTo(t, job, file, sha1, upTo) && Grows(file, file')
    ensures SoundUpTo(t, job, file', sha1, upTo)
  {
    GoodKeysSame(file, file', upTo, job);
    forall i | 0 < i <= upTo && file'[i - 1].Good? ensures HoldsLine(t.detections, job, file', i, sha1) {
      assert HoldsLine(t.detections, job, file, i, sha1);
    }
  }

  lemma {:induction false} ItemsExact(file: seq<Line>, n: nat, skip: nat, j: nat)
    requires n <= |file| && j < |Items(file, n, skip)|
    ensures var it := Items(file, n, skip)[j];
            skip < it.line <= n && file[it.line - 1].Good? &&
            it == Item(it.line, file[it.line - 1].raw, file[it.line - 1].event)
  {
    if j < |Items(file, n - 1, skip)| { ItemsExact(file, n - 1, skip, j); }
  }

  lemma {:induction false} ItemsHave(file: seq<Line>, n: nat, skip: nat, i: nat) returns (j: nat)
    requires n <= |file| && skip < i <= n && file[i - 1].Good?
    ensures j < |Items(file, n, skip)| && Items(file, n, skip)[j].line == i
  {
    if i == n {
      j := |Items(file, n - 1, skip)|;
    } else {
      j := ItemsHave(file, n - 1, skip, i);
    }
  }

  /** The first items of a scan are the items of a shorter scan. */
  lemma {:induction false} ItemsPrefix(file: seq<Line>, n: nat, skip: nat, m: nat) returns (x: nat)
    requires n <= |file| && m <= |Items(file, n, skip)|
    ensures x <= n && Items(file, x, skip) == Items(file, n, skip)[..m]
    ensures m > 0 ==> x > skip && file[x - 1].Good?
    ensures m == 0 ==> x == 0
  {
    if m == 0 {
      x := 0;
    } else if m <= |Items(file, n - 1, skip)| {
      x := ItemsPrefix(file, n - 1, skip, m);
    } else {
      x := n;
    }
  }

  /** A row the scan adds is the row of one of the lines it read. */
  lemma NewRow(d: map<Key, Row>, job: string, file: seq<Line>, sha1: string -> string, x: nat, skip: nat, k: Key)
    requires x <= |file| && k !in d && k in Inserted(d, job, Items(file, x, skip), sha1)
    ensures k.job == job && skip < k.line <= x
    ensures HoldsLine(Inserted(d, job, Items(file, x, skip), sha1), job, file, k.line, sha1)
  {
    var items := Items(file, x, skip);
    InsertedSource(d, job, items, sha1, k);
    var j :| 0 <= j < |items| && k == Key(job, items[j].line) &&
             Inserted(d, job, items, sha1)[k] == RowOf(items[j], sha1);
    ItemsExact(file, x, skip, j);
    RowSays(items[j], sha1);
  }

  lemma NewLine(d: map<Key, Row>, job: string, file: seq<Line>, sha1: string -> string, x: nat, skip: nat, i: nat)
    requires skip < i <= x <= |file| && file[i - 1].Good? && Key(job, i) !in d
    ensures HoldsLine(Inserted(d, job, Items(file, x, skip), sha1), job, file, i, sha1)
  {
    var j := ItemsHave(file, x, skip, i);
    InsertedHas(d, job, Items(file, x, skip), sha1, j);
    NewRow(d, job, file, sha1, x, skip, Key(job, i));
  }

  /** Every line of the longer part is stored. */
  lemma LineStored(t: Tables, job: string, file: seq<Line>, sha1: string -> string, upTo: nat, x: nat, skip: nat,
                   i: nat)
    requires SoundUpTo(t, job, file, sha1, upTo) && x <= |file| && skip <= upTo
    requires 0 < i <= |file| && file[i - 1].Good? && (i <= upTo || i <= x)
    ensures HoldsLine(Inserted(t.detections, job, Items(file, x, skip), sha1), job, file, i, sha1)
  {
    if i <= upTo {
      assert HoldsLine(t.detections, job, file, i, sha1);
      InsertedKeeps(t.detections, job, Items(file, x, skip), sha1);
    } else {
      InGoodKeys(file, upTo, job, Key(job, i));
      assert Key(job, i) !in JobRows(t.detections, job);
      NewLine(t.detections, job, file, sha1, x, skip, i);
    }
  }

  /** Nothing else of the job is stored. */
  lemma NothingElseStored(t: Tables, job: string, file: seq<Line>, sha1: string -> string, upTo: nat, x: nat,
                          skip: nat, k: Key)
    requires SoundUpTo(t, job, file, sha1, upTo) && x <= |file|
    requires k in Inserted(t.detections, job, Items(file, x, skip), sha1) && k.job == job
    ensures k in GoodKeys(file, if x > upTo then x else upTo, job)
  {
    InGoodKeys(file, if x > upTo then x else upTo, job, k);
    if k in t.detections {
      assert k in JobRows(t.detections, job);
      InGoodKeys(file, upTo, job, k);
    } else {
      NewRow(t.detections, job, file, sha1, x, skip, k);
    }
  }

  /** Storing a scan from below the stored lines extends them to a longer initial part of the log. */
  lemma InsertExtends(t: Tables, job: string, file: seq<Line>, sha1: string -> string, upTo: nat, x: nat, skip: nat)
    requires SoundUpTo(t, job, file, sha1, upTo) && x <= |file| && skip <= upTo
    ensures var d := Inserted(t.detections, job, Items(file, x, skip), sha1);
            var top := if x > upTo then x else upTo;
            && JobRows(d, job) == GoodKeys(file, top, job)
            && forall i :: 0 < i <= top && file[i - 1].Good? ==> HoldsLine(d, job, file, i, sha1)
  {
    var d := Inserted(t.detections, job, Items(file, x, skip), sha1);
    var top := if x > upTo then x else upTo;
    forall i | 0 < i <= top && file[i - 1].Good? ensures HoldsLine(d, job, file, i, sha1) {
      LineStored(t, job, file, sha1, upTo, x, skip, i);
    }
    forall k | k in JobRows(d, job) ensures k in GoodKeys(file, top, job) {
      NothingElseStored(t, job, file, sha1, upTo, x, skip, k);
    }
    forall k | k in GoodKeys(file, top, job) ensures k in JobRows(d, job) {
      InGoodKeys(file, top, job, k);
      assert HoldsLine(d, job, file, k.line, sha1);
    }
  }

  // ------------------------------------------------------------- every run

  /** The rows of other jobs do not count: the counter moves by the growth of this job's rows. */
  lemma {:induction false} AddedIsGrowth(d: map<Key, Row>, job: string, items: seq<Item>, sha1: string -> string)
    ensures Added(d, job, items, sha1) == |JobRows(Inserted(d, job, items, sha1), job)| - |JobRows(d, job)|
  {
    if items != [] {
      var init, last := items[..|items| - 1], items[|items| - 1];
      var e, f := Inserted(d, job, init, sha1), Inserted(d, job, items, sha1);
      AddedIsGrowth(d, job, init, sha1);
      if Key(job, last.line) !in e {
        assert JobRows(f, job) == JobRows(e, job) + {Key(job, last.line)};
      }
    }
  }

  lemma SoundRowCount(t: Tables, job: string, file: seq<Line>, sha1: string -> string, upTo: nat)
    requires SoundUpTo(t, job, file, sha1, upTo)
    ensures IndexedLines(t.jobs, job) <= |JobRows(t.detections, job)| <= upTo
  {
    GoodKeysBound(file, upTo, job);
  }

  /** A batch taken from a scan keeps the tables sound, with or without its counter commit. */
  lemma BatchKeepsSound(t: Tables, job: string, file: seq<Line>, sha1: string -> string, upTo: nat, x: nat, skip: nat)
    returns (upTo': nat)
    requires SoundUpTo(t, job, file, sha1, upTo) && job in t.jobs
    requires x <= |file| && skip <= upTo && (x > 0 ==> file[x - 1].Good?)
    ensures var items := Items(file, x, skip);
            && upTo' >= upTo && upTo' >= x
            && SoundUpTo(t.(detections := Inserted(t.detections, job, items, sha1)), job, file, sha1, upTo')
            && SoundUpTo(Flush(t, job, items, sha1), job, file, sha1, upTo')
  {
    var items := Items(file, x, skip);
    upTo' := if x > upTo then x else upTo;
    InsertExtends(t, job, file, sha1, upTo, x, skip);
    AddedIsGrowth(t.detections, job, items, sha1);
  }

  /** The tables with this many of the items counted and stored. */
  function Partly(t: Tables, job: string, items: seq<Item>, counted: nat, stored: nat, sha1: string -> string): Tables
    requires counted <= |items| && stored <= |items|
  {
    Tables(Bumped(t.jobs, job, Added(t.detections, job, items[..counted], sha1)),
           Inserted(t.detections, job, items[..stored], sha1), t.feedback)
  }

  lemma InterruptedOnce(t: Tables, job: string, items: seq<Item>, size: nat, sha1: string -> string)
    requires items != [] && size == if |items| <= 500 then |items| else 500
    ensures Interrupted(t, job, items, 1, sha1) == t.(detections := Inserted(t.detections, job, items[..size], sha1))
  {
  }

  lemma InterruptedStep(t: Tables, job: string, items: seq<Item>, commits: nat, size: nat, sha1: string -> string)
    requires commits >= 2 && items != [] && size == if |items| <= BATCH then |items| else BATCH
    ensures Interrupted(t, job, items, commits, sha1)
         == Interrupted(Flush(t, job, items[..size], sha1), job, items[size..], commits - 2, sha1)
  {
  }

  ghost predicate IsPart(t: Tables, job: string, items: seq<Item>, commits: nat, counted: nat, stored: nat,
                         sha1: string -> string)
  {
    && counted <= stored <= |items|
    && Interrupted(t, job, items, commits, sha1) == Partly(t, job, items, counted, stored, sha1)
  }

  lemma PartLater(t: Tables, job: string, items: seq<Item>, commits: nat, size: nat, rest: Tables, later: seq<Item>,
                  c: nat, s: nat, sha1: string -> string)
    returns (counted: nat, stored: nat)
    requires commits >= 2 && items != [] && size == if |items| <= BATCH then |items| else BATCH
    requires rest == Flush(t, job, items[..size], sha1) && later == items[size..]
    requires IsPart(rest, job, later, commits - 2, c, s, sha1)
    ensures IsPart(t, job, items, commits, counted, stored, sha1)
  {
    counted, stored := size + c, size + s;
    InterruptedStep(t, job, items, commits, size, sha1);
    PartlyAfter(t, job, items, size, c, s, sha1);
  }

  /** An interrupted reindex has stored a first part of the items and counted a first part of that. */
  lemma {:induction false} InterruptedShape(t: Tables, job: string, items: seq<Item>, commits: nat,
                                            sha1: string -> string)
    returns (counted: nat, stored: nat)
    ensures IsPart(t, job, items, commits, counted, stored, sha1)
    decreases |items|, 1
  {
    if commits == 0 || items == [] {
      counted, stored := 0, 0;
      PartlyNothing(t, job, items, sha1);
    } else {
      var size := if |items| <= BATCH then |items| else BATCH;
      if commits == 1 {
        counted, stored := 0, size;
        PartlyStored(t, job, items, size, sha1);
        InterruptedOnce(t, job, items, size, sha1);
      } else {
        counted, stored := InterruptedLater(t, job, items, commits, size, sha1);
      }
    }
  }

  lemma {:induction false} InterruptedLater(t: Tables, job: string, items: seq<Item>, commits: nat, size: nat,
                                            sha1: string -> string)
    returns (counted: nat, stored: nat)
    requires commits >= 2 && items != [] && size == if |items| <= BATCH then |items| else BATCH
    ensures IsPart(t, job, items, commits, counted, stored, sha1)
    decreases |items|, 0
  {
    var rest, later := Flush(t, job, items[..size], sha1), items[size..];
    var c, s := InterruptedShape(rest, job, later, commits - 2, sha1);
    counted, stored := PartLater(t, job, items, commits, size, rest, later, c, s, sha1);
  }

  lemma PartlyNothing(t: Tables, job: string, items: seq<Item>, sha1: string -> string)
    ensures Partly(t, job, items, 0, 0, sha1) == t
  {
    BumpNothing(t.jobs, job);
    assert items[..0] == [];
  }

  lemma PartlyStored(t: Tables, job: string, items: seq<Item>, stored: nat, sha1: string -> string)
    requires stored <= |items|
    ensures Partly(t, job, items, 0, stored, sha1)
         == t.(detections := Inserted(t.detections, job, items[..stored], sha1))
  {
    BumpNothing(t.jobs, job);
    assert items[..0] == [];
  }

  lemma PartlyAfter(t: Tables, job: string, items: seq<Item>, size: nat, c: nat, s: nat, sha1: string -> string)
    requires size + c <= |items| && size + s <= |items|
    ensures Partly(Flush(t, job, items[..size], sha1), job, items[size..], c, s, sha1)
         == Partly(t, job, items, size + c, size + s, sha1)
  {
    SplitPrefix(items, size, c);
    SplitPrefix(items, size, s);
    ShapeStep(t, job, items[..size], items[size..][..c], items[size..][..s], sha1);
  }

  lemma SplitPrefix(items: seq<Item>, size: nat, n: nat)
    requires size + n <= |items|
    ensures items[..size + n] == items[..size] + items[size..][..n]
  {
  }

  lemma ShapeStep(t: Tables, job: string, first: seq<Item>, c: seq<Item>, s: seq<Item>, sha1: string -> string)
    ensures var u := Flush(t, job, first, sha1);
            && Bumped(u.jobs, job, Added(u.detections, job, c, sha1)) ==
                 Bumped(t.jobs, job, Added(t.detections, job, first + c, sha1))
            && Inserted(u.detections, job, s, sha1) == Inserted(t.detections, job, first + s, sha1)
  {
    FlushConcat(t, job, first, c, sha1);
    InsertedConcat(t.detections, job, first, s, sha1);
  }

  lemma BumpNothing(jobs: map<string, Job>, job: string)
    ensures Bumped(jobs, job, 0) == jobs
  {
  }

  /** A reindex that reaches its last commit has done what the uninterrupted one does. */
  lemma {:induction false} InterruptedNever(t: Tables, job: string, items: seq<Item>, commits: nat,
                                            sha1: string -> string)
    requires commits >= 2 * |items|
    ensures Interrupted(t, job, items, commits, sha1) == Flush(t, job, items, sha1)
    decreases |items|
  {
    if items == [] {
      FlushNothing(t, job, sha1);
    } else {
      var size := if |items| <= BATCH then |items| else BATCH;
      var first, rest := items[..size], items[size..];
      InterruptedStep(t, job, items, commits, size, sha1);
      InterruptedNever(Flush(t, job, first, sha1), job, rest, commits - 2, sha1);
      FlushConcat(t, job, first, rest, sha1);
      assert items == first + rest;
    }
  }

  lemma AddedMonotone(d: map<Key, Row>, job: string, items: seq<Item>, a: nat, b: nat, sha1: string -> string)
    requires a <= b <= |items|
    ensures Added(d, job, items[..a], sha1) <= Added(d, job, items[..b], sha1)
  {
    assert items[..b] == items[..a] + items[a..b];
    InsertedConcat(d, job, items[..a], items[a..b], sha1);
    InsertedGrows(Inserted(d, job, items[..a], sha1), job, items[a..b], sha1);
  }

  /** Wherever a reindex is cut off, the tables stay sound. */
  lemma CrashKeepsSound(t: Tables, job: string, file: seq<Line>, sha1: string -> string, commits: nat)
    requires Sound(t, job, file, sha1) && job in t.jobs
    ensures Sound(Interrupted(t, job, Items(file, |file|, IndexedLines(t.jobs, job)), commits, sha1), job, file, sha1)
  {
    var upTo :| SoundUpTo(t, job, file, sha1, upTo);
    SoundRowCount(t, job, file, sha1, upTo);
    var skip := IndexedLines(t.jobs, job);
    var items := Items(file, |file|, skip);
    var counted, stored := InterruptedShape(t, job, items, commits, sha1);
    var x := ItemsPrefix(file, |file|, skip, stored);
    var upTo' := BatchKeepsSound(t, job, file, sha1, upTo, x, skip);
    AddedMonotone(t.detections, job, items, counted, stored, sha1);
    assert SoundUpTo(Interrupted(t, job, items, commits, sha1), job, file, sha1, upTo');
  }

  /** A log on disk together with the tables. */
  datatype World = World(file: seq<Line>, t: Tables)

  datatype Happening =
    | Grow(file: seq<Line>)
    | Reindex(commits: nat)
    | Judge(line: nat, v: Option<Verdict>, now: real)

  function Next(w: World, job: string, e: Happening, sha1: string -> string): World {
    match e
    case Grow(file) => w.(file := file)
    case Reindex(commits) =>
      var t := Minted(w.t, job);
      w.(t := Interrupted(t, job, Items(w.file, |w.file|, IndexedLines(t.jobs, job)), commits, sha1))
    case Judge(line, v, now) =>
      if Key(job, line) in w.t.detections then w.(t := WithVerdict(w.t, Key(job, line), v, now)) else w
  }

  function After(w: World, job: string, run: seq<Happening>, sha1: string -> string): World
    decreases |run|
  {
    if run == [] then w else After(Next(w, job, run[0], sha1), job, run[1..], sha1)
  }

  /** The log is only ever appended to. */
  predicate Legal(file: seq<Line>, run: seq<Happening>)
    decreases |run|
  {
    run == [] ||
    if run[0].Grow? then Grows(file, run[0].file) && Legal(run[0].file, run[1..]) else Legal(file, run[1..])
  }

  lemma MintKeepsSound(t: Tables, job: string, file: seq<Line>, sha1: string -> string)
    requires Sound(t, job, file, sha1)
    ensures Sound(Minted(t, job), job, file, sha1)
  {
    var upTo :| SoundUpTo(t, job, file, sha1, upTo);
    assert SoundUpTo(Minted(t, job), job, file, sha1, upTo);
  }

  lemma JudgeKeepsSound(t: Tables, job: string, file: seq<Line>, sha1: string -> string, line: nat,
                        v: Option<Verdict>, now: real)
    requires Sound(t, job, file, sha1) && Key(job, line) in t.detections
    ensures Sound(WithVerdict(t, Key(job, line), v, now), job, file, sha1)
  {
    var upTo :| SoundUpTo(t, job, file, sha1, upTo);
    var u := WithVerdict(t, Key(job, line), v, now);
    assert JobRows(u.detections, job) == JobRows(t.detections, job);
    forall i | 0 < i <= upTo && file[i - 1].Good? ensures HoldsLine(u.detections, job, file, i, sha1) {
      assert HoldsLine(t.detections, job, file, i, sha1);
    }
    assert SoundUpTo(u, job, file, sha1, upTo);
  }

  /** Over every run of growth, interrupted and complete reindexing, and verdicts, the tables stay sound. */
  lemma {:induction false} RunsStaySound(w: World, job: string, run: seq<Happening>, sha1: string -> string)
    requires Sound(w.t, job, w.file, sha1) && Legal(w.file, run)
    ensures var e := After(w, job, run, sha1); Sound(e.t, job, e.file, sha1)
    decreases |run|
  {
    if run != [] {
      var next := Next(w, job, run[0], sha1);
      match run[0] {
        case Grow(file) =>
          var upTo :| SoundUpTo(w.t, job, w.file, sha1, upTo);
          GrowthKeepsSound(w.t, job, w.file, file, sha1, upTo);
        case Reindex(commits) =>
          MintKeepsSound(w.t, job, w.file, sha1);
          CrashKeepsSound(Minted(w.t, job), job, w.file, sha1, commits);
        case Judge(line, v, now) =>
          if Key(job, line) in w.t.detections { JudgeKeepsSound(w.t, job, w.file, sha1, line, v, now); }
      }
      RunsStaySound(next, job, run[1..], sha1);
    }
  }

  /** In sound tables the counter never exceeds the rows, and every detection numbered at or below it is stored. */
  lemma SoundMeans(t: Tables, job: string, file: seq<Line>, sha1: string -> string)
    requires Sound(t, job, file, sha1)
    ensures IndexedLines(t.jobs, job) <= |JobRows(t.detections, job)|
    ensures forall i :: 0 < i <= |file| && i <= IndexedLines(t.jobs, job) && file[i - 1].Good? ==>
              HoldsLine(t.detections, job, file, i, sha1)
  {
    var upTo :| SoundUpTo(t, job, file, sha1, upTo);
    SoundRowCount(t, job, file, sha1, upTo);
  }

  lemma {:induction false} InsertedNoop(d: map<Key, Row>, job: string, items: seq<Item>, sha1: string -> string)
    requires forall i :: 0 <= i < |items| ==> Key(job, items[i].line) in d
    ensures Inserted(d, job, items, sha1) == d
  {
    if items != [] {
      var init := items[..|items| - 1];
      forall i | 0 <= i < |init| ensures Key(job, init[i].line) in d { assert init[i] == items[i]; }
      InsertedNoop(d, job, init, sha1);
    }
  }

  /**
   Recovery converges: whatever growth and crashes came before, a reindex that
   completes leaves exactly the detections of the log, and another one changes nothing.
   */
  lemma ReindexConverges(w: World, job: string, run: seq<Happening>, sha1: string -> string)
    requires Sound(w.t, job, w.file, sha1) && Legal(w.file, run)
    ensures var e := After(w, job, run, sha1);
            var done := Reindexed(e.t, job, e.file, sha1);
            && JobRows(done.detections, job) == GoodKeys(e.file, |e.file|, job)
            && (forall i :: 0 < i <= |e.file| && e.file[i - 1].Good? ==>
                  HoldsLine(done.detections, job, e.file, i, sha1))
            && Reindexed(done, job, e.file, sha1) == done
  {
    RunsStaySound(w, job, run, sha1);
    var e := After(w, job, run, sha1);
    MintKeepsSound(e.t, job, e.file, sha1);
    CompleteStoresAll(Minted(e.t, job), job, e.file, sha1);
    AnotherChangesNothing(Reindexed(e.t, job, e.file, sha1), job, e.file, sha1);
  }

  /** A job without rows is where runs start. */
  lemma EmptyIsSound(t: Tables, job: string, file: seq<Line>, sha1: string -> string)
    requires JobRows(t.detections, job) == {} && IndexedLines(t.jobs, job) == 0
    ensures Sound(t, job, file, sha1)
  {
    assert SoundUpTo(t, job, file, sha1, 0);
  }

  lemma AnotherChangesNothing(t: Tables, job: string, file: seq<Line>, sha1: string -> string)
    requires job in t.jobs
    requires forall i :: 0 < i <= |file| && file[i - 1].Good? ==> HoldsLine(t.detections, job, file, i, sha1)
    ensures Reindexed(t, job, file, sha1) == t
  {
    var skip := IndexedLines(t.jobs, job);
    var again := Items(file, |file|, skip);
    forall j | 0 <= j < |again| ensures Key(job, again[j].line) in t.detections {
      ItemsExact(file, |file|, skip, j);
      assert HoldsLine(t.detections, job, file, again[j].line, sha1);
    }
    InsertedNoop(t.detections, job, again, sha1);
    BumpNothing(t.jobs, job);
  }

  /** Both counters of the job stand at the same number. */
  predicate SameCounters(jobs: map<string, Job>, job: string) {
    job in jobs ==> jobs[job].detectionCount == jobs[job].indexedLines
  }

  lemma {:induction false} InterruptedCounters(t: Tables, job: string, items: seq<Item>, commits: nat,
                                               sha1: string -> string)
    requires SameCounters(t.jobs, job)
    ensures SameCounters(Interrupted(t, job, items, commits, sha1).jobs, job)
    decreases |items|
  {
    if commits > 1 && items != [] {
      var size := if |items| <= BATCH then |items| else BATCH;
      InterruptedCounters(Flush(t, job, items[..size], sha1), job, items[size..], commits - 2, sha1);
    }
  }

  /** The two counters never part, wherever a reindex is cut off. */
  lemma {:induction false} CountersStayEqual(w: World, job: string, run: seq<Happening>, sha1: string -> string)
    requires SameCounters(w.t.jobs, job)
    ensures SameCounters(After(w, job, run, sha1).t.jobs, job)
    decreases |run|
  {
    if run != [] {
      if run[0].Reindex? {
        var t := Minted(w.t, job);
        InterruptedCounters(t, job, Items(w.file, |w.file|, IndexedLines(t.jobs, job)), run[0].commits, sha1);
      }
      CountersStayEqual(Next(w, job, run[0], sha1), job, run[1..], sha1);
    }
  }

  /**
   A complete reindex leaves the number of detections of the log in the counter exactly when the
   counter agreed with the rows before: what a crash lost is never made up.
   */
  lemma CounterIsExactIff(t: Tables, job: string, file: seq<Line>, sha1: string -> string)
    requires Sound(t, job, file, sha1)
    ensures var done := Reindexed(t, job, file, sha1);
            && job in done.jobs
            && (done.jobs[job].indexedLines == GoodLines(file, |file|) <==>
                  IndexedLines(t.jobs, job) == |JobRows(t.detections, job)|)
  {
    var m := Minted(t, job);
    MintKeepsSound(t, job, file, sha1);
    CompleteStoresAll(m, job, file, sha1);
    AddedIsGrowth(t.detections, job, Items(file, |file|, IndexedLines(t.jobs, job)), sha1);
    GoodKeysCount(file, |file|, job);
  }

  lemma CompleteStoresAll(t: Tables, job: string, file: seq<Line>, sha1: string -> string)
    requires Sound(t, job, file, sha1) && job in t.jobs
    ensures var done := Reindexed(t, job, file, sha1);
            && JobRows(done.detections, job) == GoodKeys(file, |file|, job)
            && forall i :: 0 < i <= |file| && file[i - 1].Good? ==> HoldsLine(done.detections, job, file, i, sha1)
  {
    var upTo :| SoundUpTo(t, job, file, sha1, upTo);
    SoundRowCount(t, job, file, sha1, upTo);
    InsertExtends(t, job, file, sha1, upTo, |file|, IndexedLines(t.jobs, job));
  }
}
