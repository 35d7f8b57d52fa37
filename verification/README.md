# Hayabusa console: a verified model

The repository wraps a log scanner written in Rust (`engine/`) in a Python analyst
console (`gui/`). This project models the parts whose correctness is not visible from
one function: state that grows over a run, two code paths that must agree, and
transformations that must preserve meaning. The models follow the code branch by branch;
what the code and its comments disagree about is stated as the code has it.

| files | what they model |
|---|---|
| `Forest`, `ProcessTree` | merging process records, stitching them into a forest by untrusted parent links, and the recursive in-place sort (`gui/process_tree.py`) |
| `Store`, `Recovery` | the detection tables with their counters, the boot reindex, crashes between commits (`gui/store.py`) |
| `LogText`, `LiveTail` | the text of a log in lines and in pieces, the live tail against the reindex (`gui/server.py`) |
| `GlobLike`, `Suppression` | globs against LIKE patterns, and views through the suppression join (`gui/store.py`) |
| `Ranking`, `Burst` | the danger score and the burst detector (`gui/store.py`, `gui/behavioral.py`) |
| `AuditLog` | the hash-chained audit log (`gui/audit.py`) |
| `GraphEvents`, `Graph`, `GraphEdges`, `GraphNodes`, `GraphExport` | the relationship graph: what events say, the builder, which edges and nodes a graph has, and its capped export (`gui/relationship_graph.py`) |
| `Yaml`, `YamlExpand`, `RuleLoading`, `RuleCounts` | placeholder expansion, the rule filter with its counters, the wizard counts (`engine/src/yaml_expand.rs`, `engine/src/yaml.rs`) |
| `ChannelFilter` | the channel index and the four file filters (`engine/src/filter.rs`) |
| `Duplicates`, `Statistics`, `DetailOrder` | output order, duplicate marking, streamed counters, grouped details (`engine/src/afterfact.rs`) |
| `Strings`, `Sequences`, `Counting`, `Wrappers` | shared vocabulary |

Code that changes state is a class or a method proved against a function of the old
state; the properties over runs are lemmas about those functions. Hash functions, YAML and
datetime parsing, wildcard matching and the opening of log files are function parameters.

Results that go against what the code's comments or names suggest:

- `_like_to_glob` does not undo `_glob_to_like` for every glob: a backslash comes back
  doubled, and a glob with `_pct%` or `_pct_` in it comes back with NUL characters, because
  the disguises of two neighbouring escapes share a NUL (`GlobLike.LikeToGlobInvertsIff`,
  `GlobLike.TangledGlobIsLost`).
- The suppression join has no ESCAPE clause, so a suppression on a host glob with a
  backslash, `%` or `_` does not mean that glob (`Suppression.SuppressionMeansItsGlobIff`,
  `Suppression.UnderscoreHidesNothing`).
- Adding a suppression that exists already and removing it again deletes the old one
  (`Suppression.AddThenRemoveRestoresViewIff`, `Suppression.SecondAddUnhides`).
- With suppressed rows shown, the severity column of a pivot counts a detection once for
  each suppression that matches it (`Suppression.SeverityCountIsExactIff`,
  `Suppression.SeverityCountedTwice`).
- Tail and reindex number lines differently, and a poll of the tail can end inside a line,
  whose parts do not parse and which the tail then loses: they agree exactly when no
  detection follows a line that does not parse and none is cut by a poll
  (`LiveTail.TornLogMatchesIff`, `LiveTail.BadLineStoresTwice`, `LiveTail.CutLineIsLost`).
- A focal process loses its mark when a later record of the same process has a longer
  command line than all before (`ProcessTree.FocalMarkSurvivesIff`,
  `ProcessTree.FocalMarkIsLost`); a process recorded as its own parent is not displayed,
  except in the host tree by PID (`ProcessTree.SelfParent`, `ProcessTree.LoneSelfParent`).
- Deleting a job that held verdicts leaves the feedback counters of those rules too high
  until the next verdict (`Store.DeleteStaysExactIff`, `Store.DeletedVerdictIsStillCounted`,
  `Store.JudgeRestores`).
- Duplicate removal writes two copies of a record when the first record of its time is one
  of several copies (`Duplicates.CopiesWritten`, `Duplicates.FirstTwoAreBothWritten`).
- A list under an `|expand` key is not expanded (`YamlExpand.PlaceholderListUnchanged`), two
  keys that become equal lose an entry (`YamlExpand.KeepsEntriesIff`,
  `YamlExpand.EqualKeysLoseAnEntry`), and taking modifiers out of a key puts another one
  together exactly when it is spread around them (`YamlExpand.ModifierLeftIff`,
  `YamlExpand.ModifierLeftBehind`).
- The rule format check already demands a known status and level, so the filter's branches
  for a missing status are never taken (`RuleLoading.LoadedDocsAreClassified`).
- The graph's truncation flag is also set when every event was read and exactly 180
  nodes or 500 edges are exported whole (`GraphExport.FlagCoversCuts`,
  `GraphExport.FullGraphIsFlagged`).

## Model

| member | source | states |
|---|---|---|
| `Forest.UnrootedIffCycleAbove` | gui/process_tree.py:279-297 | An item of any parent map hangs below no root exactly when its ancestor chain runs into a cycle |
| `Forest.PathBound` | gui/process_tree.py:299-302 | A path down from a root cannot be longer than there are processes, which is why the unguarded recursion ends |
| `Strings.LeIff` | gui/process_tree.py:300-303 | How times and names are compared: a prefix comes first, else the smaller character at the first difference |
| `Strings.LowerIs` | gui/store.py:56-59 | Lower case changes the letters A to Z, each by 32, and keeps the length |
| `Strings.StripIs` | gui/store.py:484 | Stripping takes the whitespace at both ends, all of it and nothing else |
| `Strings.SpaceIs` | gui/store.py:484 | The whitespace among the first 128 characters |
| `Strings.ContainsIff` | engine/src/filter.rs:150-153 | One text contains another exactly if it begins with it from some place on |
| `ProcessTree.Upsert` | gui/process_tree.py:259-270 | One record enters a table: the longest command line so far wins, focal mark and detection link are carried over as the code does, for all four merge policies |
| `ProcessTree.FillTables` | gui/process_tree.py:229-276 | The tables hold exactly the winners of the rows read, never more than MAX_NODES processes, and `truncated` says which of the two reasons ended the loop |
| `ProcessTree.WinnerIsLongest` | gui/process_tree.py:260-265 | The record kept for a key has the longest command line of that key and is the first that long |
| `ProcessTree.FocalMarkSurvivesIff` | gui/process_tree.py:262-270 | The focal mark is still there after the merge exactly when no later record of that process is strictly longer than all before it |
| `ProcessTree.FocalMarkIsLost` | gui/process_tree.py:262-270 | Two records of one process, the focal one first and the second with a longer command line: the finished table has no mark |
| `ProcessTree.LinkSinceIs` | gui/process_tree.py:262-270 | The detection link of a process is the first one among its records from the longest on |
| `ProcessTree.WinnerIsFirst` | gui/process_tree.py:271-274 | A process known by PID alone keeps its first record in the tree around a detection |
| `ProcessTree.TablesInFields` | gui/process_tree.py:229-276 | In the fields of the rows: a GUID is in its table exactly if some row has it, a PID exactly if some row without GUID has it, and each entry is the first longest record (or the first record), with the first link and the mark that the code carries over |
| `ProcessTree.Hang` | gui/process_tree.py:280-285 | One node goes to its parent's list, to a placeholder's list or to the top, and nowhere else |
| `ProcessTree.HangAll` | gui/process_tree.py:514-537 | After the loop every list of children holds exactly the nodes that name its owner, each once, and the top holds the rest and the placeholders |
| `ProcessTree.Stitch` | gui/process_tree.py:500-537 | Stitching wires the whole table, for the two modes with placeholder parents and the two without |
| `ProcessTree.StitchWires` | gui/process_tree.py:280-297 | Every process, whatever its links are, is in exactly the one list of children that its link names |
| `ProcessTree.StitchTops` | gui/process_tree.py:280-297 | The top level is exactly the processes and placeholders without a parent in the table |
| `ProcessTree.SortByTsSorts` | gui/process_tree.py:300-303 | Sorting a list of children reorders it into time order and keeps the order of equal times |
| `ProcessTree.SortOwn` | gui/process_tree.py:299-300 | The in-place sort of one list touches that list only and visits its node once |
| `ProcessTree.SortNode` | gui/process_tree.py:299-302 | The recursive sort ends, although nothing checks for cycles; it sorts the lists of exactly the nodes below its argument and visits each of them exactly once |
| `ProcessTree.SortForest` | gui/process_tree.py:303-305 | From the top the sort visits exactly the processes whose ancestor chain ends, each once, and leaves every other list alone |
| `ProcessTree.Materialise` | gui/process_tree.py:239-257 | Node objects start out fresh, with empty lists of children and the merged record |
| `ProcessTree.StitchAndSort` | gui/process_tree.py:513-545 | Wiring and sorting together: the displayed forest holds the same processes in the same places, in time order, each visited once since the sort began and the others never |
| `ProcessTree.BuildTree` | gui/process_tree.py:226-311 | The whole construction for both entry points, in the fields of the rows: which processes the two tables hold and which record of each; GUID table first, PID table only if there is no GUID; whose list of children and which placeholder each process is in, and what is at the top; the counts reported, and which process is reported as focal |
| `ProcessTree.TreeAsRecorded` | gui/process_tree.py:280-297 | In record fields: a process is in the children of exactly the known process that its parent field names (in the host tree by PID never of itself); it is at the top exactly if that field is blank or unknown, in the host trees if no parent is named at all; two processes share a placeholder exactly if their unknown parents have the same id, or no id and the same image; and each placeholder stands for the parent of one of its children |
| `ProcessTree.BuildFrom` | gui/process_tree.py:500-545 | Stitching and sorting one table leave the tree that its records describe |
| `ProcessTree.FirstFocal` | gui/process_tree.py:307-311 | A focal GUID is reported exactly when some process of the table still has the mark |
| `ProcessTree.OnePlace` | gui/process_tree.py:280-297 | A process is in one list of children or at the top, never in two places |
| `ProcessTree.MissingIffCycleAbove` | gui/process_tree.py:280-305 | A process is missing from the displayed trees exactly when it is on or below a parent cycle |
| `ProcessTree.SelfParent` | gui/process_tree.py:516-537 | A process that is its own parent is displayed exactly in the host tree by PID, which tests for it; the three other modes lose it |
| `ProcessTree.LoneSelfParent` | gui/process_tree.py:516-537 | A single process with its own GUID and PID as its parent: the top is empty, or in the host tree by PID just this process |
| `Store.Store.InsertDetections` | gui/store.py:490-516 | INSERT OR IGNORE of each row: rows that were there stay, every item has a row afterwards, a new row says column by column what the first item with its number says and has no verdict, and the returned number is the growth of the table |
| `Store.Store.BumpIndexedLines` | gui/store.py:296-305 | Both counters of an existing job row grow by the argument; a missing job stays missing |
| `Store.Store.MintJob` | gui/store.py:251-278 | An existing job row keeps its counters, a new one starts at zero |
| `Store.Store.RecordFeedback` | gui/store.py:704-752 | Rejection of unknown verdicts, a missing row, and otherwise the new verdict with the rule's counters recounted over all jobs |
| `Store.Store.DeleteJob` | gui/store.py:307-322 | Job and detections go, feedback rows stay; the number of rows removed is returned |
| `Store.Store.ClearAll` | gui/store.py:324-341 | All three tables are emptied and their sizes returned |
| `Store.InsertedKeeps` | gui/store.py:490-516 | A row that is already there is never overwritten |
| `Store.InsertedSource` | gui/store.py:490-516 | A new row comes from the first of the items with its line number and says, column by column, what that line says |
| `Store.RowSays` | gui/store.py:475-516 | The stored time, title, computer, channel, event id and raw text are those of the line; the severity is in lower case with three abbreviations written out; the rule id is the stripped one, or else `h:` with at most 16 digits of the digest of title and channel |
| `Store.InsertedConcat` | gui/store.py:490-516 | Inserting in batches is inserting at once |
| `Store.JudgeRestores` | gui/store.py:728-747 | One verdict makes its rule's counters exact however stale they were, and leaves other rules as they were |
| `Store.DeleteStaysExactIff` | gui/store.py:307-322 | Deleting a job leaves a rule's counters exact exactly when the job held no verdict on the rule |
| `Store.DeletedVerdictIsStillCounted` | gui/store.py:307-322 | One detection inserted, marked and its job deleted: the counter is too high |
| `Store.StepKeepsCovered` | gui/store.py:307-341 | No operation lets a rule's counters fall below a recount, and only a deletion can make them differ from it |
| `Store.RunsNeverUndercount` | gui/store.py:704-752 | Over every run of inserts, verdicts, deletions and clears the counters are at least a recount, and equal to it without deletions |
| `Store.FeedbackNeverDrifts` | gui/store.py:704-752 | From an empty store, with no job deleted, every feedback row equals a recount and a rule without a row has no verdicts |
| `Recovery.FlushConcat` | gui/store.py:1972-1990 | How the rows are cut into batches does not change rows or counters |
| `Recovery.ReindexJob` | gui/store.py:1953-1993 | The batched reindex leaves what one insert of all parseable lines above the low-water mark and one bump by the number of new rows would leave |
| `Recovery.CrashKeepsSound` | gui/store.py:1972-1990 | A reindex cut off after any commit leaves sound tables |
| `Recovery.InterruptedNever` | gui/store.py:1972-1990 | With enough commits the interrupted reindex is the complete one |
| `Recovery.RunsStaySound` | gui/store.py:1940-1993 | Over every run of file growth, complete and interrupted reindexing and verdicts the tables stay sound |
| `Recovery.SoundMeans` | gui/store.py:296-305 | In sound tables `indexed_lines` never exceeds the rows of the job, and every parseable line numbered at or below it is stored, column by column |
| `Recovery.ReindexConverges` | gui/store.py:1940-1993 | From any sound tables, after any such run a completed reindex has stored exactly the parseable lines, column by column, and a second one changes nothing |
| `Recovery.EmptyIsSound` | gui/store.py:1953-1970 | A job without rows and with a zero counter is sound for every log, so runs may start there |
| `Recovery.AnotherChangesNothing` | gui/store.py:1953-1993 | A reindex of a file whose lines are all stored inserts nothing and counts nothing |
| `Recovery.CountersStayEqual` | gui/store.py:296-305 | `detection_count` and `indexed_lines` never part, over any run and wherever a reindex is cut off |
| `Recovery.CounterIsExactIff` | gui/store.py:1972-1990 | A completed reindex leaves the number of detections of the log in the counter exactly when the counter agreed with the rows before: what a crash between two commits lost is never made up |
| `LogText.SplitConcat` | gui/server.py:547-553 | The lines of two texts one after the other: the first line of the second goes on with an unended last line of the first |
| `LogText.GroupsAreLines` | gui/server.py:547-553 | The pieces that the polls bring, put together line by line, are the lines of the finished file, in their order |
| `LogText.SplitRejoins` | gui/server.py:547-553 | The lines hold no line end, and written out with their line ends they are the text again |
| `LiveTail.TailResults` | gui/server.py:530-572 | The live tail, whatever text its polls bring and wherever they end, leaves what one insert of its numbered pieces would leave |
| `LiveTail.TailRowSays` | gui/server.py:554-572 | The row stored under number i says column by column what the i-th piece that parses says |
| `LiveTail.TailMatchesReindexIff` | gui/server.py:554-563 | Tail and reindex agree on rows and counters exactly when the pieces that parse are the lines that parse, and none of these follows a line that does not |
| `LiveTail.ReaderOfReads` | gui/server.py:554-560 | A line reader made of any JSON decoder reads nothing from an empty text and keeps the text of a detection |
| `LiveTail.PolledLogMatchesIff` | gui/server.py:530-572 | The same for every log text and every way to cut it into polls, whatever its parts parse to |
| `LiveTail.TornIff` | gui/server.py:547-566 | Where parts of lines do not parse, the tail misses exactly the detections that a poll end has cut |
| `LiveTail.TornLogMatchesIff` | gui/server.py:530-572 | For such a log tail and reindex agree, and a reindex after the tail is a no-op, exactly when no detection follows a line that does not parse and no poll end cuts a detection |
| `LiveTail.WholePollsMatchIff` | gui/server.py:535-541 | With polls that end at line ends they agree, and the reindex is a no-op, exactly when no detection follows a line that does not parse |
| `LiveTail.ReindexAfterTailIsNoopIff` | gui/store.py:1972-1983 | Whatever the polls were, a boot reindex after the tail changes nothing exactly when no detection has a line number above the tail's counter |
| `LiveTail.BadLineStoresTwice` | gui/server.py:554-563 | One line that does not parse before a detection: the tail stores it as line 1, the reindex as line 2, and the reindex after the tail stores it twice |
| `LiveTail.CutLineIsLost` | gui/server.py:547-566 | Two detections, the first cut by a poll end: the second is stored twice, and the first never, however often the log is indexed |
| `LiveTail.TailCrashIsSoundIff` | gui/server.py:554-572 | A tail that is cut off, also between its two commits, leaves sound tables exactly when the pieces stored so far are the first lines of the log |
| `LiveTail.TailCrashIsRecovered` | gui/store.py:1940-1993 | From there, after any run of growth, crashes and verdicts, a completed reindex stores exactly the parseable lines and a second one changes nothing |
| `GlobLike.GlobToLikeHead` | gui/store.py:1750-1756 | The five replacements do not interfere: together they rewrite each character of the glob once |
| `GlobLike.GlobConcat` | gui/store.py:552-562 | Two globs one after the other match exactly what splits into a match of each |
| `GlobLike.StarFreeMatches` | gui/store.py:552-562 | Without stars a glob matches the hosts of its length that agree with it, case apart, wherever it has no `?` |
| `GlobLike.LikeContains` | gui/store.py:574-577 | LIKE on a text between two percent signs asks whether the text occurs, case apart |
| `GlobLike.EscapedLikeIsGlob` | gui/store.py:552-562 | For every glob and host, LIKE with ESCAPE on the translated pattern is glob matching |
| `GlobLike.UnescapedLikeIsGlobIff` | gui/store.py:584-589 | Without ESCAPE the pattern means the glob for every host exactly when the glob is free of backslash, percent and underscore |
| `GlobLike.LikeToGlobInvertsIff` | gui/store.py:1904-1911 | For a glob without NUL the inverse recovers it exactly when it has no backslash and neither `_pct%` nor `_pct_` occurs in it |
| `GlobLike.LastTwoUndoesIff` | gui/store.py:1911 | The last two replacements of the inverse restore a disguised text exactly when it is free of those two tangles |
| `GlobLike.GlobToLikeInjective` | gui/store.py:1750-1756 | No two globs share a LIKE pattern |
| `GlobLike.StrippedReturnIff` | gui/store.py:1904-1911 | Stripping what comes back does not widen these cases: it has as many blanks as the glob, or a NUL |
| `GlobLike.TangledGlobIsLost` | gui/store.py:1904-1911 | `_pct%` does not come back, and every shorter glob without a backslash does |
| `Suppression.SelectedKeysAreTheView` | gui/store.py:520-582 | The joined rows that pass the WHERE clause are those of the filtered detections, without the suppressed ones unless they are shown |
| `Suppression.EachFilterMeans` | gui/store.py:536-573 | Each filter alone keeps exactly the rows with its value in its own column, and no filter keeps them all |
| `Suppression.WindowMeans` | gui/store.py:566-569 | A time window is closed at both ends, and a row without a time is in none |
| `Suppression.TextFilterMeans` | gui/store.py:574-577 | The text filter keeps a row exactly if title, computer or raw line contain the text, case apart, for texts without wildcards |
| `Suppression.FiltersCombine` | gui/store.py:529-582 | A row is kept exactly if every filter alone keeps it |
| `Suppression.HostFilterFindsInserted` | gui/store.py:490-516 | A detection that is inserted is found by the filter for the computer that its log line names |
| `Suppression.SeverityFilterFindsAbbreviated` | gui/store.py:56-59 | A line with an abbreviated severity is found under the full name |
| `Suppression.QueryListsTheView` | gui/store.py:591-634 | In both modes the unlimited query lists each detection of the view exactly once however many suppressions match, and its suppression column is NULL exactly where none does |
| `Suppression.KeyTextInjective` | gui/store.py:651-653 | Job id, colon and line number never collide, whatever the job id contains |
| `Suppression.CountMatchesRows` | gui/store.py:636-655 | `count_detections` is the number of rows of the unlimited query, in both modes |
| `Suppression.PivotSumsToCount` | gui/store.py:657-699 | For every dimension, NULL group included, unlimited pivot counts add up to `count_detections` |
| `Suppression.GroupIsFilter` | gui/store.py:666-674 | The joined rows of a pivot group are those that the filter for its value selects, for computer, rule, severity, channel and event id |
| `Suppression.HoursAndDays` | gui/store.py:672-673 | Hour and day groups are the first thirteen and ten characters of the time, date and hour or the date alone |
| `Suppression.SeverityCountIsExactIff` | gui/store.py:692-698 | The severity column is the number of severe detections of its group exactly when none is matched twice; hidden mode is always right |
| `Suppression.SeverityCountedTwice` | gui/store.py:692-698 | A rule suppressed once for all and once with the host glob `*`, both added from an empty table: the severity count of one critical detection is above one |
| `Suppression.Suppressions.Add` | gui/store.py:1767-1802 | A suppression without target is refused; otherwise its row is stored under a new id or replaces the contents of the row with its key, and the unique index keeps holding |
| `Suppression.Suppressions.Upsert` | gui/store.py:1783-1801 | Insert, or on a clash re-enable and update |
| `Suppression.Suppressions.Remove` | gui/store.py:1804-1810 | The row goes and the answer says whether it was there |
| `Suppression.AddHidesExactly` | gui/store.py:1767-1802 | Adding takes exactly the detections it matches out of every filtered view, and changes nothing with suppressed rows shown |
| `Suppression.AddThenRemove` | gui/store.py:1767-1810 | Adding and removing leaves the table without that key, so it is restored exactly when the key was new |
| `Suppression.AddThenRemoveRestoresViewIff` | gui/store.py:1767-1810 | It restores a view exactly when no kept detection was hidden by rows of that key alone; otherwise exactly those come back |
| `Suppression.SecondAddUnhides` | gui/store.py:1767-1810 | One suppression and the detection it hides: adding the same one and removing it shows the detection |
| `Suppression.SuppressionMeansItsGlobIff` | gui/store.py:584-589 | A stored suppression hides what its rule and glob mean, for every detection, exactly when the glob is free of the three metacharacters |
| `Suppression.UnderscoreHidesNothing` | gui/store.py:584-589 | The glob `a_b` does not hide a detection on the host `a_b` |
| `Suppression.SnapshotReimportIff` | gui/store.py:1884-1911 | Importing an exported suppression, with the strip and the check for blanks of `add_suppression`, finds the key it came from exactly when its glob has no backslash and no tangle |
| `Suppression.HuntFilterMeansItsGlob` | gui/store.py:552-562 | The hunt filter keeps only hosts its glob matches, and restricts nothing else |
| `Suppression.SwitchedOff` | gui/store.py:584-589 | A suppression that was switched off hides nothing |
| `Ranking.Collect` | gui/store.py:1350-1369 | The three dictionaries filled in one pass: rules by computer and level, computers by rule, last title by rule |
| `Ranking.RulesMean` | gui/store.py:1350-1369 | What the collected rule sets hold, in terms of the query rows |
| `Ranking.NameIs` | gui/store.py:1350-1369 | A computer without a name goes by one that says so |
| `Ranking.Ranking` | gui/store.py:1393-1436 | Each computer's score is computed from the collected sets with the ambient discount, the exclude list and the high-confidence rules; `Ranking.KeptIff` says which rules count |
| `Ranking.CountKeptIs` | gui/store.py:1400-1418 | The counts read off the dictionaries are those of the surviving rules |
| `Ranking.RiskScoreMonotone` | gui/store.py:1443-1503 | No count, no confirmed hit and no fresher sighting lowers a score, and a false positive never raises it |
| `Ranking.ScoreBounds` | gui/store.py:1400-1503 | Every score is between 0 and 100, and 0 exactly when no critical or high rule survives the discounts |
| `Ranking.HighConfidenceNeverLowers` | gui/store.py:1371-1418 | Enlarging the high-confidence list never lowers a score, through the ambient discount and the weights together |
| `Ranking.ExcludingNeverRaises` | gui/store.py:1398-1408 | Enlarging the exclude list never raises a score |
| `Ranking.DiscountSpares` | gui/store.py:1393-1412 | The ambient discount never touches critical or high-confidence rules, nor any rule below eight computers; what it drops fired on at least four fifths of them |
| `Ranking.KeptIff` | gui/store.py:1393-1418 | A high rule counts on a computer exactly if it fired there at that level, neither its id nor its last title is excluded, and it is of high confidence, or fewer than eight computers fired, or it fired on less than four fifths of them; a critical rule exactly if it fired there and is not excluded |
| `Ranking.ScoresInNumbers` | gui/store.py:1443-1503 | Scores in numbers: 30 and 12 points for a rule, 45 and 20 with high confidence, five percent for a confirmed hit, no less than a fifth for any number of false ones, the recency factors at their edges, and 100 at most |
| `Ranking.NoiseScoresNothing` | gui/store.py:1393-1418 | Ten computers, one high rule on nine of them: each of the nine scores nothing, and the tenth with its critical rule does |
| `Ranking.PcsMean` | gui/store.py:1350-1369 | The computers of a rule and of the fleet, in terms of the query rows |
| `Burst.ReportRule` | gui/behavioral.py:124-160 | The hours of one rule that reach eight times the baseline, in query order |
| `Burst.ReportsTheFlagged` | gui/behavioral.py:134-142 | Whatever the order of the query rows, the reported hours are exactly the burst hours |
| `Burst.FlaggedInNumbers` | gui/behavioral.py:124-142 | An hour is a burst exactly if its k fires of n in a span of w hours, one at least, have k*w at least 8*n, and n*20 is at least w |
| `Burst.ReportedInNumbers` | gui/behavioral.py:134-151 | An anomaly names the rule, the fires of its hour and how many times the average they are, eight at least |
| `Burst.SameHourIff` | gui/behavioral.py:134-138 | Fires fall into one hour exactly if date and hour of their timestamps agree |
| `Burst.LookedAtIff` | gui/behavioral.py:107-124 | A rule is looked at exactly if it fired three times with a timestamp |
| `Burst.AveragingBound` | gui/behavioral.py:130-141 | However the fires are spread, at most span/ratio hours can be ratio times busier than the average |
| `Burst.FewHoursAreBursts` | gui/behavioral.py:107-161 | No more than an eighth of a rule's span in hours is flagged, and a rule whose span is below eight hours never is |
| `Burst.ReportsCountBursts` | gui/behavioral.py:130-142 | A rule gets as many anomalies as it has burst hours, none of them twice |
| `Burst.FindBursts` | gui/behavioral.py:107-161 | Over the rows of both queries: each rule gets at most one anomaly for eight hours of its span, none below eight hours, and a rule with fewer than three fires none |
| `AuditLog.Log.Load` | gui/audit.py:70-91 | A restart finds the head and count that a verification of the file arrives at; a JSON line that is no object raises |
| `AuditLog.Log.Append` | gui/audit.py:99-133 | A blank action is refused; otherwise one chained entry is written and head and count keep up; a broken file keeps its verdict |
| `AuditLog.OrEmptyIs` | gui/audit.py:99-133 | A detail that counts as false is stored as an empty object, any other as it is |
| `AuditLog.Log.Verify` | gui/audit.py:165-195 | The loop computes the verdict |
| `AuditLog.Log.Tail` | gui/audit.py:137-160 | The newest entries that pass the case filter, with the limit clamped to 1..5000, oldest first |
| `AuditLog.WantedWritten` | gui/audit.py:137-160 | A case finds an entry of the console exactly by its object id or by the case id in its detail |
| `AuditLog.SelectedMeans` | gui/audit.py:137-160 | Lines left out are the blank and unreadable ones, and with a case the entries of others |
| `AuditLog.FirstBrokenLineIff` | gui/audit.py:172-193 | Line k is reported exactly when everything before it is chained and line k is not |
| `AuditLog.VerifyAcceptsIff` | gui/audit.py:165-195 | A file is accepted exactly when every line is an entry chained onto the one before it |
| `AuditLog.LoadMatchesVerdict` | gui/audit.py:70-91 | The head and count that loading finds in a sound file are those of verification |
| `AuditLog.RunsStaySound` | gui/audit.py:70-133 | Appends and restarts in any order keep the file verifying and the memory in step with it |
| `AuditLog.RunsStayBroken` | gui/audit.py:99-133 | Once a line is broken, appends and restarts in any order leave the same line reported |
| `AuditLog.ClashOf` | gui/audit.py:52-54 | Two different lists of canonical payloads with one head: two of their own entries hashed different texts to one digest |
| `AuditLog.TamperEvidence` | gui/audit.py:33-54 | Two logs that verify and report the same last digest hold the same canonical payloads in order, or two different texts hashed for these very logs share a digest |
| `AuditLog.EditsAreNoticed` | gui/audit.py:165-195 | If the digest is injective on the texts hashed for the two files, any edit, deletion or reordering of payloads makes verification fail or report another last digest, and a sound file with the same payloads reports the same verdict |
| `AuditLog.OtherFieldsAreNotCovered` | gui/audit.py:41-54 | A field outside the payload and the two links can be changed without the verdict changing |
| `Graph.HoldsFirstOfHighestRank` | gui/relationship_graph.py:159-167 | A node holds no detection exactly when none was offered, and otherwise the first of the highest rank |
| `Graph.TimesBracket` | gui/relationship_graph.py:131-144 | `ts` and `last_ts` are the least and the greatest non-empty time observed, both of them observed |
| `Graph.CountedStaysReal` | gui/relationship_graph.py:205-206 | A node that was counted is no placeholder, now and after any further sightings |
| `Graph.EdgeCountsAddUp` | gui/relationship_graph.py:332-352 | Every link between two different nodes is counted on exactly one edge, even where edge keys clash |
| `Graph.EdgeIsItsFirstLink` | gui/relationship_graph.py:332-352 | An edge has the ends and the type of the first link with its key and counts all of them |
| `Graph.PlansAreValid` | gui/relationship_graph.py:364-594 | For every event shape: the type each node method sets is the one its key tells, what is counted was really seen, and a parent never is its child |
| `Graph.Builder.Observe` | gui/relationship_graph.py:181-330 | A node is created or completed: blank fields are filled, but for the path of a file, times widened, a placeholder made real |
| `Graph.Builder.AddEdge` | gui/relationship_graph.py:332-352 | A link between different nodes creates its edge or is counted on the edge with its key; the rest is ignored |
| `Graph.Builder.FindRunning` | gui/relationship_graph.py:457-464 | The key found is of a process node whose image is the written file and no node before it is one; none is found exactly when there is none |
| `Graph.Builder.AddPlan` | gui/relationship_graph.py:408-594 | Nodes and links of one event, with the links that depend on which nodes are there |
| `Graph.Builder.CountObservation` | gui/relationship_graph.py:377-541 | Which event counters move, before or after the texts are checked |
| `Graph.Builder.AddEvent` | gui/relationship_graph.py:364-594 | One event: present counter, event counters, nodes, links and the truncation flag |
| `Graph.PresentKeyIs` | gui/relationship_graph.py:368-370 | An event is listed as present under its channel and event id, each with a text for none |
| `Graph.Builder.AddEvents` | gui/relationship_graph.py:692-699 | Events are added until 180 nodes are there; the graph never holds more than 181, and the flag says whether the limit was reached |
| `GraphEvents.SysmonStart` | gui/relationship_graph.py:379-393 | A process start of the Sysmon sensor in its own field names |
| `GraphEvents.SecurityStart` | gui/relationship_graph.py:394-405 | A process start of the Security log, whose unprefixed fields are the parent's |
| `GraphEvents.SensorsAgree` | gui/relationship_graph.py:377-407 | Both sensors give a process started without GUIDs the same node, and its parent as well |
| `GraphEvents.SysmonWrite` | gui/relationship_graph.py:432-441 | A file write names the file and the process that wrote it |
| `GraphEvents.SysmonQuery` | gui/relationship_graph.py:545-550 | A DNS query names the host and resolves it |
| `GraphEvents.SysmonConnection` | gui/relationship_graph.py:563-569 | A connection of the Sysmon sensor has host, address, port and protocol |
| `GraphEvents.SecurityConnection` | gui/relationship_graph.py:551-562 | A connection of the Security log has an address only and a process without GUID |
| `GraphEvents.PeersMeet` | gui/relationship_graph.py:541-581 | Connections of both sensors to one address and port meet in one node |
| `GraphEvents.PeerTexts` | gui/relationship_graph.py:570-577 | Hosts and addresses that stand for none are blank, and two protocol numbers become names |
| `GraphEvents.AuditActor` | gui/relationship_graph.py:469-480 | An audited change is done by domain and account, joined by a backslash |
| `GraphEvents.AuditIsDecoded` | gui/relationship_graph.py:469-519 | The seven event ids that are read as audited changes |
| `GraphEvents.AccountTargets` | gui/relationship_graph.py:488-499 | The object of an account change is the account named as target |
| `GraphEvents.DirectoryTarget` | gui/relationship_graph.py:500-509 | A directory object goes by its distinguished name, and the action names the attribute |
| `GraphEvents.ShortNameIs` | gui/relationship_graph.py:500-509 | Its label is the first component without the attribute, cut to sixty characters |
| `GraphEvents.ObjectTarget` | gui/relationship_graph.py:510-518 | An object operation goes by the name, or else the type, of the object |
| `GraphEvents.FixedTargets` | gui/relationship_graph.py:482-487 | Changing the audit policy and clearing the log have an object of their own |
| `GraphEvents.ProgramOf` | gui/relationship_graph.py:101-111 | The program of a command line is what follows the last slash or backslash, up to the arguments |
| `GraphEvents.SpellingsMeet` | gui/relationship_graph.py:114-115 | Two spellings of a path that differ in case and in the direction of the slashes are one path |
| `GraphEvents.Unquoted` | gui/relationship_graph.py:94-98 | Quotes around a path are taken off if they are alike, and nothing else is but the blanks at its ends |
| `GraphEdges.KeysInFields` | gui/relationship_graph.py:118-129 | A process goes by its GUID, else by PID and program name, else by its path; files, peers, identities and objects by one text each |
| `GraphEdges.EdgesJoinTypes` | gui/relationship_graph.py:408-594 | In every reachable graph spawn joins a process to a counted process, execute a file to a process, create a process to a file, audit an identity to an object, resolve and connect a process to a peer, and just the execute edges are inferred |
| `GraphEdges.EdgesAreAsked` | gui/relationship_graph.py:332-594 | In every reachable graph there is a spawn edge from a parent to its process, and a create, audit, resolve and connect edge, whenever an event says so in its own fields; where no node key has a bar, exactly then, and it is counted once for each such event |
| `GraphEdges.StartExecutesWritten` | gui/relationship_graph.py:416-420 | A process started from a file that an earlier event wrote is joined to it |
| `GraphEdges.WriterExecutesItself` | gui/relationship_graph.py:454-456 | A process that writes over its own image is joined to the file |
| `GraphEdges.WrittenIsExecuted` | gui/relationship_graph.py:457-464 | Writing a file that a process of the graph runs joins the file to such a process |
| `GraphEdges.EdgeTimes` | gui/relationship_graph.py:350-352 | The two times of an edge bracket those of all links that it counts |
| `GraphEdges.RanksRise` | gui/relationship_graph.py:159-167 | The severities in rising order, and any other text below them |
| `GraphNodes.StartShows` | gui/relationship_graph.py:408-430 | A process start shows the process with all its fields and, if named and different, the parent as a placeholder |
| `GraphNodes.WriteShows` | gui/relationship_graph.py:432-453 | A file write shows the file and the writer, which is real if a GUID or a PID names it |
| `GraphNodes.ConnectionShows` | gui/relationship_graph.py:570-594 | A connection shows the peer with its fields, and the process |
| `GraphNodes.AuditShows` | gui/relationship_graph.py:469-537 | An audited change shows the object with the detection, and the identity without |
| `GraphNodes.EventIsShown` | gui/relationship_graph.py:364-594 | In every reachable graph each drawn event is seen at the node it is about: a real, counted node of that type whose times cover the event and whose detection ranks no lower |
| `GraphNodes.MentionedIsShown` | gui/relationship_graph.py:422-594 | And at the parent, writer or peer process that it names, real where the event identifies a writer or peer process |
| `GraphNodes.LabelsInFields` | gui/relationship_graph.py:181-330 | The label of a new node, in the fields of the event |
| `GraphNodes.LabelFollowsImage` | gui/relationship_graph.py:207-209 | A process keeps its label until its image becomes known |
| `Graph.ObservedValid` | gui/relationship_graph.py:181-330 | A sighting keeps the tables valid |
| `Graph.PlannedFrame` | gui/relationship_graph.py:364-594 | An event adds its own sightings and links to the histories, no others, and two nodes at most |
| `Graph.PlannedValid` | gui/relationship_graph.py:364-594 | Every event keeps the tables what the histories say |
| `Graph.BuiltIsValid` | gui/relationship_graph.py:364-594 | In every reachable state edges join two different nodes of the table and every node is the summary of its sightings |
| `Graph.EveryNodeMeans` | gui/relationship_graph.py:181-330 | For any node of any reachable graph: the type that was set on creation is that of the key prefix, and time bracket, counted implies real, first detection of highest rank |
| `Graph.FieldsAreTheFirstSeen` | gui/relationship_graph.py:204-219 | Every descriptive field of every node is the first non-blank value that any event gave it, the path of a file what the first event gave, and the command line a longest one |
| `Graph.CountedNodesStayReal` | gui/relationship_graph.py:205-206 | A counted node is still there and real after any further events |
| `Graph.CountsMatchAccepted` | gui/relationship_graph.py:408-594 | For each kind the node counts add up to the events accepted for it |
| `Graph.TalliesMatchNodes` | gui/relationship_graph.py:377-541 | File and audit counters equal the accepted events; process and network counters exceed them by the events that name nothing |
| `GraphExport.ExportEdges` | gui/relationship_graph.py:616-628 | The edges with both ends shown, renamed, in insertion order, cut at 500, and whether the limit was reached |
| `GraphExport.Result` | gui/relationship_graph.py:596-629 | The exported node keys and edges as functions of the tables, and the flag |
| `GraphExport.ShownNodes` | gui/relationship_graph.py:601-607 | At most 180 different nodes in order, and every node left out comes behind all of them |
| `GraphExport.ActorsFirst` | gui/relationship_graph.py:598-605 | The order of the export: processes, identities, files, objects, peers, and within a type by time and label |
| `GraphExport.ExportIsClosed` | gui/relationship_graph.py:606-629 | Every exported edge joins two different exported nodes and stands for an edge of the graph; both limits hold |
| `GraphExport.SmallGraphIsExportedWhole` | gui/relationship_graph.py:596-629 | A graph within both limits is exported whole, edge by edge under new numbers |
| `GraphExport.FlagCoversCuts` | gui/relationship_graph.py:692-699 | Whenever an event is not read, or a node or an edge is not exported, the flag is set; it is set for nothing exactly when all events were read and the graph is within both limits and at one of them |
| `GraphExport.FullGraphIsFlagged` | gui/relationship_graph.py:692-699 | 180 process starts: every event is read, every node and edge exported, and the flag is set |
| `YamlExpand.ProcessYaml` | engine/src/yaml_expand.rs:43-88 | The rewrite; `expand_found` is raised exactly when some text key at any depth contains the modifier |
| `YamlExpand.ProcessValue` | engine/src/yaml_expand.rs:9-41 | The value under a marked key: a text becomes its substitutions, a list is passed on |
| `YamlExpand.ProcessPairs` | engine/src/yaml_expand.rs:50-79 | The insertion loop, with keys that move to the back when they are met again |
| `YamlExpand.UnchangedIff` | engine/src/yaml_expand.rs:43-88 | A pass leaves a document alone exactly when no key in it contains the modifier |
| `YamlExpand.PlaceholderListUnchanged` | engine/src/yaml_expand.rs:33-38 | Texts in a list are not substituted even under a marked key |
| `YamlExpand.ValueChangesIff` | engine/src/yaml_expand.rs:58-62 | `expand_enabled` is raised by a marked key exactly when a placeholder with replacements applies to its text or a marked key is nested in its value |
| `YamlExpand.KeepsEntriesIff` | engine/src/yaml_expand.rs:49-79 | A mapping keeps all its entries exactly when no two keys become equal |
| `YamlExpand.EqualKeysLoseAnEntry` | engine/src/yaml_expand.rs:49-79 | A mapping with the key `a` twice, once with the modifier and then without: only the second entry is left |
| `YamlExpand.LastEntryWins` | engine/src/yaml_expand.rs:49-79 | Of entries whose keys become equal the last one stays, with its own expanded value |
| `YamlExpand.SurvivorsExpanded` | engine/src/yaml_expand.rs:49-79 | A rewritten mapping holds the outcomes of the entries whose keys no later key becomes equal to, in their order |
| `YamlExpand.ModifierLeftIff` | engine/src/yaml_expand.rs:56 | Taking the modifiers out of a key leaves one behind exactly when one is spread over the key with whole modifiers in its gaps |
| `YamlExpand.OnePassIsEnoughIff` | engine/src/yaml_expand.rs:43-88 | None is left, and a second pass is the identity, exactly when no surviving entry at any depth has such a key |
| `YamlExpand.OnePassIsEnough` | engine/src/yaml_expand.rs:43-88 | In particular when the modifier occurs as a whole one only |
| `YamlExpand.WholeModifierGoes` | engine/src/yaml_expand.rs:56 | No modifier is spread around whole modifiers that end the key or come right before the next one, and none is left behind |
| `YamlExpand.ModifierLeftBehind` | engine/src/yaml_expand.rs:56 | A key for which taking the modifier out leaves another one |
| `YamlExpand.SubstitutedAnyOrder` | engine/src/yaml_expand.rs:15-30 | A text becomes the same multiset of texts for every iteration order of the placeholder map |
| `YamlExpand.SubstitutedMeans` | engine/src/yaml_expand.rs:15-30 | A text becomes exactly the substitutions by applicable placeholders and their replacements |
| `YamlExpand.EntryExpanded` | engine/src/yaml_expand.rs:43-79 | A key that ends in the modifier loses it, and its text becomes the list of the texts with each replacement |
| `YamlExpand.SameExpansion` | engine/src/yaml_expand.rs:43-88 | The whole result is the same for every iteration order, up to the order of texts in lists that a text was expanded to |
| `YamlExpand.SameFlag` | engine/src/yaml_expand.rs:60-62 | `expand_enabled` does not depend on the iteration order |
| `RuleLoading.ParseYaml.Judge` | engine/src/yaml.rs:393-612 | The exits of the filter closure and the counter each of them charges |
| `RuleLoading.ParseYaml.Filter` | engine/src/yaml.rs:383-615 | A document is expanded, judged and kept, with exactly its own charges |
| `RuleLoading.ParseYaml.FilterAll` | engine/src/yaml.rs:383-617 | The files loaded are the kept documents in order |
| `RuleLoading.ParseYaml.ReadDir` | engine/src/yaml.rs:285-380 | The walk filters the documents of every subdirectory first and its own last, and counts each file it cannot read or parse as an error |
| `RuleLoading.TakenIff` | engine/src/yaml.rs:285-380 | Only files with the extension yml are read, and none below a git directory or the test files of sigmac |
| `RuleLoading.LoadedIff` | engine/src/yaml.rs:383-615 | A document is loaded exactly if its placeholders are enabled, no list or target test refuses its id, it is well formatted, and level, status, category and tags are wanted, each test in the fields of the document |
| `RuleLoading.LevelsInWords` | engine/src/yaml.rs:463-476 | Without a target level, which of the levels informational, low, medium, high and critical pass which minimum: `high` passes `medium`, `low` does not |
| `RuleLoading.LevelWantedIff` | engine/src/yaml.rs:463-476 | A level passes exactly if it comes no earlier than the minimum and is the target, if one is given, in that list of names |
| `RuleLoading.EveryDocumentIsAccountedFor` | engine/src/yaml.rs:383-616 | Documents filtered = statuses + "excluded" + errors + (expanded - enabled) + "noisy" when noisy rules are off; only a document whose id list is named like the zero id is on no counter |
| `RuleLoading.TreeIsAccountedFor` | engine/src/yaml.rs:161-618 | The same for a whole directory tree, unreadable files included |
| `RuleLoading.RuleCountersMatchFiles` | engine/src/yaml.rs:598-612 | The sum of `rulecounter` equals the number of files loaded |
| `RuleLoading.InsertIds` | engine/src/filter.rs:60-96 | Every valid id of a list file maps to that file's name |
| `RuleLoading.NothingIsSilent` | engine/src/yaml.rs:404-418 | With lists that are text files every document is on some counter, the zero id included, since the test compares the file's name |
| `RuleLoading.HigherLevelKeepsThoseAbove` | engine/src/yaml.rs:463-476 | Raising the minimum level keeps exactly the files loaded before that reach it, in their order |
| `RuleLoading.LoadedDocsAreClassified` | engine/src/yaml.rs:862-906 | Whatever is loaded has one of five levels and one of five statuses, and is counted under that status |
| `RuleCounts.CountRules` | engine/src/yaml.rs:761-858 | The counting loop over the documents of a directory |
| `RuleCounts.CountTagged` | engine/src/yaml.rs:814-855 | A rule with wizard tags is counted under each, less the surplus |
| `RuleCounts.RowCountsRules` | engine/src/yaml.rs:761-858 | However many wizard tags the rules carry, the counters under a status and a level add up to the number of rules there |
| `RuleCounts.CountersMean` | engine/src/yaml.rs:761-858 | Every counter is the sum of what each document adds to it by its own fields: one under its status and level for each wizard tag, under "other" without any, the surplus less under "duplicated", and for a listed document one under its list and status |
| `ChannelFilter.PeekChannels` | engine/src/filter.rs:99-134 | The index lists each readable file under its own channel, in order |
| `ChannelFilter.VisitValue` | engine/src/filter.rs:140-170 | The vector gains exactly the channels that a nested Channel text covers, and grows exactly when there are any |
| `ChannelFilter.ExtractChannels` | engine/src/filter.rs:171-181 | The rules kept are those that name a channel, and the channels those that some rule names |
| `ChannelFilter.TrimStarsIs` | engine/src/filter.rs:140-155 | The stars at both ends of a Channel text are taken off, all of them and nothing else |
| `ChannelFilter.StarredWordCovers` | engine/src/filter.rs:140-155 | A Channel text with stars around a word covers exactly the channels that contain the word |
| `ChannelFilter.ChannelKeyNames` | engine/src/filter.rs:140-170 | A text without stars names a channel exactly under the key Channel and if it is the channel |
| `ChannelFilter.CreateChannelFilter` | engine/src/filter.rs:199-231 | A file is scannable by the index exactly when it is one of the files and its own first record's channel is named by some rule |
| `ChannelFilter.ApplyChannelFilter` | engine/src/filter.rs:246-274 | The stage keeps the files that pass the test on their own channel; unreadable channel names disable it |
| `ChannelFilter.ApplyFilenameFilter` | engine/src/filter.rs:276-295 | The stage keeps the files whose name matches, or does not; nameless paths go in both modes |
| `ChannelFilter.MatchesMeans` | engine/src/filter.rs:276-295 | A name passes a list of patterns if the matcher accepts one of them, both in lower case |
| `ChannelFilter.FilterEvtxFiles` | engine/src/filter.rs:233-244 | The four stages are one order-preserving pass with all four tests |
| `ChannelFilter.RunStages` | engine/src/filter.rs:233-295 | Any list of filters, each indexing the files that the one before left over, is one order-preserving pass with all their tests |
| `ChannelFilter.StagesCommute` | engine/src/filter.rs:233-295 | Running the filters in any two orders, with the indexes rebuilt from different files, leaves the same files in the same order |
| `ChannelFilter.ChannelsPartitionIff` | engine/src/filter.rs:246-274 | Including and excluding the same channels splits the files exactly when the channel names can be read |
| `ChannelFilter.FilenamesLoseTheNameless` | engine/src/filter.rs:276-295 | Including and excluding the same names splits the named files; only nameless ones are lost |
| `Duplicates.KeyOrder` | engine/src/afterfact.rs:1045-1076 | The six-key comparison is a total order on the keys, as the sort demands |
| `Duplicates.SortIsDeterminedUpToTies` | engine/src/afterfact.rs:1045-1076 | However the unstable sort places ties, the sequence of keys is the same |
| `Duplicates.OutputOrder` | engine/src/afterfact.rs:1045-1076 | Of two detections in the output the first has the earlier time, or at one time the lower level, and then the smaller event id, rule file, computer and record id |
| `Duplicates.GetDuplicateIdxes` | engine/src/afterfact.rs:1078-1110 | An index is marked exactly when an earlier record of its run, not the run's first, has the same fields apart from the log path |
| `Duplicates.ComparedLeavesOut` | engine/src/afterfact.rs:1095-1099 | The log file is left out of the comparison wherever it is listed, and no other field is |
| `Duplicates.MarkedIff` | engine/src/afterfact.rs:1083-1106 | On a sorted list the run is the whole timestamp |
| `Duplicates.MarkedHasUnmarkedTwin` | engine/src/afterfact.rs:1095-1106 | Every marked record has an earlier unmarked twin |
| `Duplicates.CopiesWritten` | engine/src/afterfact.rs:1083-1106 | Two copies of a record are written if the first record of its time is one of several copies, otherwise one |
| `Duplicates.OneCopyWrittenIff` | engine/src/afterfact.rs:1083-1106 | Exactly one copy is written exactly when the first record of the time is another record or the only copy |
| `Duplicates.FirstTwoAreBothWritten` | engine/src/afterfact.rs:1083-1106 | Two equal records at the first place of their time: both are written |
| `Duplicates.SortKeepsCopies` | engine/src/afterfact.rs:265 | The sorted list holds as many copies of a record as the input |
| `Duplicates.OutputAfterfact` | engine/src/afterfact.rs:264-275 | Sorting and marking together: an index is marked exactly when an earlier record of its time, not the first, has the same fields; of any number of copies in the input one is written, or two if the first record of their time is one of them |
| `Statistics.AfterfactInfo.Calc` | engine/src/afterfact.rs:491-606 | One batch counts its detections that are not duplicates, in order |
| `Statistics.AfterfactInfo.Count` | engine/src/afterfact.rs:501-604 | What one detection adds, with and without a summary |
| `Statistics.AfterfactInfo.CountupComputers` | engine/src/afterfact.rs:555-583 | Each new computer-and-rule key raises the counter of its computer |
| `Statistics.CalcBatches` | engine/src/afterfact.rs:224-298 | A run over batches, each with its own duplicates, ends with the counters of all written detections in one list, and they are consistent |
| `Statistics.BatchesDoNotMatter` | engine/src/afterfact.rs:224-298 | Two runs that write the same detections end with the same counters however they were cut into batches |
| `Statistics.RunsConserve` | engine/src/afterfact.rs:491-606 | Over every run each level's total equals its sum over titles and over dates, unique counts sum to the rule ids, computer counts to the keys |
| `Statistics.TotalsMean` | engine/src/afterfact.rs:602-603 | A level's total is the number of its detections |
| `Statistics.BreakdownsMean` | engine/src/afterfact.rs:588-601 | The counters of a title and of a day are the numbers of their detections |
| `Statistics.RecordsMean` | engine/src/afterfact.rs:491-543 | The times of all written detections in order, and the ids made of time and event id of their records, those of every hit for an aggregation |
| `Statistics.UniqueMean` | engine/src/afterfact.rs:545-553 | A level's unique count is the number of rules that fired first at it |
| `Statistics.ComputersMean` | engine/src/afterfact.rs:555-583 | A detection counts once, at its level, for each of its computers on which no earlier one left the same computer-and-rule key |
| `Statistics.TitlePathsMean` | engine/src/afterfact.rs:584-587 | The rule file kept for a title is that of its last detection |
| `Statistics.SummaryIsExactIff` | engine/src/afterfact.rs:545-583 | Unique counts sum to the number of rules that fired; computer counts sum to the computer-and-rule pairs exactly when no two pairs are written alike |
| `DetailOrder.ProcessTargetStock` | engine/src/afterfact.rs:2129-2149 | The map holds each key's values in input order and the list the keys in order of first appearance |
| `DetailOrder.ParsePair` | engine/src/afterfact.rs:2134-2137 | A detail is cut at its first colon, and both parts are stripped and escaped |
| `DetailOrder.ParseNothing` | engine/src/afterfact.rs:2134-2137 | Without a colon key and value are empty |
| `DetailOrder.Restore` | engine/src/afterfact.rs:1993-2002 | Whatever order the map is listed in, overwriting the slots yields the groups in list order |
| `DetailOrder.GroupDetails` | engine/src/afterfact.rs:1945-2002 | The restored groups are a function of the input alone, independent of hash order |
| `DetailOrder.GroupingIsLossless` | engine/src/afterfact.rs:2129-2149 | Every input entry is in the groups exactly once |

## Left out

- Parsing: YAML, JSON, dates, regular expressions, wildcards and event log files are function parameters or already parsed inputs; so are the JSON fields of a process record and of a graph event after merging.
- Text beyond ASCII: stripping, upper and lower case treat ASCII letters and spaces only, and SQLite's own case folding is ASCII.
- Numbers in event fields: a process id or port arrives as text, not as a JSON number to be converted.
- Rounding: scores, rates and timestamps are real numbers; binary floating point is not modelled.
- Query order and paging: ORDER BY, LIMIT and OFFSET of the detection queries, and the order of the ranking rows.
- `ranking`: the choice of the latest job per computer, nicknames and ranks; the query rows are inputs.
- Suppression snapshots as files: which bucket file an entry is written to and the rewriting of the other files on import.
- Feedback history files and job columns other than the two counters.
- A final audit line without a newline, which a crash can leave behind and onto which the next append would be written; the lock that serialises appends.
- Line splitting: the tail splits on every line boundary that Python knows, the reindex on newlines only; a log is a sequence of lines here.
- A poll that ends inside a multi-byte character, whose bytes are replaced on both sides of the cut.
- Log lines that are JSON but no object, on which both indexers raise an exception.
- A log that is rewritten between two polls or while a reindex reads it; growth happens between the steps of a run.
- The aliasing of record dictionaries before stitching: the tables of the process tree hold records, and node objects are made from them afterwards.
- Labels, images and narratives of placeholder and displayed process nodes.
- Graph events are applied nodes first and links second; in the code the links of an event are made as its nodes come up, with the same tables as the result.
- The limit of 12000 rows on the query that feeds the graph builder; the events are an input.
- The graph's notes, edge labels and the list of the ten most frequent channels.
- `RuleLoading.ParseYaml.ReadDir`: a rule path that is a single file, encoded rules, correlation counters and lookup tables are not part of it, nor are I/O errors while a directory is listed.
- `RuleCounts.CountRules`: one directory's documents; the recursion into subdirectories only carries the container along.
- `ChannelFilter.VisitValue`: mapping keys are texts, because the code unwraps them and stops otherwise.
- `Duplicates.IsSort`: the sorting algorithm is a library's; any ordered permutation is allowed for it.
- Author counters, timelines, charts, colours and report text of the output stage.
- The other three behavioural analysers, deduplication and the cut to the top results.
- HTTP routing, server-sent events, subprocess control, uploads, Elasticsearch and feed downloads.
