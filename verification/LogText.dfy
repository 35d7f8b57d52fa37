/**
 The text of a log, cut twice: into lines, as one who reads the finished file sees it,
 and into the pieces that one sees who reads it in polls while it is written.  A poll may
 end anywhere, so that a line can come in several pieces.
 */
module LogText {
  import opened Sequences

  function Joined(parts: seq<string>): string {
    if parts == [] then "" else Joined(parts[..|parts| - 1]) + parts[|parts| - 1]
  }

  /** The last line has not been ended. */
  predicate Open(text: string) { text != "" && text[|text| - 1] != '\n' }

  /** One more character: it starts a line, goes on with one or ends it. */
  function Put(lines: seq<string>, open: bool, c: char): seq<string> {
    if !open || lines == [] then lines + [if c == '\n' then "" else [c]]
    else if c == '\n' then lines
    else lines[..|lines| - 1] + [lines[|lines| - 1] + [c]]
  }

  /** The lines without their line ends; what follows the last line end is a line as well. */
  function Split(text: string): seq<string> {
    if text == "" then [] else Put(Split(text[..|text| - 1]), Open(text[..|text| - 1]), text[|text| - 1])
  }

  /** The text of lines that are all ended. */
  function Ended(lines: seq<string>): string {
    if lines == [] then "" else Ended(lines[..|lines| - 1]) + lines[|lines| - 1] + "\n"
  }

  predicate OneLine(line: string) { forall i :: 0 <= i < |line| ==> line[i] != '\n' }

  /** `lines` hold no line end, and written out with their line ends, but for an open last one, they are `text`. */
  predicate Rejoins(lines: seq<string>, text: string, open: bool) {
    && (forall i :: 0 <= i < |lines| ==> OneLine(lines[i]))
    && if open
       then lines != [] && lines[|lines| - 1] != "" && text == Ended(lines[..|lines| - 1]) + lines[|lines| - 1]
       else text == Ended(lines)
  }

  lemma EndedAppend(lines: seq<string>, line: string)
    ensures Ended(lines + [line]) == Ended(lines) + line + "\n"
  {
    assert (lines + [line])[..|lines|] == lines;
  }

  /** One more character on an open line goes on with it or ends it. */
  lemma RejoinsOpen(before: seq<string>, last: string, text: string, c: char)
    requires Rejoins(before + [last], text, true)
    ensures Rejoins(Put(before + [last], true, c), text + [c], c != '\n')
  {
    var lines := before + [last];
    assert lines[..|lines| - 1] == before && OneLine(lines[|lines| - 1]);
    forall i | 0 <= i < |before| ensures OneLine(before[i]) { assert before[i] == lines[i]; }
    if c == '\n' {
      EndedAppend(before, last);
    } else {
      var more := before + [last + [c]];
      assert more[..|more| - 1] == before;
      assert text + [c] == Ended(before) + (last + [c]);
    }
  }

  /** And otherwise it starts a line, which a line end leaves empty. */
  lemma RejoinsEnded(lines: seq<string>, text: string, c: char)
    requires Rejoins(lines, text, false)
    ensures Rejoins(Put(lines, false, c), text + [c], c != '\n')
  {
    var more := lines + [if c == '\n' then "" else [c]];
    assert more[..|more| - 1] == lines;
    forall i | 0 <= i < |lines| ensures OneLine(more[i]) { assert more[i] == lines[i]; }
    if c == '\n' {
      EndedAppend(lines, "");
      assert Ended(lines) + "" == Ended(lines);
    }
  }

  /** The lines hold no line end, and written out again with their line ends they are the text. */
  lemma {:induction false} SplitRejoins(text: string)
    ensures Rejoins(Split(text), text, Open(text))
  {
    if text != "" {
      var init, c := text[..|text| - 1], text[|text| - 1];
      SplitRejoins(init);
      SplitLast(text);
      RejoinsNext(Split(init), init, Open(init), c, Split(text), text, Open(text));
    }
  }

  lemma SplitLast(text: string)
    requires text != ""
    ensures var init, c := text[..|text| - 1], text[|text| - 1];
            text == init + [c] && Split(text) == Put(Split(init), Open(init), c) && (Open(text) <==> c != '\n')
  {
  }

  lemma RejoinsNext(lines: seq<string>, text: string, open: bool, c: char, lines': seq<string>, text': string,
                    open': bool)
    requires Rejoins(lines, text, open)
    requires text' == text + [c] && lines' == Put(lines, open, c) && (open' <==> c != '\n')
    ensures Rejoins(lines', text', open')
  {
    if open {
      var before, last := lines[..|lines| - 1], lines[|lines| - 1];
      assert lines == before + [last];
      RejoinsOpen(before, last, text, c);
    } else {
      RejoinsEnded(lines, text, c);
    }
  }

  /** The lines of two texts, one after the other: the first line of the second may go on with the last of the first. */
  function Join(x: seq<string>, y: seq<string>, open: bool): seq<string> {
    if open && x != [] && y != [] then x[..|x| - 1] + [x[|x| - 1] + y[0]] + y[1..] else x + y
  }

  lemma {:induction false} SplitEmpty(text: string)
    ensures Split(text) == [] <==> text == ""
  {
    if text != "" { SplitEmpty(text[..|text| - 1]); }
  }

  lemma JoinPut(x: seq<string>, y: seq<string>, openX: bool, openY: bool, c: char)
    requires y != [] && (openX ==> x != [])
    ensures Join(x, Put(y, openY, c), openX) == Put(Join(x, y, openX), openY, c)
  {
    if openX && openY && |y| == 1 && c != '\n' {
      assert x[|x| - 1] + (y[0] + [c]) == (x[|x| - 1] + y[0]) + [c];
    }
  }

  lemma JoinOne(x: seq<string>, open: bool, c: char)
    requires open ==> x != []
    ensures Join(x, Put([], false, c), open) == Put(x, open, c)
  {
    if open && c == '\n' { assert x[|x| - 1] + "" == x[|x| - 1]; }
  }

  lemma {:induction false} SplitConcat(a: string, b: string)
    ensures Split(a + b) == Join(Split(a), Split(b), Open(a))
  {
    SplitEmpty(a);
    if b == "" {
      assert a + b == a;
    } else {
      var init, c := b[..|b| - 1], b[|b| - 1];
      assert (a + b)[..|a + b| - 1] == a + init;
      SplitConcat(a, init);
      SplitEmpty(init);
      if init == "" {
        assert a + init == a && Split(b) == Put([], false, c);
        JoinOne(Split(a), Open(a), c);
      } else {
        JoinPut(Split(a), Split(init), Open(a), Open(init), c);
      }
    }
  }

  // ------------------------------------------------------------- the pieces of each line

  function Alone(pieces: seq<string>): seq<seq<string>> { Map(pieces, (p: string) => [p]) }

  function Itself(group: seq<string>): seq<string> { group }

  function Extend(groups: seq<seq<string>>, pieces: seq<string>, open: bool): seq<seq<string>> {
    if open && groups != [] && pieces != []
    then groups[..|groups| - 1] + [groups[|groups| - 1] + [pieces[0]]] + Alone(pieces[1..])
    else groups + Alone(pieces)
  }

  /** For each line of the whole text the pieces in which the polls brought it. */
  function Groups(polls: seq<string>): seq<seq<string>> {
    if polls == [] then []
    else
      var init := polls[..|polls| - 1];
      Extend(Groups(init), Split(polls[|polls| - 1]), Open(Joined(init)))
  }

  lemma {:induction false} AloneOnes(pieces: seq<string>)
    ensures FlatMap(Alone(pieces), Itself) == pieces && Map(Alone(pieces), Joined) == pieces
  {
    if pieces != [] {
      var init, p := pieces[..|pieces| - 1], pieces[|pieces| - 1];
      AloneOnes(init);
      assert Alone(pieces)[..|init|] == Alone(init);
      assert [p][..0] == [] && Joined([p]) == "" + p == p;
      assert Alone(pieces)[|init|] == [p];
    }
  }

  lemma AppendLast<B>(groups: seq<seq<string>>, g: seq<string>, f: seq<string> -> seq<B>)
    ensures FlatMap(groups + [g], f) == FlatMap(groups, f) + f(g)
  {
    assert (groups + [g])[..|groups|] == groups;
  }

  lemma JoinedAppend(g: seq<string>, p: string)
    ensures Joined(g + [p]) == Joined(g) + p
  {
    assert (g + [p])[..|g|] == g;
  }

  lemma GoOn(groups: seq<seq<string>>, pieces: seq<string>)
    requires groups != [] && pieces != []
    ensures FlatMap(Extend(groups, pieces, true), Itself) == FlatMap(groups, Itself) + pieces
  {
    var init, g, rest := groups[..|groups| - 1], groups[|groups| - 1], pieces[1..];
    AloneOnes(rest);
    AppendLast(init, g + [pieces[0]], Itself);
    FlatMapConcat(init + [g + [pieces[0]]], Alone(rest), Itself);
    assert FlatMap(groups, Itself) == FlatMap(init, Itself) + g;
    GoOnFlat(FlatMap(init, Itself), g, pieces[0], rest);
    assert pieces == [pieces[0]] + rest;
  }

  lemma GoOnFlat(before: seq<string>, g: seq<string>, p: string, rest: seq<string>)
    ensures (before + (g + [p])) + rest == (before + g) + ([p] + rest)
  {
  }

  lemma ExtendPieces(groups: seq<seq<string>>, pieces: seq<string>, open: bool)
    ensures FlatMap(Extend(groups, pieces, open), Itself) == FlatMap(groups, Itself) + pieces
  {
    if open && groups != [] && pieces != [] {
      GoOn(groups, pieces);
    } else {
      AloneOnes(pieces);
      FlatMapConcat(groups, Alone(pieces), Itself);
    }
  }

  lemma GoOnLines(groups: seq<seq<string>>, pieces: seq<string>)
    requires groups != [] && pieces != []
    ensures Map(Extend(groups, pieces, true), Joined) == Join(Map(groups, Joined), pieces, true)
  {
    var init, g, rest := groups[..|groups| - 1], groups[|groups| - 1], pieces[1..];
    AloneOnes(rest);
    JoinedAppend(g, pieces[0]);
    MapConcat(init + [g + [pieces[0]]], Alone(rest), Joined);
    MapLast(init, g + [pieces[0]]);
    MapLast(init, g);
    assert groups == init + [g];
  }

  lemma MapLast(init: seq<seq<string>>, g: seq<string>)
    ensures Map(init + [g], Joined) == Map(init, Joined) + [Joined(g)]
  {
    assert (init + [g])[..|init|] == init;
  }

  lemma ExtendLines(groups: seq<seq<string>>, pieces: seq<string>, open: bool)
    ensures Map(Extend(groups, pieces, open), Joined) == Join(Map(groups, Joined), pieces, open)
  {
    if open && groups != [] && pieces != [] {
      GoOnLines(groups, pieces);
    } else {
      AloneOnes(pieces);
      MapConcat(groups, Alone(pieces), Joined);
    }
  }

  /** The groups hold all pieces in order, and joining each group gives the lines of the whole text. */
  lemma {:induction false} GroupsAreLines(polls: seq<string>)
    ensures FlatMap(Groups(polls), Itself) == FlatMap(polls, Split)
    ensures Map(Groups(polls), Joined) == Split(Joined(polls))
  {
    if polls != [] {
      var init, last := polls[..|polls| - 1], polls[|polls| - 1];
      GroupsAreLines(init);
      ExtendPieces(Groups(init), Split(last), Open(Joined(init)));
      ExtendLines(Groups(init), Split(last), Open(Joined(init)));
      SplitConcat(Joined(init), last);
    }
  }

  /** Every poll but the last ends at a line end. */
  predicate AtLineEnds(polls: seq<string>) {
    forall n :: 0 <= n < |polls| ==> !Open(Joined(polls[..n]))
  }

  /** Then no line comes in pieces. */
  lemma {:induction false} WholeLinesOnly(polls: seq<string>)
    requires AtLineEnds(polls)
    ensures forall g :: g in Groups(polls) ==> |g| == 1 && Joined(g) == g[0]
  {
    if polls != [] {
      var init := polls[..|polls| - 1];
      forall n | 0 <= n < |init| ensures !Open(Joined(init[..n])) { assert init[..n] == polls[..n]; }
      WholeLinesOnly(init);
      var alone := Alone(Split(polls[|polls| - 1]));
      forall g | g in Groups(polls) ensures |g| == 1 && Joined(g) == g[0] {
        if g in alone { assert g[..0] == []; }
      }
    }
  }

  lemma {:induction false} PieceSize(g: seq<string>, i: nat, j: nat)
    requires i < j < |g|
    ensures |g[i]| + |g[j]| <= |Joined(g)|
  {
    var init := g[..|g| - 1];
    if j < |init| { PieceSize(init, i, j); } else { OnePieceSize(init, i); }
  }

  lemma {:induction false} OnePieceSize(g: seq<string>, i: nat)
    requires i < |g|
    ensures |g[i]| <= |Joined(g)|
  {
    if i < |g| - 1 { OnePieceSize(g[..|g| - 1], i); }
  }
}
