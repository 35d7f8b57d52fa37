/**
 Host globs against SQLite's LIKE operator.

 The console lets an analyst write host patterns with `*` and `?` and stores or
 runs them as LIKE patterns.  `GlobToLike` is the chain of five `replace` calls,
 `LikeToGlob` the chain of six that is meant to undo it.
 */
module GlobLike {
  import opened Wrappers
  import opened Strings

  // ------------------------------------------------------------- matching

  /** SQLite's LIKE ignores case for the ASCII letters only. */
  function Fold(c: char): char { LowerChar(c) }

  /** `s LIKE p`, or `s LIKE p ESCAPE esc`.  A trailing escape character matches nothing. */
  predicate LikeMatch(p: string, esc: Option<char>, s: string)
    decreases |p| + |s|
  {
    if p == "" then s == ""
    else if p[0] == '%' then LikeMatch(p[1..], esc, s) || (s != "" && LikeMatch(p, esc, s[1..]))
    else if esc == Some(p[0]) then
      |p| >= 2 && s != "" && Fold(p[1]) == Fold(s[0]) && LikeMatch(p[2..], esc, s[1..])
    else s != "" && (p[0] == '_' || Fold(p[0]) == Fold(s[0])) && LikeMatch(p[1..], esc, s[1..])
  }

  /** What the user means: `*` is any text, `?` any one character, the rest stands for itself. */
  predicate GlobMatch(g: string, s: string)
    decreases |g| + |s|
  {
    if g == "" then s == ""
    else if g[0] == '*' then GlobMatch(g[1..], s) || (s != "" && GlobMatch(g, s[1..]))
    else s != "" && (g[0] == '?' || Fold(g[0]) == Fold(s[0])) && GlobMatch(g[1..], s[1..])
  }

  // ------------------------------------------------------------- what a glob means

  /** Two globs one after the other match what splits into a match of the first and one of the second. */
  lemma {:induction false} GlobConcat(g: string, h: string, s: string)
    ensures GlobMatch(g + h, s) <==> exists i :: 0 <= i <= |s| && GlobMatch(g, s[..i]) && GlobMatch(h, s[i..])
    decreases |g| + |s|
  {
    if g == "" {
      assert g + h == h && s[..0] == "" && s[0..] == s;
    } else {
      assert (g + h)[1..] == g[1..] + h;
      if g[0] == '*' {
        GlobConcat(g[1..], h, s);
        if s != "" { GlobConcat(g, h, s[1..]); }
        StarFirst(g, h, s);
      } else {
        if s != "" { GlobConcat(g[1..], h, s[1..]); }
        CharFirst(g, h, s);
      }
    }
  }

  ghost predicate Splits(g: string, h: string, s: string) {
    exists i :: 0 <= i <= |s| && GlobMatch(g, s[..i]) && GlobMatch(h, s[i..])
  }

  lemma StarFirst(g: string, h: string, s: string)
    requires g != "" && g[0] == '*'
    ensures Splits(g, h, s) <==> Splits(g[1..], h, s) || (s != "" && Splits(g, h, s[1..]))
  {
    if Splits(g, h, s) {
      var i :| 0 <= i <= |s| && GlobMatch(g, s[..i]) && GlobMatch(h, s[i..]);
      if !GlobMatch(g[1..], s[..i]) {
        var t := s[1..];
        assert s[..i][1..] == t[..i - 1] && s[i..] == t[i - 1..];
      }
    }
    if s != "" && Splits(g, h, s[1..]) {
      var t := s[1..];
      var i :| 0 <= i <= |t| && GlobMatch(g, t[..i]) && GlobMatch(h, t[i..]);
      assert s[..i + 1][1..] == t[..i] && s[i + 1..] == t[i..];
    }
  }

  lemma CharFirst(g: string, h: string, s: string)
    requires g != "" && g[0] != '*'
    ensures Splits(g, h, s) <==>
            s != "" && (g[0] == '?' || Fold(g[0]) == Fold(s[0])) && Splits(g[1..], h, s[1..])
  {
    if Splits(g, h, s) {
      var i :| 0 <= i <= |s| && GlobMatch(g, s[..i]) && GlobMatch(h, s[i..]);
      var t := s[1..];
      assert s[..i][1..] == t[..i - 1] && s[i..] == t[i - 1..];
    }
    if s != "" && (g[0] == '?' || Fold(g[0]) == Fold(s[0])) && Splits(g[1..], h, s[1..]) {
      var t := s[1..];
      var i :| 0 <= i <= |t| && GlobMatch(g[1..], t[..i]) && GlobMatch(h, t[i..]);
      assert s[..i + 1][1..] == t[..i] && s[i + 1..] == t[i..];
    }
  }

  /** A star matches every text. */
  lemma {:induction false} StarMatches(s: string)
    ensures GlobMatch("*", s)
  {
    if s != "" { StarMatches(s[1..]); }
  }

  /** Without stars a glob matches the texts of its length that agree with it, case apart, wherever it has no `?`. */
  lemma {:induction false} StarFreeMatches(g: string, s: string)
    requires '*' !in g
    ensures GlobMatch(g, s) <==>
            |g| == |s| && forall i :: 0 <= i < |g| ==> g[i] == '?' || LowerChar(g[i]) == LowerChar(s[i])
  {
    if g != "" && s != "" {
      StarFreeMatches(g[1..], s[1..]);
      assert forall i :: 0 < i < |g| && i < |s| ==> g[i] == g[1..][i - 1] && s[i] == s[1..][i - 1];
    }
  }

  // ------------------------------------------------------------- translation

  function GlobToLike(g: string): string {
    var a := Replace(g, "\\", "\\\\");
    var b := Replace(a, "%", "\\%");
    var c := Replace(b, "_", "\\_");
    var d := Replace(c, "*", "%");
    Replace(d, "?", "_")
  }

  const PCT := "\0pct\0"
  const UND := "\0und\0"

  function LikeToGlob(p: string): string {
    var a := Replace(p, "\\%", PCT);
    var b := Replace(a, "\\_", UND);
    var c := Replace(b, "%", "*");
    var d := Replace(c, "_", "?");
    var e := Replace(d, PCT, "%");
    Replace(e, UND, "_")
  }

  /** The one-pass meaning of the five replacements, one character of the glob at a time. */
  function Translate(c: char): string {
    match c
    case '\\' => "\\\\"
    case '%' => "\\%"
    case '_' => "\\_"
    case '*' => "%"
    case '?' => "_"
    case _ => [c]
  }

  lemma GlobToLikeConcat(x: string, y: string)
    ensures GlobToLike(x + y) == GlobToLike(x) + GlobToLike(y)
  {
    ReplaceCharConcat(x, y, '\\', "\\\\");
    var ax, ay := Replace(x, "\\", "\\\\"), Replace(y, "\\", "\\\\");
    ReplaceCharConcat(ax, ay, '%', "\\%");
    var bx, bz := Replace(ax, "%", "\\%"), Replace(ay, "%", "\\%");
    ReplaceCharConcat(bx, bz, '_', "\\_");
    var cx, cy := Replace(bx, "_", "\\_"), Replace(bz, "_", "\\_");
    ReplaceCharConcat(cx, cy, '*', "%");
    ReplaceCharConcat(Replace(cx, "*", "%"), Replace(cy, "*", "%"), '?', "_");
  }

  /** The passes do not interfere: none of them rewrites what an earlier one produced. */
  lemma GlobToLikeHead(g: string)
    requires g != ""
    ensures GlobToLike(g) == Translate(g[0]) + GlobToLike(g[1..])
  {
    assert g == [g[0]] + g[1..];
    GlobToLikeConcat([g[0]], g[1..]);
    SingleChar(g[0]);
  }

  lemma SingleChar(c: char)
    ensures GlobToLike([c]) == Translate(c)
  {
    ReplaceOne(c, '\\', "\\\\");
    var a := Replace([c], "\\", "\\\\");
    if c == '\\' {
      InertTwo('\\', '\\', '%', "\\%");
      InertTwo('\\', '\\', '_', "\\_");
      InertTwo('\\', '\\', '*', "%");
      InertTwo('\\', '\\', '?', "_");
    } else {
      assert a == [c];
      ReplaceOne(c, '%', "\\%");
      if c == '%' {
        InertTwo('\\', '%', '_', "\\_");
        InertTwo('\\', '%', '*', "%");
        InertTwo('\\', '%', '?', "_");
      } else {
        ReplaceOne(c, '_', "\\_");
        if c == '_' {
          InertTwo('\\', '_', '*', "%");
          InertTwo('\\', '_', '?', "_");
        } else {
          ReplaceOne(c, '*', "%");
          ReplaceOne(c, '?', "_");
          ReplaceOne('%', '?', "_");
        }
      }
    }
  }

  lemma ReplaceOne(c: char, pat: char, sub: string)
    ensures Replace([c], [pat], sub) == if c == pat then sub else [c]
  {
    assert [c] == [c] + "";
    if c == pat {
      ReplaceHit([pat], sub, "");
    } else {
      assert ([c] + "")[0] == c;
      ReplaceSkip(c, "", [pat], sub);
    }
  }

  lemma InertTwo(c: char, d: char, pat: char, sub: string)
    requires c != pat && d != pat
    ensures Replace([c, d], [pat], sub) == [c, d]
  {
    assert [c, d] == [c] + [d];
    ReplaceCharConcat([c], [d], pat, sub);
    ReplaceOne(c, pat, sub);
    ReplaceOne(d, pat, sub);
  }

  // ------------------------------------------------------------- a text between two percent signs

  /** At place `i` of `s` stands the text `t`, the case of the letters ignored. */
  predicate StandsAt(t: string, s: string, i: nat) {
    i + |t| <= |s| && forall j :: 0 <= j < |t| ==> LowerChar(t[j]) == LowerChar(s[i + j])
  }

  lemma {:induction false} PercentMatches(s: string)
    ensures LikeMatch("%", None, s)
  {
    if s != "" { PercentMatches(s[1..]); }
  }

  lemma {:induction false} LikeStartsWith(t: string, s: string)
    requires '%' !in t && '_' !in t
    ensures LikeMatch(t + "%", None, s) <==> StandsAt(t, s, 0)
  {
    if t == "" {
      assert t + "%" == "%";
      PercentMatches(s);
    } else if s != "" {
      var u, r := t[1..], s[1..];
      assert (t + "%")[1..] == u + "%" && (t + "%")[0] == t[0];
      LikeStartsWith(u, r);
      assert (forall j :: 0 < j < |t| ==> t[j] == u[j - 1]) && forall j :: 0 < j < |s| ==> s[j] == r[j - 1];
      assert (forall j :: 0 <= j < |u| ==> u[j] == t[j + 1]) && forall j :: 0 <= j < |r| ==> r[j] == s[j + 1];
    }
  }

  /** `LIKE '%text%'` asks whether the text occurs, the case of the letters ignored. */
  lemma {:induction false} LikeContains(t: string, s: string)
    requires '%' !in t && '_' !in t
    ensures LikeMatch("%" + t + "%", None, s) <==> exists i: nat :: StandsAt(t, s, i)
  {
    var p := "%" + t + "%";
    assert p[0] == '%' && p[1..] == t + "%";
    LikeStartsWith(t, s);
    if s != "" {
      var r := s[1..];
      LikeContains(t, r);
      forall i: nat ensures StandsAt(t, r, i) <==> StandsAt(t, s, i + 1) {
        assert forall k :: 0 < k < |s| ==> s[k] == r[k - 1];
      }
      if i: nat :| StandsAt(t, s, i) {
        if i > 0 { assert StandsAt(t, r, i - 1); }
      }
    }
  }

  // ------------------------------------------------- the hunt filter (ESCAPE)

  /** With the ESCAPE clause the LIKE pattern means exactly what the glob means, for every input. */
  lemma {:induction false} EscapedLikeIsGlob(g: string, s: string)
    ensures LikeMatch(GlobToLike(g), Some('\\'), s) == GlobMatch(g, s)
    decreases |g| + |s|
  {
    if g != "" {
      GlobToLikeHead(g);
      var rest := GlobToLike(g[1..]);
      var p := GlobToLike(g);
      assert p == Translate(g[0]) + rest;
      if g[0] == '*' {
        assert p[1..] == rest;
        EscapedLikeIsGlob(g[1..], s);
        if s != "" { EscapedLikeIsGlob(g, s[1..]); }
      } else {
        assert p[|Translate(g[0])|..] == rest;
        if s != "" { EscapedLikeIsGlob(g[1..], s[1..]); }
      }
    }
  }

  // -------------------------------------------- the suppression join (no ESCAPE)

  predicate IsLikeMeta(c: char) { c == '\\' || c == '%' || c == '_' }

  /** Free of the three characters the translation has to escape. */
  predicate MetaFree(g: string) {
    forall i :: 0 <= i < |g| ==> !IsLikeMeta(g[i])
  }

  function Backslashes(s: string): nat {
    if s == "" then 0 else (if s[0] == '\\' then 1 else 0) + Backslashes(s[1..])
  }

  /** The shortest host a glob matches: stars removed, `?` filled in. */
  function Shortest(g: string): string {
    if g == "" then ""
    else if g[0] == '*' then Shortest(g[1..])
    else [if g[0] == '?' then 'a' else g[0]] + Shortest(g[1..])
  }

  lemma {:induction false} ShortestMatches(g: string)
    ensures GlobMatch(g, Shortest(g))
    ensures Backslashes(Shortest(g)) == Backslashes(g)
  {
    if g != "" {
      ShortestMatches(g[1..]);
      if g[0] != '*' { assert Shortest(g)[1..] == Shortest(g[1..]); }
    }
  }

  /** Without ESCAPE every backslash of the pattern demands a backslash of the host. */
  lemma {:induction false} UnescapedNeedsBackslashes(p: string, s: string)
    requires LikeMatch(p, None, s)
    ensures Backslashes(p) <= Backslashes(s)
    decreases |p| + |s|
  {
    if p != "" {
      if p[0] == '%' {
        if LikeMatch(p[1..], None, s) {
          UnescapedNeedsBackslashes(p[1..], s);
        } else {
          UnescapedNeedsBackslashes(p, s[1..]);
        }
      } else {
        UnescapedNeedsBackslashes(p[1..], s[1..]);
      }
    }
  }

  lemma BackslashesConcat(a: string, b: string)
    ensures Backslashes(a + b) == Backslashes(a) + Backslashes(b)
  {
    if a == "" {
      assert a + b == b;
    } else {
      assert (a + b)[1..] == a[1..] + b;
    }
  }

  lemma {:induction false} TranslationAddsBackslashes(g: string)
    ensures Backslashes(GlobToLike(g)) >= Backslashes(g)
    ensures !MetaFree(g) ==> Backslashes(GlobToLike(g)) > Backslashes(g)
  {
    if g != "" {
      TranslationAddsBackslashes(g[1..]);
      GlobToLikeHead(g);
      BackslashesConcat(Translate(g[0]), GlobToLike(g[1..]));
      BackslashesConcat("\\", "\\");
      assert Backslashes(Translate(g[0])) == if g[0] == '\\' then 2 else if IsLikeMeta(g[0]) then 1 else 0 by {
        if g[0] == '%' { BackslashesConcat("\\", "%"); }
        if g[0] == '_' { BackslashesConcat("\\", "_"); }
        if g[0] == '\\' { assert "\\\\" == "\\" + "\\"; }
      }
      if !MetaFree(g) && !IsLikeMeta(g[0]) {
        var i :| 0 <= i < |g| && IsLikeMeta(g[i]);
        assert g[1..][i - 1] == g[i];
      }
    }
  }

  lemma {:induction false} MetaFreeUnescaped(g: string, s: string)
    requires MetaFree(g)
    ensures LikeMatch(GlobToLike(g), None, s) == GlobMatch(g, s)
    decreases |g| + |s|
  {
    if g != "" {
      GlobToLikeHead(g);
      assert !IsLikeMeta(g[0]);
      assert GlobToLike(g)[1..] == GlobToLike(g[1..]);
      assert MetaFree(g[1..]);
      if g[0] == '*' { MetaFreeUnescaped(g[1..], s); }
      if s != "" { MetaFreeUnescaped(if g[0] == '*' then g else g[1..], s[1..]); }
    }
  }

  /** The suppression join leaves ESCAPE out: it honours exactly the globs without LIKE metas. */
  lemma UnescapedLikeIsGlobIff(g: string)
    ensures (forall s :: LikeMatch(GlobToLike(g), None, s) == GlobMatch(g, s)) <==> MetaFree(g)
  {
    if MetaFree(g) {
      forall s ensures LikeMatch(GlobToLike(g), None, s) == GlobMatch(g, s) {
        MetaFreeUnescaped(g, s);
      }
    } else {
      var host := Shortest(g);
      ShortestMatches(g);
      TranslationAddsBackslashes(g);
      if LikeMatch(GlobToLike(g), None, host) {
        UnescapedNeedsBackslashes(GlobToLike(g), host);
      }
      assert LikeMatch(GlobToLike(g), None, host) != GlobMatch(g, host);
    }
  }

  // ------------------------------------------------------------- the inverse

  predicate NulFree(s: string) { forall i :: 0 <= i < |s| ==> s[i] != '\0' }

  /** What the first four passes of the inverse aim at: one scan that undoes the escapes. */
  function Unescape(p: string): string {
    if p == "" then ""
    else if "\\%" <= p || "\\_" <= p then [p[1]] + Unescape(p[2..])
    else [if p[0] == '%' then '*' else if p[0] == '_' then '?' else p[0]] + Unescape(p[1..])
  }

  /** `%` and `_` in their NUL-delimited disguise. */
  function Disguise(u: string): string {
    if u == "" then ""
    else (if u[0] == '%' then PCT else if u[0] == '_' then UND else [u[0]]) + Disguise(u[1..])
  }

  function FirstFour(p: string): string {
    Replace(Replace(Replace(Replace(p, "\\%", PCT), "\\_", UND), "%", "*"), "_", "?")
  }

  lemma FirstFourPct(q: string)
    ensures FirstFour("\\%" + q) == PCT + FirstFour(q)
  {
    ReplaceHit("\\%", PCT, q);
    var a := Replace(q, "\\%", PCT);
    ReplaceInertPrefix(PCT, a, "\\_", UND);
    LastTwoInert(PCT, Replace(a, "\\_", UND));
  }

  lemma FirstFourUnd(q: string)
    ensures FirstFour("\\_" + q) == UND + FirstFour(q)
  {
    var p := "\\_" + q;
    assert p == ['\\'] + (['_'] + q) && p[1] == '_';
    ReplaceSkip('\\', ['_'] + q, "\\%", PCT);
    ReplaceSkip('_', q, "\\%", PCT);
    var a := Replace(q, "\\%", PCT);
    assert ['\\'] + (['_'] + a) == "\\_" + a;
    ReplaceHit("\\_", UND, a);
    LastTwoInert(UND, Replace(a, "\\_", UND));
  }

  function Bare(c: char): char {
    if c == '%' then '*' else if c == '_' then '?' else c
  }

  lemma FirstFourOther(c: char, q: string)
    requires !("\\%" <= [c] + q) && !("\\_" <= [c] + q)
    ensures FirstFour([c] + q) == [Bare(c)] + FirstFour(q)
  {
    ReplaceSkip(c, q, "\\%", PCT);
    var a := Replace(q, "\\%", PCT);
    HeadSurvives(q);
    assert a != "" ==> ([c] + a)[1] == a[0];
    assert q != "" ==> ([c] + q)[1] == q[0];
    ReplaceSkip(c, a, "\\_", UND);
    var b := Replace(a, "\\_", UND);
    ReplaceCharConcat([c], b, '%', "*");
    ReplaceOne(c, '%', "*");
    var d := if c == '%' then '*' else c;
    ReplaceCharConcat([d], Replace(b, "%", "*"), '_', "?");
    ReplaceOne(d, '_', "?");
  }

  lemma {:induction false} FirstFourUnescape(p: string)
    requires NulFree(p)
    ensures FirstFour(p) == Disguise(Unescape(p))
  {
    if p != "" {
      var k := if "\\%" <= p || "\\_" <= p then 2 else 1;
      var q := p[k..];
      assert p == p[..k] + q;
      FirstFourUnescape(q);
      assert Unescape(p)[1..] == Unescape(q);
      if "\\%" <= p {
        assert p == "\\%" + q;
        FirstFourPct(q);
      } else if "\\_" <= p {
        assert p == "\\_" + q;
        FirstFourUnd(q);
        assert Unescape(p)[0] == '_';
      } else {
        assert p[..1] == [p[0]];
        FirstFourOther(p[0], q);
      }
    }
  }

  /** The first pass changes the head of a string only into a NUL. */
  lemma HeadSurvives(q: string)
    ensures var a := Replace(q, "\\%", PCT); a != "" ==> q != "" && (a[0] == '\0' || a[0] == q[0])
  {
  }

  lemma {:induction false} ReplaceInertPrefix(x: string, rest: string, pat: string, sub: string)
    requires pat != "" && forall i :: 0 <= i < |x| ==> x[i] != pat[0]
    ensures Replace(x + rest, pat, sub) == x + Replace(rest, pat, sub)
  {
    if x == "" {
      assert x + rest == rest;
    } else {
      assert x + rest == [x[0]] + (x[1..] + rest);
      ReplaceSkip(x[0], x[1..] + rest, pat, sub);
      ReplaceInertPrefix(x[1..], rest, pat, sub);
      assert x == [x[0]] + x[1..];
    }
  }

  lemma SkipThenInert(c: char, x: string, rest: string, pat: string, sub: string)
    requires pat != "" && !(pat <= [c] + (x + rest)) && forall i :: 0 <= i < |x| ==> x[i] != pat[0]
    ensures Replace([c] + (x + rest), pat, sub) == [c] + x + Replace(rest, pat, sub)
  {
    ReplaceSkip(c, x + rest, pat, sub);
    ReplaceInertPrefix(x, rest, pat, sub);
    assert [c] + (x + Replace(rest, pat, sub)) == [c] + x + Replace(rest, pat, sub);
  }

  lemma LastTwoInert(x: string, rest: string)
    requires forall i :: 0 <= i < |x| ==> x[i] != '%' && x[i] != '_'
    ensures Replace(Replace(x + rest, "%", "*"), "_", "?") == x + Replace(Replace(rest, "%", "*"), "_", "?")
  {
    ReplaceInertPrefix(x, rest, "%", "*");
    ReplaceInertPrefix(x, Replace(rest, "%", "*"), "_", "?");
  }

  /** An underscore whose disguise runs into a later one: `_pct%` or `_pct_`. */
  predicate Tangled(u: string) { "_pct%" <= u || "_pct_" <= u }

  predicate TangleFree(u: string) {
    u == "" || (!Tangled(u) && TangleFree(u[1..]))
  }

  function LastTwo(d: string): string { Replace(Replace(d, PCT, "%"), UND, "_") }

  lemma LastTwoPct(d: string)
    ensures LastTwo(PCT + d) == ['%'] + LastTwo(d)
  {
    ReplaceHit(PCT, "%", d);
    var e := Replace(d, PCT, "%");
    assert (['%'] + e)[0] == '%';
    ReplaceSkip('%', e, UND, "_");
  }

  lemma LastTwoPlain(c: char, d: string)
    requires c != '\0'
    ensures LastTwo([c] + d) == [c] + LastTwo(d)
  {
    assert ([c] + d)[0] == c;
    ReplaceSkip(c, d, PCT, "%");
    var e := Replace(d, PCT, "%");
    assert ([c] + e)[0] == c;
    ReplaceSkip(c, e, UND, "_");
  }

  lemma SpelledOut(d: string)
    ensures UND + d == ['\0'] + ("und" + (['\0'] + d))
  {
    assert UND == ['\0'] + "und" + ['\0'];
  }

  lemma UndKept(d: string)
    ensures Replace(UND + d, PCT, "%") == "\0und" + Replace(['\0'] + d, PCT, "%")
  {
    var t := "und" + (['\0'] + d);
    SpelledOut(d);
    assert PCT[1] == 'p' && (['\0'] + t)[1] == "und"[0] == 'u';
    SkipThenInert('\0', "und", ['\0'] + d, PCT, "%");
    assert ['\0'] + "und" == "\0und";
  }

  lemma LastTwoUnd(d: string)
    requires !("pct\0" <= d)
    ensures LastTwo(UND + d) == ['_'] + LastTwo(d)
  {
    UndKept(d);
    assert PCT == ['\0'] + "pct\0";
    var w := ['\0'] + d;
    assert w[1..] == d;
    assert |d| >= 4 ==> w[1] == d[0] && w[2] == d[1] && w[3] == d[2] && w[4] == d[3];
    ReplaceSkip('\0', d, PCT, "%");
    var e := Replace(d, PCT, "%");
    assert "\0und" + (['\0'] + e) == UND + e;
    ReplaceHit(UND, "_", e);
  }

  /** The closing NUL of one disguise opens a spurious second one. */
  lemma LastTwoTangled(d: string)
    requires "pct\0" <= d
    ensures LastTwo(UND + d) != "" && LastTwo(UND + d)[0] == '\0'
  {
    UndKept(d);
    assert ['\0'] + d == PCT + d[4..];
    ReplaceHit(PCT, "%", d[4..]);
    var t := "und" + ("%" + Replace(d[4..], PCT, "%"));
    assert Replace(UND + d, PCT, "%") == ['\0'] + t;
    assert (['\0'] + t)[4] == '%';
    ReplaceSkip('\0', t, UND, "_");
  }

  /** The last two passes give the head back, unless it starts a tangle: then a NUL is left. */
  lemma LastTwoHead(u: string)
    requires NulFree(u) && u != ""
    ensures !Tangled(u) ==> LastTwo(Disguise(u)) == [u[0]] + LastTwo(Disguise(u[1..]))
    ensures Tangled(u) ==> LastTwo(Disguise(u)) != "" && LastTwo(Disguise(u))[0] == '\0'
  {
    var d := Disguise(u[1..]);
    if u[0] == '%' {
      LastTwoPct(d);
    } else if u[0] == '_' {
      DisguiseStartsWithPct(u[1..]);
      TangledTail(u);
      if Tangled(u) { LastTwoTangled(d); } else { LastTwoUnd(d); }
    } else {
      LastTwoPlain(u[0], d);
    }
  }

  lemma TangledTail(u: string)
    requires u != "" && u[0] == '_'
    ensures Tangled(u) <==> "pct%" <= u[1..] || "pct_" <= u[1..]
  {
    assert u == ['_'] + u[1..];
    assert "_pct%" == ['_'] + "pct%" && "_pct_" == ['_'] + "pct_";
    if "_pct%" <= u { assert "_pct%"[1..] <= u[1..]; }
    if "_pct_" <= u { assert "_pct_"[1..] <= u[1..]; }
  }

  lemma DisguiseStartsWithPct(r: string)
    requires NulFree(r)
    ensures "pct\0" <= Disguise(r) <==> "pct%" <= r || "pct_" <= r
  {
    DisguiseHead(r);
    if |r| >= 1 { DisguiseHead(r[1..]); }
    if |r| >= 2 { DisguiseHead(r[1..][1..]); assert r[1..][1..] == r[2..]; }
    if |r| >= 3 { DisguiseHead(r[2..][1..]); assert r[2..][1..] == r[3..]; }
    if |r| >= 1 && r[0] == 'p' {
      assert Disguise(r)[1..] == Disguise(r[1..]);
      if |r| >= 2 && r[1] == 'c' {
        assert Disguise(r[1..])[1..] == Disguise(r[2..]);
        if |r| >= 3 && r[2] == 't' {
          assert Disguise(r[2..])[1..] == Disguise(r[3..]);
        }
      }
    }
  }

  lemma DisguiseHead(r: string)
    requires NulFree(r)
    ensures r == "" ==> Disguise(r) == ""
    ensures r != "" ==> Disguise(r) != ""
    ensures r != "" && r[0] != '%' && r[0] != '_' ==> Disguise(r) == [r[0]] + Disguise(r[1..]) && Disguise(r)[0] != '\0'
    ensures r != "" && (r[0] == '%' || r[0] == '_') ==> Disguise(r)[0] == '\0'
  {
  }

  lemma {:induction false} LastTwoUndoesIff(u: string)
    requires NulFree(u)
    ensures TangleFree(u) ==> LastTwo(Disguise(u)) == u
    ensures !TangleFree(u) ==> !NulFree(LastTwo(Disguise(u)))
  {
    if u != "" {
      LastTwoHead(u);
      assert NulFree(u[1..]);
      LastTwoUndoesIff(u[1..]);
      var l, l' := LastTwo(Disguise(u)), LastTwo(Disguise(u[1..]));
      if !Tangled(u) && !TangleFree(u[1..]) {
        var i :| 0 <= i < |l'| && l'[i] == '\0';
        assert l[i + 1] == '\0';
      }
    }
  }

  predicate BackslashFree(g: string) { forall i :: 0 <= i < |g| ==> g[i] != '\\' }

  lemma UnescapeHead(g: string)
    requires g != "" && g[0] != '\\'
    ensures Unescape(GlobToLike(g)) == [g[0]] + Unescape(GlobToLike(g[1..]))
  {
    GlobToLikeHead(g);
    assert GlobToLike(g)[|Translate(g[0])|..] == GlobToLike(g[1..]);
  }

  lemma {:induction false} UnescapeUndoesTranslation(g: string)
    requires BackslashFree(g)
    ensures Unescape(GlobToLike(g)) == g
  {
    if g != "" {
      UnescapeHead(g);
      assert BackslashFree(g[1..]);
      UnescapeUndoesTranslation(g[1..]);
    }
  }

  /** A backslash is doubled by the translation and never halved again. */
  lemma {:induction false} UnescapeKeepsDoubling(g: string)
    requires !BackslashFree(g)
    ensures Unescape(GlobToLike(g)) != g
  {
    GlobToLikeHead(g);
    var p, q := GlobToLike(g), GlobToLike(g[1..]);
    if g[0] != '\\' {
      assert p[|Translate(g[0])|..] == q;
      assert !BackslashFree(g[1..]) by {
        var i :| 0 <= i < |g| && g[i] == '\\';
        assert g[1..][i - 1] == '\\';
      }
      UnescapeKeepsDoubling(g[1..]);
      assert Unescape(p)[1..] == Unescape(q);
    } else {
      assert p[1..] == ['\\'] + q;
      assert Unescape(p) == ['\\'] + Unescape(['\\'] + q);
      EscapedHead(g[1..]);
    }
  }

  lemma {:induction false} EscapedHead(r: string)
    ensures Unescape(['\\'] + GlobToLike(r)) != r
    ensures r != "" && r[0] == '\\' ==> LeadingBackslashes(Unescape(['\\'] + GlobToLike(r))) > LeadingBackslashes(r)
  {
    var q := GlobToLike(r);
    var s := ['\\'] + q;
    if r == "" {
    } else {
      GlobToLikeHead(r);
      if r[0] == '*' || r[0] == '?' {
        assert Unescape(s)[0] == q[0];
      } else {
        assert s[1..] == q;
        assert Unescape(s) == ['\\'] + Unescape(q);
        if r[0] == '\\' {
          var q' := GlobToLike(r[1..]);
          assert q[1..] == ['\\'] + q';
          assert Unescape(q) == ['\\'] + Unescape(['\\'] + q');
          EscapedHead(r[1..]);
          assert Unescape(s)[1..] == Unescape(q);
          assert Unescape(q)[1..] == Unescape(['\\'] + q');
          if r[1..] == "" || r[1] != '\\' { EscapedHeadLeads(r[1..]); }
        }
      }
    }
  }

  function LeadingBackslashes(s: string): nat {
    if s != "" && s[0] == '\\' then 1 + LeadingBackslashes(s[1..]) else 0
  }

  lemma EscapedHeadLeads(r: string)
    requires r == "" || r[0] != '\\'
    ensures LeadingBackslashes(r) == 0
  {
  }

  lemma {:induction false} TranslationNulFree(g: string)
    requires NulFree(g)
    ensures NulFree(GlobToLike(g)) && NulFree(Unescape(GlobToLike(g)))
  {
    if g != "" {
      GlobToLikeHead(g);
      assert NulFree(g[1..]);
      TranslationNulFree(g[1..]);
    }
    UnescapeNulFree(GlobToLike(g));
  }

  lemma UnescapeNulFree(p: string)
    requires NulFree(p)
    ensures NulFree(Unescape(p))
  {
  }

  /**
   Exactly which NUL-free globs survive the trip through a suppression snapshot.
   A backslash comes back doubled, and `_pct%` or `_pct_` comes back with NULs in
   it, because the trailing NUL of one disguise is taken for the start of another.
   */
  lemma LikeToGlobInvertsIff(g: string)
    requires NulFree(g)
    ensures LikeToGlob(GlobToLike(g)) == g <==> BackslashFree(g) && TangleFree(g)
  {
    TranslationNulFree(g);
    var p := GlobToLike(g);
    FirstFourUnescape(p);
    LastTwoUndoesIff(Unescape(p));
    assert LikeToGlob(p) == LastTwo(Disguise(Unescape(p)));
    if BackslashFree(g) {
      UnescapeUndoesTranslation(g);
    } else {
      UnescapeKeepsDoubling(g);
    }
  }

  /** Two globs never share a LIKE pattern. */
  lemma {:induction false} GlobToLikeInjective(g: string, h: string)
    requires GlobToLike(g) == GlobToLike(h)
    ensures g == h
  {
    if g != "" { GlobToLikeHead(g); }
    if h != "" { GlobToLikeHead(h); }
    if g != "" && h != "" {
      var x, y := Translate(g[0]), Translate(h[0]);
      assert x + GlobToLike(g[1..]) == y + GlobToLike(h[1..]);
      assert (x + GlobToLike(g[1..]))[0] == (y + GlobToLike(h[1..]))[0];
      assert |x| == 2 && |y| == 2 ==> (x + GlobToLike(g[1..]))[1] == (y + GlobToLike(h[1..]))[1];
      assert g[0] == h[0];
      assert (x + GlobToLike(g[1..]))[|x|..] == (y + GlobToLike(h[1..]))[|y|..];
      GlobToLikeInjective(g[1..], h[1..]);
    }
  }

  lemma {:induction false} TranslationSpaces(g: string)
    ensures Spaces(GlobToLike(g)) == Spaces(g)
  {
    if g != "" {
      GlobToLikeHead(g);
      TranslationSpaces(g[1..]);
      SpacesConcat(Translate(g[0]), GlobToLike(g[1..]));
      var x := Translate(g[0]);
      assert |x| == 2 ==> x == [x[0]] + [x[1]];
      SpacesConcat([x[0]], x[1..]);
    }
  }

  lemma {:induction false} UnescapeSpaces(p: string)
    ensures Spaces(Unescape(p)) == Spaces(p)
  {
    if p != "" {
      var k := if "\\%" <= p || "\\_" <= p then 2 else 1;
      UnescapeSpaces(p[k..]);
      assert Unescape(p)[1..] == Unescape(p[k..]);
      if k == 2 { assert p[1..][1..] == p[2..]; }
    }
  }

  /**
   What comes back has no more blanks than the glob: stripping it cannot turn a wrong
   glob into the right one.
   */
  lemma StrippedReturnIff(g: string)
    requires NulFree(g) && Strip(g) == g
    ensures Strip(LikeToGlob(GlobToLike(g))) == g <==> BackslashFree(g) && TangleFree(g)
  {
    var p := GlobToLike(g);
    var u := Unescape(p);
    LikeToGlobInvertsIff(g);
    TranslationNulFree(g);
    FirstFourUnescape(p);
    LastTwoUndoesIff(u);
    assert LikeToGlob(p) == LastTwo(Disguise(u));
    if Strip(LikeToGlob(p)) == g {
      if TangleFree(u) {
        TranslationSpaces(g);
        UnescapeSpaces(p);
        StripLosesSpaces(u);
      } else {
        StripKeepsNul(LikeToGlob(p));
      }
    }
  }

  lemma {:induction false} StripLeftKeepsNul(s: string)
    requires !NulFree(s)
    ensures !NulFree(StripLeft(s))
  {
    if IsSpace(s[0]) {
      var i :| 0 <= i < |s| && s[i] == '\0';
      assert s[1..][i - 1] == '\0';
      StripLeftKeepsNul(s[1..]);
    }
  }

  lemma {:induction false} StripRightKeepsNul(s: string)
    requires !NulFree(s)
    ensures !NulFree(StripRight(s))
  {
    if IsSpace(s[|s| - 1]) {
      var i :| 0 <= i < |s| && s[i] == '\0';
      assert s[..|s| - 1][i] == '\0';
      StripRightKeepsNul(s[..|s| - 1]);
    }
  }

  lemma StripKeepsNul(s: string)
    requires !NulFree(s)
    ensures !NulFree(Strip(s))
  {
    StripLeftKeepsNul(s);
    StripRightKeepsNul(StripLeft(s));
  }

  /** The smallest tangles: `_pct%` does not come back, and no shorter glob without a backslash is lost. */
  lemma TangledGlobIsLost(g: string)
    requires NulFree(g) && BackslashFree(g)
    ensures g == "_pct%" ==> LikeToGlob(GlobToLike(g)) != g
    ensures |g| < 5 ==> LikeToGlob(GlobToLike(g)) == g
  {
    if g == "_pct%" { assert Tangled(g); }
    if |g| < 5 { ShortIsTangleFree(g); }
    LikeToGlobInvertsIff(g);
  }

  lemma {:induction false} ShortIsTangleFree(g: string)
    requires |g| < 5
    ensures TangleFree(g)
  {
    if g != "" { ShortIsTangleFree(g[1..]); }
  }
}
