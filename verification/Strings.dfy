/** The string operations of the host languages that the modelled code relies on. */
module Strings {

  /** Whether `t` occurs somewhere in `s`. */
  predicate Contains(s: string, t: string) {
    t <= s || (s != "" && Contains(s[1..], t))
  }

  /** `t` occurs in `s` exactly if the text from some place on begins with it. */
  lemma {:induction false} ContainsIff(s: string, t: string)
    ensures Contains(s, t) <==> exists i :: 0 <= i <= |s| && t <= s[i..]
  {
    assert t <= s ==> t <= s[0..];
    if s != "" {
      var rest := s[1..];
      ContainsIff(rest, t);
      if Contains(rest, t) {
        var i :| 0 <= i <= |rest| && t <= rest[i..];
        assert s[i + 1..] == rest[i..];
      }
      if exists i :: 0 <= i <= |s| && t <= s[i..] {
        var i :| 0 <= i <= |s| && t <= s[i..];
        if i > 0 { assert rest[i - 1..] == s[i..]; }
      }
    }
  }

  /** Replaces every occurrence of `pat`, scanning left to right without overlap. */
  function Replace(s: string, pat: string, sub: string): string
    requires pat != ""
  {
    if s == "" then ""
    else if pat <= s then sub + Replace(s[|pat|..], pat, sub)
    else [s[0]] + Replace(s[1..], pat, sub)
  }

  lemma ReplaceHit(pat: string, sub: string, rest: string)
    requires pat != ""
    ensures Replace(pat + rest, pat, sub) == sub + Replace(rest, pat, sub)
  {
    assert (pat + rest)[|pat|..] == rest;
  }

  lemma ReplaceSkip(c: char, rest: string, pat: string, sub: string)
    requires pat != ""
    requires !(pat <= [c] + rest)
    ensures Replace([c] + rest, pat, sub) == [c] + Replace(rest, pat, sub)
  {
    assert ([c] + rest)[1..] == rest;
  }

  /** A one-character replacement works character by character. */
  lemma {:induction false} ReplaceCharConcat(a: string, b: string, c: char, sub: string)
    ensures Replace(a + b, [c], sub) == Replace(a, [c], sub) + Replace(b, [c], sub)
  {
    if a == "" {
      assert a + b == b;
    } else {
      assert a + b == [a[0]] + (a[1..] + b);
      ReplaceCharConcat(a[1..], b, c, sub);
      assert a == [a[0]] + a[1..];
      if a[0] == c {
        ReplaceHit([c], sub, a[1..] + b);
        ReplaceHit([c], sub, a[1..]);
      } else {
        ReplaceSkip(a[0], a[1..] + b, [c], sub);
        ReplaceSkip(a[0], a[1..], [c], sub);
      }
    }
  }

  // ------------------------------------------------------------- whitespace

  predicate IsSpace(c: char) {
    c == ' ' || '\t' <= c <= '\r' || '\U{1c}' <= c <= '\U{1f}'
  }

  /** Tab to carriage return, and the separators up to the blank, by code point. */
  lemma SpaceIs(c: char)
    ensures IsSpace(c) <==> 9 <= c as int <= 13 || 28 <= c as int <= 32
  {
  }

  function StripLeft(s: string): string {
    if s != "" && IsSpace(s[0]) then StripLeft(s[1..]) else s
  }

  function StripRight(s: string): string {
    if s != "" && IsSpace(s[|s| - 1]) then StripRight(s[..|s| - 1]) else s
  }

  function Strip(s: string): string { StripRight(StripLeft(s)) }

  /** What right stripping leaves is a prefix that it would leave alone. */
  lemma {:induction false} StripRightEnds(s: string)
    ensures StripRight(s) <= s && StripRight(StripRight(s)) == StripRight(s)
  {
    if s != "" && IsSpace(s[|s| - 1]) { StripRightEnds(s[..|s| - 1]); }
  }

  lemma {:induction false} StripLeftEnds(s: string)
    ensures StripLeft(s) == "" || !IsSpace(StripLeft(s)[0])
  {
    if s != "" && IsSpace(s[0]) { StripLeftEnds(s[1..]); }
  }

  /** Stripped text stays as it is. */
  lemma StripTwice(s: string)
    ensures Strip(Strip(s)) == Strip(s)
  {
    StripLeftEnds(s);
    StripRightEnds(StripLeft(s));
  }

  predicate AllSpace(s: string) { forall i :: 0 <= i < |s| ==> IsSpace(s[i]) }

  lemma {:induction false} StripLeftIs(s: string) returns (a: string)
    ensures s == a + StripLeft(s) && AllSpace(a)
  {
    a := "";
    if s != "" && IsSpace(s[0]) {
      a := StripLeftIs(s[1..]);
      a := [s[0]] + a;
      assert s == [s[0]] + s[1..];
    }
  }

  lemma {:induction false} StripRightIs(s: string) returns (b: string)
    ensures s == StripRight(s) + b && AllSpace(b)
    ensures var t := StripRight(s); t != "" ==> !IsSpace(t[|t| - 1]) && t[0] == s[0]
  {
    b := "";
    if s != "" && IsSpace(s[|s| - 1]) {
      b := StripRightIs(s[..|s| - 1]);
      b := b + [s[|s| - 1]];
      assert s == s[..|s| - 1] + [s[|s| - 1]];
    }
  }

  /** Stripping takes the whitespace at both ends, all of it and nothing else. */
  lemma StripIs(s: string) returns (a: string, b: string)
    ensures s == a + Strip(s) + b && AllSpace(a) && AllSpace(b)
    ensures var t := Strip(s); t != "" ==> !IsSpace(t[0]) && !IsSpace(t[|t| - 1])
  {
    a := StripLeftIs(s);
    b := StripRightIs(StripLeft(s));
    StripLeftEnds(s);
  }

  function Spaces(s: string): nat {
    if s == "" then 0 else Spaces(s[1..]) + if IsSpace(s[0]) then 1 else 0
  }

  lemma {:induction false} SpacesConcat(a: string, b: string)
    ensures Spaces(a + b) == Spaces(a) + Spaces(b)
  {
    if a == "" {
      assert a + b == b;
    } else {
      SpacesConcat(a[1..], b);
      assert (a + b)[1..] == a[1..] + b;
    }
  }

  lemma {:induction false} StripLeftSpaces(s: string)
    ensures Spaces(StripLeft(s)) <= Spaces(s) && (Spaces(StripLeft(s)) == Spaces(s) ==> StripLeft(s) == s)
  {
    if s != "" && IsSpace(s[0]) { StripLeftSpaces(s[1..]); }
  }

  lemma {:induction false} StripRightSpaces(s: string)
    ensures Spaces(StripRight(s)) <= Spaces(s) && (Spaces(StripRight(s)) == Spaces(s) ==> StripRight(s) == s)
  {
    if s != "" && IsSpace(s[|s| - 1]) {
      var init, last := s[..|s| - 1], s[|s| - 1..];
      StripRightSpaces(init);
      SpacesConcat(init, last);
      assert s == init + last && last[1..] == "";
    }
  }

  /** Stripping that loses no space loses nothing. */
  lemma StripLosesSpaces(s: string)
    requires Spaces(Strip(s)) == Spaces(s)
    ensures Strip(s) == s
  {
    StripLeftSpaces(s);
    StripRightSpaces(StripLeft(s));
  }

  function Take(s: string, n: nat): string { if |s| <= n then s else s[..n] }

  // ------------------------------------------------------------- case

  function LowerChar(c: char): char {
    if 'A' <= c <= 'Z' then c - 'A' + 'a' else c
  }

  /** Lower case, for the ASCII letters. */
  function Lower(s: string): string {
    if s == "" then "" else [LowerChar(s[0])] + Lower(s[1..])
  }

  /** Lower case changes the letters A to Z, each by 32, and keeps the length. */
  lemma {:induction false} LowerIs(s: string)
    ensures |Lower(s)| == |s|
    ensures forall i :: 0 <= i < |s| ==>
              Lower(s)[i] as int == s[i] as int + if 65 <= s[i] as int <= 90 then 32 else 0
  {
    if s != "" { LowerIs(s[1..]); }
  }

  /** Texts of one length are alike, case apart, when their characters are. */
  lemma {:induction false} LowerAlike(s: string, t: string)
    ensures Lower(s) == Lower(t) <==>
            |s| == |t| && forall i :: 0 <= i < |s| ==> LowerChar(s[i]) == LowerChar(t[i])
  {
    if s != "" && t != "" {
      var u, v := s[1..], t[1..];
      LowerAlike(u, v);
      assert (forall i :: 0 <= i < |u| ==> u[i] == s[i + 1]) && forall i :: 0 <= i < |v| ==> v[i] == t[i + 1];
      assert Lower(s)[0] == LowerChar(s[0]) && Lower(t)[0] == LowerChar(t[0]);
      assert Lower(s)[1..] == Lower(u) && Lower(t)[1..] == Lower(v);
    }
  }

  function UpperChar(c: char): char {
    if 'a' <= c <= 'z' then c - 'a' + 'A' else c
  }

  /** Upper case, for the ASCII letters. */
  function Upper(s: string): string {
    if s == "" then "" else [UpperChar(s[0])] + Upper(s[1..])
  }

  // ------------------------------------------------------------- order

  /** Python's `<=` on strings: code point by code point, a prefix first. */
  predicate Le(a: string, b: string) {
    a == "" || (b != "" && (a[0] < b[0] || (a[0] == b[0] && Le(a[1..], b[1..]))))
  }

  /** The first place where two texts differ. */
  predicate DifferFirstAt(a: string, b: string, i: nat) {
    i < |a| && i < |b| && a[..i] == b[..i] && a[i] != b[i]
  }

  /** A prefix comes first; otherwise the smaller character at the first difference decides. */
  lemma {:induction false} LeIff(a: string, b: string)
    ensures Le(a, b) <==> a <= b || exists i: nat :: DifferFirstAt(a, b, i) && a[i] < b[i]
  {
    if a != "" && b != "" {
      var c, d := a[1..], b[1..];
      LeIff(c, d);
      if a[0] == b[0] {
        assert a <= b <==> c <= d;
        if i: nat :| DifferFirstAt(c, d, i) && c[i] < d[i] {
          assert a[..i + 1] == [a[0]] + c[..i] && b[..i + 1] == [b[0]] + d[..i];
          assert DifferFirstAt(a, b, i + 1) && a[i + 1] < b[i + 1];
        }
        if i: nat :| DifferFirstAt(a, b, i) && a[i] < b[i] {
          assert a[..i] == [a[0]] + c[..i - 1] && b[..i] == [b[0]] + d[..i - 1];
          assert c[..i - 1] == a[..i][1..] == b[..i][1..] == d[..i - 1];
          assert DifferFirstAt(c, d, i - 1) && c[i - 1] < d[i - 1];
        }
      } else {
        assert DifferFirstAt(a, b, 0);
      }
    }
  }

  lemma {:induction false} LeTotal(a: string, b: string)
    ensures Le(a, b) || Le(b, a)
  {
    if a != "" && b != "" { LeTotal(a[1..], b[1..]); }
  }

  lemma {:induction false} LeTransitive(a: string, b: string, c: string)
    requires Le(a, b) && Le(b, c)
    ensures Le(a, c)
  {
    if a != "" && a[0] == b[0] == c[0] { LeTransitive(a[1..], b[1..], c[1..]); }
  }

  lemma {:induction false} LeAntisymmetric(a: string, b: string)
    requires Le(a, b) && Le(b, a)
    ensures a == b
  {
    if a != "" {
      LeAntisymmetric(a[1..], b[1..]);
      assert a == [a[0]] + a[1..] && b == [b[0]] + b[1..];
    }
  }
}
