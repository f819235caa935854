/**
 * The JavaScript string operations the core relies on, over `string` (a
 * sequence of Unicode scalar values): `startsWith`, `includes`, `indexOf`,
 * `split` with a non-empty separator, and the character classes `\s` and the
 * line terminators excluded by `.` in a regular expression.
 */
module Strings {
  import opened Wrappers

  predicate StartsWith(s: string, prefix: string) {
    |prefix| <= |s| && s[..|prefix|] == prefix
  }

  /** `pat` occurs in `s` starting at position `j`. */
  predicate OccursAt(s: string, pat: string, j: nat) {
    j + |pat| <= |s| && s[j..j + |pat|] == pat
  }

  lemma OccursAtPrefix(s: string, pat: string, i: nat, j: nat)
    requires i <= |s| && OccursAt(s[..i], pat, j)
    ensures OccursAt(s, pat, j)
  {
    assert s[..i][j..j + |pat|] == s[j..j + |pat|];
  }

  lemma OccursAtSuffix(s: string, pat: string, i: nat, j: nat)
    requires i <= |s|
    ensures OccursAt(s[i..], pat, j) <==> OccursAt(s, pat, i + j)
  {
    if j + |pat| <= |s| - i {
      assert s[i..][j..j + |pat|] == s[i + j..i + j + |pat|];
    }
  }

  /** JavaScript's `s.indexOf(pat)`: the first position where `pat` occurs. */
  function IndexOf(s: string, pat: string): (r: Option<nat>)
    ensures r.Some? ==> OccursAt(s, pat, r.value)
    ensures r.Some? ==> forall j: nat :: j < r.value ==> !OccursAt(s, pat, j)
    ensures r.None? ==> forall j: nat :: !OccursAt(s, pat, j)
    decreases |s|
  {
    if OccursAt(s, pat, 0) then Some(0)
    else if |s| == 0 then None
    else
      var r := IndexOf(s[1..], pat);
      forall j: nat ensures OccursAt(s[1..], pat, j) <==> OccursAt(s, pat, 1 + j) {
        OccursAtSuffix(s, pat, 1, j);
      }
      assert forall j: nat :: OccursAt(s, pat, j) ==> j == 0 || OccursAt(s[1..], pat, j - 1);
      match r
      case None => None
      case Some(i) => Some(i + 1)
  }

  /** JavaScript's `s.includes(pat)`. */
  predicate Contains(s: string, pat: string) {
    IndexOf(s, pat).Some?
  }

  lemma ContainsAt(s: string, pat: string, j: nat)
    requires OccursAt(s, pat, j)
    ensures Contains(s, pat)
  {
  }

  /** The inverse of `Split`: the parts glued back together with `sep`. */
  function Join(parts: seq<string>, sep: string): string {
    if |parts| == 0 then ""
    else if |parts| == 1 then parts[0]
    else parts[0] + sep + Join(parts[1..], sep)
  }

  /**
   * JavaScript's `s.split(sep)` for a non-empty separator: the pieces between
   * consecutive occurrences of `sep`, scanning left to right.
   */
  function Split(s: string, sep: string): (parts: seq<string>)
    requires |sep| > 0
    ensures |parts| >= 1
    ensures Join(parts, sep) == s
    decreases |s|
  {
    match IndexOf(s, sep)
    case None => [s]
    case Some(i) =>
      var rest := Split(s[i + |sep|..], sep);
      assert s == s[..i] + sep + s[i + |sep|..];
      [s[..i]] + rest
  }

  /** No part of a split contains the separator. */
  lemma {:induction false} SplitPartsFree(s: string, sep: string)
    requires |sep| > 0
    ensures forall k :: 0 <= k < |Split(s, sep)| ==> !Contains(Split(s, sep)[k], sep)
    decreases |s|
  {
    match IndexOf(s, sep)
    case None =>
    case Some(i) =>
      SplitPartsFree(s[i + |sep|..], sep);
      assert !Contains(s[..i], sep) by {
        if Contains(s[..i], sep) {
          var j := IndexOf(s[..i], sep).value;
          OccursAtPrefix(s, sep, i, j);
        }
      }
      assert Split(s, sep) == [s[..i]] + Split(s[i + |sep|..], sep);
  }

  /** A split yields a single part exactly when the separator does not occur. */
  lemma SplitSinglePart(s: string, sep: string)
    requires |sep| > 0
    ensures |Split(s, sep)| == 1 <==> !Contains(s, sep)
  {
    if Contains(s, sep) {
      var i := IndexOf(s, sep).value;
      assert Split(s, sep) == [s[..i]] + Split(s[i + |sep|..], sep);
    }
  }

  /**
   * The first two parts of a split, and where they sit: the string starts
   * with them joined by the separator, and what follows them is either
   * nothing (exactly two parts) or another separator.
   */
  lemma SplitFirstTwo(s: string, sep: string)
    requires |sep| > 0 && |Split(s, sep)| >= 2
    ensures var p := Split(s, sep); StartsWith(s, p[0] + sep + p[1])
    ensures var p := Split(s, sep); |p| == 2 ==> s == p[0] + sep + p[1]
    ensures var p := Split(s, sep); |p| > 2 ==> StartsWith(s[|p[0] + sep + p[1]|..], sep)
  {
    var p := Split(s, sep);
    JoinFirstTwo(p, sep);
    var u := p[0] + sep + p[1];
    var tail := if |p| == 2 then "" else sep + Join(p[2..], sep);
    assert s == u + tail;
    assert s[..|u|] == u;
    assert s[|u|..] == tail;
  }

  lemma JoinFirstTwo(p: seq<string>, sep: string)
    requires |p| >= 2
    ensures Join(p, sep) == p[0] + sep + p[1] + (if |p| == 2 then "" else sep + Join(p[2..], sep))
  {
    assert p[1..][0] == p[1];
    if |p| > 2 {
      assert p[1..][1..] == p[2..];
      assert Join(p[1..], sep) == p[1] + sep + Join(p[2..], sep);
    } else {
      assert Join(p[1..], sep) == p[1];
    }
  }

  /** The number of occurrences of the character `c` in `s`. */
  function CountChar(s: string, c: char): nat {
    if |s| == 0 then 0 else (if s[0] == c then 1 else 0) + CountChar(s[1..], c)
  }

  lemma {:induction false} CountCharAppend(a: string, b: string, c: char)
    ensures CountChar(a + b, c) == CountChar(a, c) + CountChar(b, c)
  {
    if |a| == 0 {
      assert a + b == b;
    } else {
      assert (a + b)[1..] == a[1..] + b;
      CountCharAppend(a[1..], b, c);
    }
  }

  /** A character that is counted at all occurs in the string. */
  lemma {:induction false} CountCharOccurs(s: string, c: char)
    ensures CountChar(s, c) > 0 ==> Contains(s, [c])
  {
    if |s| > 0 {
      if s[0] == c {
        ContainsAt(s, [c], 0);
      } else {
        CountCharOccurs(s[1..], c);
        if Contains(s[1..], [c]) {
          var j := IndexOf(s[1..], [c]).value;
          OccursAtSuffix(s, [c], 1, j);
          ContainsAt(s, [c], 1 + j);
        }
      }
    }
  }

  /** Splitting on a one-character separator yields one more part than there are separators. */
  lemma {:induction false} SplitCharCount(s: string, c: char)
    ensures |Split(s, [c])| == CountChar(s, c) + 1
    decreases |s|
  {
    match IndexOf(s, [c])
    case None =>
      CountCharOccurs(s, c);
    case Some(i) =>
      var tail := s[i + 1..];
      SplitCharCount(tail, c);
      assert s == s[..i] + [c] + tail;
      CountCharAppend(s[..i] + [c], tail, c);
      CountCharAppend(s[..i], [c], c);
      var parts := Split(s, [c]);
      SplitPartsFree(s, [c]);
      assert !Contains(parts[0], [c]);
      CountCharOccurs(s[..i], c);
  }

  /** JavaScript truthiness of a string that may be null or undefined: present and non-empty. */
  predicate Truthy(v: Option<string>) {
    v.Some? && v.value != ""
  }

  /** ECMAScript line terminators: the characters `.` does not match. */
  predicate IsLineTerminator(ch: char) {
    ch == '\n' || ch == '\r' || ch == '\U{2028}' || ch == '\U{2029}'
  }

  /** ECMAScript `\s`: WhiteSpace (including the space separators) and LineTerminator. */
  predicate IsWhitespace(ch: char) {
    || ch == '\t' || ch == '\U{000B}' || ch == '\U{000C}' || ch == ' ' || ch == '\U{00A0}'
    || ch == '\U{1680}' || ('\U{2000}' <= ch <= '\U{200A}') || ch == '\U{202F}'
    || ch == '\U{205F}' || ch == '\U{3000}' || ch == '\U{FEFF}'
    || IsLineTerminator(ch)
  }
}
