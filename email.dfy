/**
 * The email check both sign-in forms apply, the regular expression
 * `^[^\s@]+@[^\s@]+\.[^\s@]+$`, and its plain characterisation.
 */
module Email {
  import opened Strings

  /** A character of the class `[^\s@]`. */
  predicate EmailChar(ch: char) {
    !IsWhitespace(ch) && ch != '@'
  }

  predicate AllEmailChars(s: string) {
    forall k :: 0 <= k < |s| ==> EmailChar(s[k])
  }

  /**
   * The regular expression matches `s` with its `@` at `i` and its literal
   * `.` at `j`: three non-empty runs of `[^\s@]` around them.
   */
  predicate MatchesAt(s: string, i: int, j: int) {
    && 0 < i && i + 1 < j && j + 1 < |s|
    && s[i] == '@' && s[j] == '.'
    && AllEmailChars(s[..i]) && AllEmailChars(s[i + 1..j]) && AllEmailChars(s[j + 1..])
  }

  /** `^[^\s@]+@[^\s@]+\.[^\s@]+$`.test(s) (with `$` at the end of input, as without the `m` flag). */
  predicate IsValidEmail(s: string) {
    exists i, j | 0 <= i < |s| && 0 <= j < |s| :: MatchesAt(s, i, j)
  }

  predicate NoWhitespace(s: string) {
    forall k :: 0 <= k < |s| ==> !IsWhitespace(s[k])
  }

  /** The domain has a `.` with text on both sides. */
  predicate DottedDomain(d: string) {
    exists k :: 0 < k < |d| - 1 && d[k] == '.'
  }

  /**
   * The plain reading: no whitespace, exactly one `@`, a non-empty local
   * part before it, and a dotted domain after it.
   */
  predicate EmailShape(s: string) {
    && NoWhitespace(s)
    && CountChar(s, '@') == 1
    && exists i :: 0 < i < |s| && s[i] == '@' && DottedDomain(s[i + 1..])
  }

  lemma {:induction false} CountCharZero(s: string, c: char)
    ensures CountChar(s, c) == 0 <==> forall k :: 0 <= k < |s| ==> s[k] != c
  {
    if |s| > 0 {
      CountCharZero(s[1..], c);
      assert forall k :: 1 <= k < |s| ==> s[k] == s[1..][k - 1];
    }
  }

  /** A character counted once occurs nowhere but at its known position. */
  lemma OnlyOccurrence(s: string, c: char, i: int)
    requires 0 <= i < |s| && s[i] == c && CountChar(s, c) == 1
    ensures forall k :: 0 <= k < |s| && k != i ==> s[k] != c
  {
    assert s == s[..i] + [c] + s[i + 1..];
    CountCharAppend(s[..i] + [c], s[i + 1..], c);
    CountCharAppend(s[..i], [c], c);
    CountCharZero(s[..i], c);
    CountCharZero(s[i + 1..], c);
    assert forall k :: 0 <= k < i ==> s[k] == s[..i][k];
    assert forall k :: i < k < |s| ==> s[k] == s[i + 1..][k - i - 1];
  }

  lemma MatchImpliesShape(s: string, i: int, j: int)
    requires MatchesAt(s, i, j)
    ensures EmailShape(s)
  {
    assert forall k :: 0 <= k < i ==> s[k] == s[..i][k];
    assert forall k :: i < k < j ==> s[k] == s[i + 1..j][k - i - 1];
    assert forall k :: j < k < |s| ==> s[k] == s[j + 1..][k - j - 1];
    assert NoWhitespace(s);
    assert forall k :: 0 <= k < |s| && k != i ==> s[k] != '@';
    assert s == s[..i] + [s[i]] + s[i + 1..];
    CountCharAppend(s[..i] + [s[i]], s[i + 1..], '@');
    CountCharAppend(s[..i], [s[i]], '@');
    CountCharZero(s[..i], '@');
    CountCharZero(s[i + 1..], '@');
    assert s[i + 1..][j - i - 1] == '.';
  }

  lemma ShapeImpliesMatch(s: string) returns (i: int, j: int)
    requires EmailShape(s)
    ensures MatchesAt(s, i, j)
  {
    i :| 0 < i < |s| && s[i] == '@' && DottedDomain(s[i + 1..]);
    var d := s[i + 1..];
    var k :| 0 < k < |d| - 1 && d[k] == '.';
    j := i + 1 + k;
    OnlyOccurrence(s, '@', i);
    EmailCharsBetween(s, 0, i);
    EmailCharsBetween(s, i + 1, j);
    EmailCharsBetween(s, j + 1, |s|);
    assert s[0..i] == s[..i];
  }

  /** A stretch of a whitespace-free string that holds no `@` is a run of `[^\s@]`. */
  lemma EmailCharsBetween(s: string, lo: int, hi: int)
    requires 0 <= lo <= hi <= |s| && NoWhitespace(s)
    requires forall m :: lo <= m < hi ==> s[m] != '@'
    ensures AllEmailChars(s[lo..hi])
  {
    forall k | 0 <= k < hi - lo ensures EmailChar(s[lo..hi][k]) {
      assert s[lo..hi][k] == s[lo + k];
    }
  }

  /** The regular expression accepts exactly the addresses of the plain shape. */
  lemma ValidEmailIffShape(s: string)
    ensures IsValidEmail(s) <==> EmailShape(s)
  {
    if IsValidEmail(s) {
      var i, j :| MatchesAt(s, i, j);
      MatchImpliesShape(s, i, j);
    }
    if EmailShape(s) {
      var i, j := ShapeImpliesMatch(s);
    }
  }
}
