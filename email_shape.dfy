/**
 * The e-mail shape test `/^[^\s@]+@[^\s@]+\.[^\s@]+$/`, used identically by the
 * share endpoint and by the share dialog. `MatchesPattern` is the language of the
 * regular expression; `IsEmailShaped` is a direct test; `ShapeIsPattern` proves
 * them equal.
 */
module EmailShape {

  /** The characters JavaScript's `\s` matches (all in the Basic Multilingual Plane). */
  predicate IsJsWhitespace(c: char) {
    var n := c as int;
    (9 <= n <= 13) || n == 0x20 || n == 0xA0 || n == 0x1680 || (0x2000 <= n <= 0x200A)
    || n == 0x2028 || n == 0x2029 || n == 0x202F || n == 0x205F || n == 0x3000 || n == 0xFEFF
  }

  /** A character of the class `[^\s@]`. */
  predicate PlainChar(c: char) {
    !IsJsWhitespace(c) && c != '@'
  }

  /** A match of `[^\s@]+`. */
  predicate Segment(t: string) {
    |t| > 0 && forall k :: 0 <= k < |t| ==> PlainChar(t[k])
  }

  /**
   * The strings the anchored pattern accepts: a segment, `@`, a segment, `.`, a segment.
   * `i` is the position of the `@`, `j` the position of the `.` the backtracking matcher settles on.
   */
  ghost predicate MatchesPattern(s: string) {
    exists i, j :: 0 < i && i + 1 < j && j + 1 < |s| && s[i] == '@' && s[j] == '.'
      && Segment(s[..i]) && Segment(s[i + 1..j]) && Segment(s[j + 1..])
  }

  /** The position of the first `c` in `s`, or `|s|` when there is none. */
  function IndexOf(s: string, c: char): (k: nat)
    ensures k <= |s|
    ensures k < |s| ==> s[k] == c
    ensures forall m :: 0 <= m < k ==> s[m] != c
  {
    if s == [] then 0 else if s[0] == c then 0 else 1 + IndexOf(s[1..], c)
  }

  /**
   * The shape as a direct test: no whitespace anywhere, exactly one `@` with a non-empty
   * local part before it, and a `.` in the domain that is neither its first nor its last character.
   */
  predicate IsEmailShaped(s: string) {
    && (forall k :: 0 <= k < |s| ==> !IsJsWhitespace(s[k]))
    && var at := IndexOf(s, '@');
    && 0 < at < |s|
    && (forall k :: at < k < |s| ==> s[k] != '@')
    && exists k :: at + 1 < k < |s| - 1 && s[k] == '.'
  }

  /** The direct test accepts exactly the strings the regular expression matches. */
  lemma ShapeIsPattern(s: string)
    ensures IsEmailShaped(s) <==> MatchesPattern(s)
  {
    if IsEmailShaped(s) {
      ShapedMatches(s);
    }
    if MatchesPattern(s) {
      var i, j :| 0 < i && i + 1 < j && j + 1 < |s| && s[i] == '@' && s[j] == '.'
        && Segment(s[..i]) && Segment(s[i + 1..j]) && Segment(s[j + 1..]);
      MatchIsShaped(s, i, j);
    }
  }

  lemma ShapedMatches(s: string)
    requires IsEmailShaped(s)
    ensures MatchesPattern(s)
  {
    var i := IndexOf(s, '@');
    var j :| i + 1 < j < |s| - 1 && s[j] == '.';
    SegmentOfPlain(s, 0, i);
    SegmentOfPlain(s, i + 1, j);
    SegmentOfPlain(s, j + 1, |s|);
    assert s[..i] == s[0..i];
    assert s[j + 1..] == s[j + 1..|s|];
  }

  lemma MatchIsShaped(s: string, i: nat, j: nat)
    requires 0 < i && i + 1 < j && j + 1 < |s| && s[i] == '@' && s[j] == '.'
    requires Segment(s[..i]) && Segment(s[i + 1..j]) && Segment(s[j + 1..])
    ensures IsEmailShaped(s)
  {
    forall k | 0 <= k < |s| ensures !IsJsWhitespace(s[k]) && (k != i ==> s[k] != '@') {
      if k < i {
        assert s[..i][k] == s[k];
      } else if i < k < j {
        assert s[i + 1..j][k - i - 1] == s[k];
      } else if j < k {
        assert s[j + 1..][k - j - 1] == s[k];
      }
    }
    assert IndexOf(s, '@') == i;
  }

  /** `s[lo..hi]` is a segment when it is non-empty and holds only plain characters. */
  lemma SegmentOfPlain(s: string, lo: nat, hi: nat)
    requires lo < hi <= |s|
    requires forall k :: lo <= k < hi ==> PlainChar(s[k])
    ensures Segment(s[lo..hi])
  {
    forall k | 0 <= k < hi - lo ensures PlainChar(s[lo..hi][k]) {
      assert s[lo..hi][k] == s[lo + k];
    }
  }
}
