/** The string operations the builder relies on: prefix and suffix tests and `String.replace`. */
module Strings {

  predicate StartsWith(s: string, p: string) {
    |p| <= |s| && s[..|p|] == p
  }

  predicate EndsWith(s: string, p: string) {
    |p| <= |s| && s[|s| - |p|..] == p
  }

  /** `pat` occurs in `s` starting at index `i`. */
  predicate OccursAt(s: string, i: int, pat: string) {
    0 <= i && i + |pat| <= |s| && s[i..i + |pat|] == pat
  }

  predicate Contains(s: string, pat: string) {
    exists i :: 0 <= i <= |s| && OccursAt(s, i, pat)
  }

  /** No occurrence of `pat` in `s` starts before index `n`. */
  predicate NoneBefore(s: string, n: int, pat: string) {
    forall i :: 0 <= i < n ==> !OccursAt(s, i, pat)
  }

  /**
   * Java's `String.replace(target, replacement)` for a non-empty target: the string is scanned
   * from the left and every occurrence of `pat` that does not overlap an earlier replaced one
   * becomes `rep`.
   */
  function ReplaceAll(s: string, pat: string, rep: string): (r: string)
    requires |pat| > 0
    ensures |rep| <= |pat| ==> |r| <= |s|
    ensures |rep| >= |pat| ==> |r| >= |s|
    ensures |s| < |pat| ==> r == s
    ensures OccursAt(s, 0, pat) ==> StartsWith(r, rep)
    decreases |s|
  {
    if |s| < |pat| then s
    else if s[..|pat|] == pat then rep + ReplaceAll(s[|pat|..], pat, rep)
    else [s[0]] + ReplaceAll(s[1..], pat, rep)
  }

  /** A prefix in which no occurrence of `pat` starts is copied unchanged by `ReplaceAll`. */
  lemma {:induction false} ReplaceAllKeepsPrefix(p: string, s: string, pat: string, rep: string)
    requires |pat| > 0
    requires NoneBefore(p + s, |p|, pat)
    ensures ReplaceAll(p + s, pat, rep) == p + ReplaceAll(s, pat, rep)
  {
    if p != [] {
      var t := p + s;
      assert !OccursAt(t, 0, pat);
      assert t[1..] == p[1..] + s;
      forall i | 0 <= i < |p| - 1
        ensures !OccursAt(p[1..] + s, i, pat)
      {
        assert !OccursAt(t, i + 1, pat);
        if i + |pat| <= |t[1..]| {
          assert t[1..][i..i + |pat|] == t[i + 1..i + 1 + |pat|];
        }
      }
      ReplaceAllKeepsPrefix(p[1..], s, pat, rep);
      if |t| >= |pat| {
        assert t[..|pat|] != pat;
        assert ReplaceAll(t, pat, rep) == [t[0]] + ReplaceAll(t[1..], pat, rep);
        assert [p[0]] + (p[1..] + ReplaceAll(s, pat, rep)) == p + ReplaceAll(s, pat, rep);
      } else {
        assert ReplaceAll(s, pat, rep) == s;
      }
    } else {
      assert p + s == s;
    }
  }

  /** A string without any occurrence of `pat` is left unchanged. */
  lemma ReplaceAllWithoutOccurrence(s: string, pat: string, rep: string)
    requires |pat| > 0
    requires !Contains(s, pat)
    ensures ReplaceAll(s, pat, rep) == s
  {
    assert NoneBefore(s + [], |s|, pat) by {
      assert s + [] == s;
    }
    ReplaceAllKeepsPrefix(s, [], pat, rep);
    assert s + [] == s;
  }

  /**
   * Removes the backslash of every `\:` (a colon escaped the way `java.util.Properties` writes
   * it): the value never grows, and a value without `\:` is kept verbatim.
   */
  function UnescapeColons(s: string): (r: string)
    ensures |r| <= |s|
    ensures !Contains(s, "\\:") ==> r == s
  {
    // The condition only brings the verbatim case's lemma into scope; both branches are one value.
    if !Contains(s, "\\:") then ReplaceAllWithoutOccurrence(s, "\\:", ":"); ReplaceAll(s, "\\:", ":")
    else ReplaceAll(s, "\\:", ":")
  }

  /** Escapes every colon as `\:`. */
  function EscapeColons(s: string): string {
    if s == [] then []
    else (if s[0] == ':' then "\\:" else [s[0]]) + EscapeColons(s[1..])
  }

  /** An escaped string never begins with a colon: every colon in it follows its backslash. */
  lemma {:induction false} EscapedNoLeadingColon(s: string)
    requires EscapeColons(s) != []
    ensures EscapeColons(s)[0] != ':'
  {
  }

  /** Unescaping undoes escaping: a value written with escaped colons reads back unchanged. */
  lemma {:induction false} UnescapeEscapeRoundTrip(s: string)
    ensures UnescapeColons(EscapeColons(s)) == s
  {
    if s != [] {
      var rest := EscapeColons(s[1..]);
      UnescapeEscapeRoundTrip(s[1..]);
      if s[0] == ':' {
        assert EscapeColons(s) == "\\:" + rest;
        assert ("\\:" + rest)[..2] == "\\:";
        assert ("\\:" + rest)[2..] == rest;
      } else {
        assert EscapeColons(s) == [s[0]] + rest;
        var t := [s[0]] + rest;
        if |t| >= 2 && t[..2] == "\\:" {
          assert t[1] == t[..2][1] == ':';
          assert rest != [] && rest[0] == t[1];
          EscapedNoLeadingColon(s[1..]);
        }
        assert t[1..] == rest;
      }
    }
  }

  /** Unescaping changes a value exactly when it holds some `\:`, and then it shortens it. */
  lemma {:induction false} UnescapeFixedPoints(s: string)
    ensures UnescapeColons(s) == s <==> !Contains(s, "\\:")
    ensures Contains(s, "\\:") ==> |UnescapeColons(s)| < |s|
  {
    if Contains(s, "\\:") {
      var i :| 0 <= i <= |s| && OccursAt(s, i, "\\:");
      if s[..2] == "\\:" {
        assert UnescapeColons(s) == ":" + UnescapeColons(s[2..]);
      } else {
        assert i != 0;
        assert s[1..][i - 1..i + 1] == s[i..i + 2];
        assert OccursAt(s[1..], i - 1, "\\:");
        UnescapeFixedPoints(s[1..]);
        assert UnescapeColons(s) == [s[0]] + UnescapeColons(s[1..]);
      }
    }
  }
}
