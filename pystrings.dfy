/**
 * The two Python string operations the backend relies on: `str.endswith`
 * and `str.replace(old, new)`, which replaces every non-overlapping
 * occurrence of `old`, scanning from the left.
 */
module PyStrings {

  /** `pat` occurs in `s` starting at index `i` */
  predicate OccursAt(s: string, pat: string, i: int) {
    0 <= i && i + |pat| <= |s| && s[i..i + |pat|] == pat
  }

  /** `s.endswith(suffix)`: the suffix occurs in `s` at its last possible position. */
  predicate EndsWith(s: string, suffix: string): (b: bool)
    ensures b <==> OccursAt(s, suffix, |s| - |suffix|)
  {
    |suffix| <= |s| && s[|s| - |suffix|..] == suffix
  }

  /** `pat in s` */
  predicate Contains(s: string, pat: string) {
    exists i :: 0 <= i <= |s| && OccursAt(s, pat, i)
  }

  /**
   * `s.replace(pat, rep)` for a non-empty `pat`: a match at the front is
   * replaced and scanning resumes after it; otherwise one character is kept.
   * When the replacement is no longer than the pattern, the result is no
   * longer than the input.
   */
  function ReplaceAll(s: string, pat: string, rep: string): (r: string)
    requires |pat| > 0
    ensures |rep| <= |pat| ==> |r| <= |s|
    decreases |s|
  {
    if |s| < |pat| then s
    else if s[..|pat|] == pat then rep + ReplaceAll(s[|pat|..], pat, rep)
    else [s[0]] + ReplaceAll(s[1..], pat, rep)
  }

  /**
   * When no occurrence of `pat` starts inside `a`, replacing in `a + b`
   * leaves `a` as it is and works on `b` alone.
   */
  lemma {:induction false} ReplaceAllKeepsClearPrefix(a: string, b: string, pat: string, rep: string)
    requires |pat| > 0
    requires forall i :: 0 <= i < |a| ==> !OccursAt(a + b, pat, i)
    ensures ReplaceAll(a + b, pat, rep) == a + ReplaceAll(b, pat, rep)
  {
    if |a| > 0 {
      var s := a + b;
      assert !OccursAt(s, pat, 0);
      assert s[1..] == a[1..] + b;
      forall i | 0 <= i < |a[1..]|
        ensures !OccursAt(a[1..] + b, pat, i)
      {
        assert !OccursAt(s, pat, i + 1);
        if i + 1 + |pat| <= |s| {
          assert s[i + 1..i + 1 + |pat|] == (a[1..] + b)[i..i + |pat|];
        }
      }
      ReplaceAllKeepsClearPrefix(a[1..], b, pat, rep);
      if |s| < |pat| {
        assert ReplaceAll(b, pat, rep) == b;
      } else {
        assert s[..|pat|] != pat;
        assert ReplaceAll(s, pat, rep) == [s[0]] + ReplaceAll(s[1..], pat, rep);
        assert a == [a[0]] + a[1..];
      }
    } else {
      assert a + b == b;
    }
  }

  /** A string with no occurrence of `pat` is left unchanged by the replacement. */
  lemma ReplaceAllWithoutOccurrence(s: string, pat: string, rep: string)
    requires |pat| > 0
    requires !Contains(s, pat)
    ensures ReplaceAll(s, pat, rep) == s
  {
    assert s + "" == s;
    ReplaceAllKeepsClearPrefix(s, "", pat, rep);
  }

  /**
   * An occurrence of `pat` in `a + b` that starts inside `a` lies wholly in
   * `a`, provided `b`'s first character appears in `pat` at most at its front.
   */
  lemma NoOccurrenceAcrossBoundary(a: string, b: string, pat: string, i: int)
    requires |pat| > 0 && |b| > 0 && b[0] !in pat[1..]
    requires !Contains(a, pat)
    requires 0 <= i < |a|
    ensures !OccursAt(a + b, pat, i)
  {
    var s := a + b;
    if i + |pat| <= |a| {
      assert !OccursAt(a, pat, i);
      assert s[i..i + |pat|] == a[i..i + |pat|];
    } else if i + |pat| <= |s| {
      var k := |a| - i;
      assert s[i..i + |pat|][k] == b[0];
      assert pat[k] == pat[1..][k - 1];
    }
  }
}
