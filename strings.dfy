/** String search and the first-occurrence replacement that JavaScript's
    `String.prototype.replace` performs when its pattern is a plain string.
    The replacement text is taken literally (no `$&` or `$1` expansion). */
module Strings {

  datatype Option<T> = None | Some(value: T)

  /** `pat` occurs in `s` starting at index `i`. */
  predicate OccursAt(s: string, pat: string, i: nat) {
    i + |pat| <= |s| && s[i..i + |pat|] == pat
  }

  /** `i` is the leftmost occurrence of `pat` in `s`. */
  predicate FirstOccurrence(s: string, pat: string, i: nat) {
    OccursAt(s, pat, i) && forall j: nat :: j < i ==> !OccursAt(s, pat, j)
  }

  /** `pat` occurs nowhere in `s`. */
  ghost predicate Absent(s: string, pat: string) {
    forall j: nat :: !OccursAt(s, pat, j)
  }

  /** The leftmost occurrence of `pat` in `s` at or after index `k`, as `indexOf` finds it. */
  function IndexFrom(s: string, pat: string, k: nat): (r: Option<nat>)
    requires k <= |s|
    ensures r.Some? ==> k <= r.value && OccursAt(s, pat, r.value)
    ensures r.Some? ==> forall j: nat :: k <= j < r.value ==> !OccursAt(s, pat, j)
    ensures r.None? ==> forall j: nat :: k <= j ==> !OccursAt(s, pat, j)
    decreases |s| - k
  {
    if OccursAt(s, pat, k) then Some(k)
    else if k + |pat| >= |s| then None
    else IndexFrom(s, pat, k + 1)
  }

  /** `s` with its first occurrence of `pat` replaced by `rep`; `s` itself when `pat` does not occur. */
  function ReplaceFirst(s: string, pat: string, rep: string): (r: string)
    ensures Absent(s, pat) ==> r == s
    ensures forall i: nat :: FirstOccurrence(s, pat, i) ==> r == s[..i] + rep + s[i + |pat|..]
  {
    match IndexFrom(s, pat, 0)
    case None => s
    case Some(i) => s[..i] + rep + s[i + |pat|..]
  }

  /** When the text before the first `pat` holds no character that starts `pat`,
      that occurrence is the one replaced, and everything after it, including any
      later occurrence of `pat`, is kept verbatim. */
  lemma ReplaceFirstAfterPrefix(a: string, pat: string, b: string, rep: string)
    requires |pat| > 0 && pat[0] !in a
    ensures ReplaceFirst(a + pat + b, pat, rep) == a + rep + b
  {
    var s := a + pat + b;
    assert s[|a|..|a| + |pat|] == pat;
    assert OccursAt(s, pat, |a|);
    forall j: nat | j < |a|
      ensures !OccursAt(s, pat, j)
    {
      assert s[j] == a[j] && a[j] in a;
    }
    assert FirstOccurrence(s, pat, |a|);
    assert s[..|a|] == a;
    assert s[|a| + |pat|..] == b;
  }

  /** An occurrence after the replaced one survives, shifted by the difference in length
      between the replacement and the pattern. */
  lemma LaterOccurrenceSurvives(s: string, pat: string, rep: string, i: nat, j: nat)
    requires FirstOccurrence(s, pat, i) && i + |pat| <= j && OccursAt(s, pat, j)
    ensures OccursAt(ReplaceFirst(s, pat, rep), pat, j - |pat| + |rep|)
  {
    var r := ReplaceFirst(s, pat, rep);
    var tail := s[i + |pat|..];
    assert r == s[..i] + rep + tail;
    var k := j - |pat| + |rep|;
    assert r[i + |rep|..] == tail;
    assert tail[j - i - |pat|..j - i] == s[j..j + |pat|];
    assert r[k..k + |pat|] == tail[j - i - |pat|..j - i];
  }
}
