/** JavaScript's `String.prototype.replace` with a string pattern and a replacement
    text without `$` patterns: only the
    first occurrence of the pattern is replaced. */
module Strings {
  import opened Wrappers

  /** `pat` occurs in `s` starting at index `j`. */
  predicate OccursAt(s: string, pat: string, j: nat) {
    j + |pat| <= |s| && s[j..j + |pat|] == pat
  }

  /** `r` is where `pat` first occurs in `s`, or `None` when it never does. */
  ghost predicate FirstOccurrence(s: string, pat: string, r: Option<nat>) {
    match r
    case Some(k) => OccursAt(s, pat, k) && forall j: nat :: j < k ==> !OccursAt(s, pat, j)
    case None => forall j: nat :: !OccursAt(s, pat, j)
  }

  function Shift(r: Option<nat>): Option<nat> {
    match r
    case Some(k) => Some(k + 1)
    case None => None
  }

  /** The index of the first occurrence of `pat` in `s` (`indexOf`). */
  function IndexOf(s: string, pat: string): (r: Option<nat>)
    ensures FirstOccurrence(s, pat, r)
    decreases |s|
  {
    if |s| < |pat| then None
    else if s[..|pat|] == pat then Some(0)
    else
      var rest := IndexOf(s[1..], pat);
      FirstOccurrenceStep(s, pat, rest);
      Shift(rest)
  }

  /** An occurrence past the first character of `s` is an occurrence in `s[1..]`. */
  lemma FirstOccurrenceStep(s: string, pat: string, rest: Option<nat>)
    requires |s| >= |pat| && s[..|pat|] != pat
    requires FirstOccurrence(s[1..], pat, rest)
    ensures FirstOccurrence(s, pat, Shift(rest))
  {
    forall j: nat ensures OccursAt(s, pat, j + 1) == OccursAt(s[1..], pat, j) {
      if j + 1 + |pat| <= |s| {
        SliceOfTail(s, j, j + |pat|);
      }
    }
    assert !OccursAt(s, pat, 0);
    match rest
    case None =>
      forall j: nat ensures !OccursAt(s, pat, j) {
        if j > 0 {
          assert OccursAt(s, pat, (j - 1) + 1) == OccursAt(s[1..], pat, j - 1);
        }
      }
    case Some(k) =>
      forall j: nat | j < k + 1 ensures !OccursAt(s, pat, j) {
        if j > 0 {
          assert OccursAt(s, pat, (j - 1) + 1) == OccursAt(s[1..], pat, j - 1);
        }
      }
  }

  lemma SliceOfTail(s: string, a: nat, b: nat)
    requires a <= b && b + 1 <= |s|
    ensures s[1..][a..b] == s[a + 1..b + 1]
  {
    assert |s[1..][a..b]| == |s[a + 1..b + 1]|;
    forall i | 0 <= i < b - a ensures s[1..][a..b][i] == s[a + 1..b + 1][i] {
    }
  }

  /** `s.replace(pat, rep)`: the first occurrence of `pat`, if any, is
      replaced by `rep`; the text before and after it is kept. */
  function ReplaceFirst(s: string, pat: string, rep: string): (r: string)
    ensures IndexOf(s, pat).None? ==> r == s
    ensures IndexOf(s, pat).Some? ==>
              var k := IndexOf(s, pat).value;
              r == s[..k] + rep + s[k + |pat|..]
    decreases |s|
  {
    if |s| < |pat| then s
    else if s[..|pat|] == pat then rep + s[|pat|..]
    else
      var tail := ReplaceFirst(s[1..], pat, rep);
      match IndexOf(s[1..], pat)
      case None =>
        assert [s[0]] + s[1..] == s;
        [s[0]] + tail
      case Some(k) =>
        SpliceCons(s, pat, rep, k);
        [s[0]] + tail
  }

  /** Splicing after the first character commutes with putting it back. */
  lemma SpliceCons(s: string, pat: string, rep: string, k: nat)
    requires |s| > 0 && k + |pat| <= |s| - 1
    ensures [s[0]] + (s[1..][..k] + rep + s[1..][k + |pat|..]) == s[..k + 1] + rep + s[k + 1 + |pat|..]
  {
    assert [s[0]] + s[1..][..k] == s[..k + 1];
    assert s[1..][k + |pat|..] == s[k + 1 + |pat|..];
  }

  /** When the only occurrence sits at the end of `base + pat`, replacing it
      swaps the suffix. */
  lemma ReplaceSuffix(base: string, pat: string, rep: string)
    requires forall j: nat :: j < |base| ==> !OccursAt(base + pat, pat, j)
    ensures ReplaceFirst(base + pat, pat, rep) == base + rep
  {
    var s := base + pat;
    assert OccursAt(s, pat, |base|) by {
      assert s[|base|..|base| + |pat|] == pat;
    }
    var k := IndexOf(s, pat).value;
    assert k == |base|;
    assert s[..k] == base;
    assert s[k + |pat|..] == [];
  }
}
