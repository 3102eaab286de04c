/** The string predicates the source uses: `startsWith`, `strings.HasSuffix` and `includes`. */
module Strings {

  predicate StartsWith(s: string, prefix: string)
  {
    |prefix| <= |s| && s[..|prefix|] == prefix
  }

  predicate EndsWith(s: string, suffix: string)
  {
    |suffix| <= |s| && s[|s| - |suffix|..] == suffix
  }

  /** A concatenation ends with its last part. */
  lemma EndsWithConcat(s: string, suffix: string)
    ensures EndsWith(s + suffix, suffix)
  {
    assert (s + suffix)[|s|..] == suffix;
  }

  /** t occurs in s starting at offset i. */
  predicate OccursAt(s: string, t: string, i: int)
  {
    0 <= i && i + |t| <= |s| && s[i..i + |t|] == t
  }

  /** `s.includes(t)`: t occurs in s at some offset. */
  predicate Contains(s: string, t: string)
  {
    exists i | 0 <= i <= |s| :: OccursAt(s, t, i)
  }

  /** An occurrence of t begins with t's first character. */
  lemma OccursAtFirst(s: string, t: string, i: int)
    requires |t| > 0 && OccursAt(s, t, i)
    ensures s[i] == t[0]
  {
    assert s[i..i + |t|][0] == t[0];
  }

  /** A string in which every occurrence of t's first character is at an offset where t does not
      follow does not contain t. */
  lemma NotContainsByFirst(s: string, t: string, offsets: set<int>)
    requires |t| > 0
    requires forall i :: 0 <= i < |s| && s[i] == t[0] ==> i in offsets
    requires forall i :: i in offsets ==> !OccursAt(s, t, i)
    ensures !Contains(s, t)
  {
    forall i | 0 <= i <= |s|
      ensures !OccursAt(s, t, i)
    {
      if i < |s| && s[i] == t[0] {
        assert i in offsets;
      } else if OccursAt(s, t, i) {
        OccursAtFirst(s, t, i);
      }
    }
  }
}
