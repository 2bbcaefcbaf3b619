/** Substring search as Go's strings.Contains performs it: the adapter classifies
    remote errors by whether their message contains a fixed phrase. */
module Strings {

  /** Whether sub occurs in s as a contiguous run; the empty string occurs in every string. */
  function Contains(s: string, sub: string): bool
    decreases |s|
  {
    if |sub| > |s| then false
    else if s[..|sub|] == sub then true
    else Contains(s[1..], sub)
  }

  /** sub occurs in s starting at index i. */
  ghost predicate OccursAt(s: string, sub: string, i: int) {
    0 <= i && i + |sub| <= |s| && s[i..i + |sub|] == sub
  }

  /** sub occurs somewhere in s: the reference meaning of Contains. */
  ghost predicate Occurs(s: string, sub: string) {
    exists i :: OccursAt(s, sub, i)
  }

  /** A slice of the tail of s is the slice of s one index further on. */
  lemma TailSlice(s: string, a: int, b: int)
    requires 0 <= a <= b <= |s| - 1
    ensures s[1..][a..b] == s[a + 1..b + 1]
  {
    assert forall k :: 0 <= k < b - a ==> s[1..][a..b][k] == s[a + 1..b + 1][k];
  }

  /** The search finds sub exactly when sub occurs at some index of s. */
  lemma {:induction false} ContainsIffOccurs(s: string, sub: string)
    ensures Contains(s, sub) <==> Occurs(s, sub)
    decreases |s|
  {
    if |sub| > |s| {
    } else if s[..|sub|] == sub {
      assert OccursAt(s, sub, 0);
    } else {
      ContainsIffOccurs(s[1..], sub);
      if Occurs(s[1..], sub) {
        var j :| OccursAt(s[1..], sub, j);
        TailSlice(s, j, j + |sub|);
        assert OccursAt(s, sub, j + 1);
      }
      if Occurs(s, sub) {
        var i :| OccursAt(s, sub, i);
        assert i != 0;
        TailSlice(s, i - 1, i - 1 + |sub|);
        assert OccursAt(s[1..], sub, i - 1);
      }
    }
  }

  /** A phrase found in a message is still found once the message is embedded in a longer
      text, as when an error is prefixed with its status code or wrapped with context. */
  lemma {:induction false} ContainsInContext(p: string, m: string, q: string, sub: string)
    requires Contains(m, sub)
    ensures Contains(p + m + q, sub)
  {
    ContainsIffOccurs(m, sub);
    var i :| OccursAt(m, sub, i);
    var s := p + m + q;
    assert s[|p| + i..|p| + i + |sub|] == m[i..i + |sub|];
    assert OccursAt(s, sub, |p| + i);
    ContainsIffOccurs(s, sub);
  }
}
