/** Facts about strings used to state what the prompts contain. */
module Text {

  /** `p` is a prefix of `s`. */
  predicate IsPrefix(p: string, s: string)
  {
    |p| <= |s| && s[..|p|] == p
  }

  /** `t` occurs in `s` starting at index `k`. */
  predicate OccursAt(t: string, s: string, k: int)
  {
    0 <= k <= |s| - |t| && s[k..k + |t|] == t
  }

  /** `t` occurs somewhere in `s`, as a contiguous piece. */
  ghost predicate IsInfix(t: string, s: string)
  {
    exists k :: OccursAt(t, s, k)
  }

  /** A string ends with what was appended last. */
  lemma InfixAtEnd(a: string, t: string)
    ensures IsInfix(t, a + t)
  {
    assert (a + t)[|a|..|a| + |t|] == t;
    assert OccursAt(t, a + t, |a|);
  }

  /** Appending text keeps an occurrence. */
  lemma InfixExtend(t: string, s: string, u: string)
    requires IsInfix(t, s)
    ensures IsInfix(t, s + u)
  {
    var k :| OccursAt(t, s, k);
    assert (s + u)[k..k + |t|] == s[k..k + |t|];
    assert OccursAt(t, s + u, k);
  }

  /** A string is a prefix of itself followed by more text, which is what remains after it. */
  lemma PrefixOfConcat(p: string, rest: string)
    ensures IsPrefix(p, p + rest)
    ensures (p + rest)[|p|..] == rest
  {
    assert (p + rest)[..|p|] == p;
  }

  /** What is spliced between two strings occurs right after the first. */
  lemma OccursBetween(a: string, t: string, b: string)
    ensures OccursAt(t, a + t + b, |a|)
  {
    assert (a + t + b)[|a|..|a| + |t|] == t;
  }

  /** An infix of a suffix is an infix of the whole. */
  lemma InfixOfSuffix(t: string, s: string, from: nat)
    requires from <= |s| && IsInfix(t, s[from..])
    ensures IsInfix(t, s)
  {
    var k :| OccursAt(t, s[from..], k);
    assert s[from..][k..k + |t|] == s[from + k..from + k + |t|];
    assert OccursAt(t, s, from + k);
  }
}
