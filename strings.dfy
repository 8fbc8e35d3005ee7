/**
 * Prefix and occurrence tests on strings, and the global literal replacement
 * that placeholder substitution is built on.
 */
module Strings {

  /** `p` is a prefix of `s`. */
  predicate IsPrefix(p: string, s: string) {
    |p| <= |s| && s[..|p|] == p
  }

  /** `t` occurs somewhere in `s` as a contiguous substring. */
  predicate Occurs(t: string, s: string)
    decreases |s|
  {
    IsPrefix(t, s) || (|s| > 0 && Occurs(t, s[1..]))
  }

  /** An occurrence at a known offset is an occurrence. */
  lemma {:induction false} OccursAt(t: string, s: string, k: nat)
    requires k <= |s| && IsPrefix(t, s[k..])
    ensures Occurs(t, s)
  {
    if k > 0 {
      assert s[1..][k - 1..] == s[k..];
      OccursAt(t, s[1..], k - 1);
    }
  }

  /**
   * Replaces every occurrence of `token` in `s` by `value`, scanning left to
   * right, never overlapping, and never rescanning an inserted value: the
   * behaviour of a global literal search-and-replace.
   */
  function ReplaceAll(s: string, token: string, value: string): string
    requires token != []
    decreases |s|
  {
    if s == [] then []
    else if IsPrefix(token, s) then value + ReplaceAll(s[|token|..], token, value)
    else [s[0]] + ReplaceAll(s[1..], token, value)
  }

  /** A string in which the token does not occur is left as it is. */
  lemma {:induction false} ReplaceAllAbsent(s: string, token: string, value: string)
    requires token != [] && !Occurs(token, s)
    ensures ReplaceAll(s, token, value) == s
  {
    if s != [] {
      ReplaceAllAbsent(s[1..], token, value);
    }
  }

  /**
   * A prefix free of the token's first character is copied unchanged, and the
   * replacement continues right after it.
   */
  lemma {:induction false} ReplaceAllSkips(p: string, r: string, token: string, value: string)
    requires token != [] && token[0] !in p
    ensures ReplaceAll(p + r, token, value) == p + ReplaceAll(r, token, value)
  {
    if p != [] {
      assert (p + r)[0] == p[0];
      assert (p + r)[1..] == p[1..] + r;
      ReplaceAllSkips(p[1..], r, token, value);
      assert [p[0]] + p[1..] == p;
    } else {
      assert p + r == r;
    }
  }

  /** An occurrence at the front is replaced and scanning resumes after it. */
  lemma ReplaceAllHit(token: string, q: string, value: string)
    requires token != []
    ensures ReplaceAll(token + q, token, value) == value + ReplaceAll(q, token, value)
  {
    assert IsPrefix(token, token + q);
    assert (token + q)[|token|..] == q;
  }
}
