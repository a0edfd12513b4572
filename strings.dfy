/** Prefix, suffix and infix tests on strings, with the facts the other modules need about them. */
module Strings {
  predicate StartsWith(s: string, prefix: string) {
    |prefix| <= |s| && s[..|prefix|] == prefix
  }

  lemma PrefixSplit(s: string, prefix: string)
    requires StartsWith(s, prefix)
    ensures prefix + s[|prefix|..] == s
  {
    assert s == s[..|prefix|] + s[|prefix|..];
  }

  lemma PrefixJoin(prefix: string, rest: string)
    ensures StartsWith(prefix + rest, prefix)
    ensures (prefix + rest)[|prefix|..] == rest
  {
    assert (prefix + rest)[..|prefix|] == prefix;
  }

  predicate EndsWith(s: string, suffix: string) {
    |suffix| <= |s| && s[|s| - |suffix|..] == suffix
  }

  predicate IsInfix(part: string, s: string) {
    exists i, j :: 0 <= i <= j <= |s| && s[i..j] == part
  }

  /** A string is found at the end of what it is appended to. */
  lemma InfixAtEnd(a: string, part: string)
    ensures IsInfix(part, a + part)
  {
    assert (a + part)[|a|..|a| + |part|] == part;
  }

  /** Whatever is found in a string is found in any extension of it. */
  lemma InfixExtends(part: string, s: string, t: string)
    requires IsInfix(part, s)
    ensures IsInfix(part, s + t)
  {
    var i, j :| 0 <= i <= j <= |s| && s[i..j] == part;
    assert (s + t)[i..j] == part;
  }
}
