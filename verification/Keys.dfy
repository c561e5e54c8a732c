/** Compound keys: two ids joined by a NUL character. */
module Keys {
  const NUL: char := '\0'

  predicate NulFree(s: string) { NUL !in s }

  function Join(a: string, b: string): string { a + [NUL] + b }

  lemma JoinAt(a: string, b: string)
    ensures Join(a, b)[|a|] == NUL
    ensures forall i | 0 <= i < |a| :: Join(a, b)[i] == a[i]
    ensures Join(a, b)[..|a|] == a && Join(a, b)[|a| + 1..] == b
  {}

  /** A NUL-free first part can be read back from a compound key. */
  lemma JoinIsInjective(a: string, b: string, c: string, d: string)
    requires NulFree(a) && NulFree(c) && Join(a, b) == Join(c, d)
    ensures a == c && b == d
  {
    JoinAt(a, b);
    JoinAt(c, d);
    if |a| < |c| { assert false; }
    if |c| < |a| { assert false; }
  }

  /** With a NUL inside an id, different pairs can share a key. */
  lemma NulMakesKeysCollide()
    ensures Join("a\0b", "c") == Join("a", "b\0c") && "a\0b" != "a"
  {
    assert Join("a\0b", "c") == "a\0b\0c" && Join("a", "b\0c") == "a\0b\0c";
    assert |"a\0b"| == 3;
  }
}
