/** Splitting a text at its last colon. */
module Colons {

  /** A text without colons leaves no colon after the one that ends its prefix. */
  lemma NoLaterColon(a: string, t: string, i: nat)
    requires ':' !in t && i < |a + ":" + t|
    ensures i > |a| ==> (a + ":" + t)[i] != ':'
  {
    if i > |a| {
      assert (a + ":" + t)[i] == t[i - |a| - 1];
    }
  }

  /** So what follows the last colon, and what precedes it, can be read back. */
  lemma LastColon(a: string, t: string, b: string, u: string)
    requires ':' !in t && ':' !in u && a + ":" + t == b + ":" + u
    ensures a == b && t == u
  {
    var s := a + ":" + t;
    assert s == b + ":" + u;
    NoLaterColon(a, t, |b|);
    NoLaterColon(b, u, |a|);
    assert a == s[..|a|] && b == s[..|b|] && t == s[|a| + 1..] && u == s[|b| + 1..];
  }
}
