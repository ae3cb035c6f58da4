/** The two functions of Go's `strings` package the webhook uses, and
    reference definitions of what they decide. */
module Strings {

  /** Go's strings.HasPrefix. */
  predicate HasPrefix(s: string, prefix: string) {
    |prefix| <= |s| && s[..|prefix|] == prefix
  }

  /** Go's strings.Contains: some suffix of `s` starts with `sub`. */
  predicate Contains(s: string, sub: string)
    decreases |s|
  {
    HasPrefix(s, sub) || (|s| > 0 && Contains(s[1..], sub))
  }

  /** `s` is `prefix` followed by something. */
  ghost predicate StartsWith(s: string, prefix: string) {
    exists rest :: s == prefix + rest
  }

  /** `sub` occurs in `s` starting at position `i`. */
  ghost predicate OccursAt(s: string, sub: string, i: int) {
    0 <= i && i + |sub| <= |s| && s[i..i + |sub|] == sub
  }

  /** `sub` occurs in `s` at some position. */
  ghost predicate Occurs(s: string, sub: string) {
    exists i :: OccursAt(s, sub, i)
  }

  lemma HasPrefixIff(s: string, prefix: string)
    ensures HasPrefix(s, prefix) <==> StartsWith(s, prefix)
  {
    if HasPrefix(s, prefix) {
      assert s == prefix + s[|prefix|..];
    }
    forall rest | s == prefix + rest
      ensures HasPrefix(s, prefix)
    {
      assert s[..|prefix|] == prefix;
    }
  }

  lemma {:induction false} ContainsIff(s: string, sub: string)
    ensures Contains(s, sub) <==> Occurs(s, sub)
    decreases |s|
  {
    if HasPrefix(s, sub) {
      assert OccursAt(s, sub, 0);
    } else if |s| == 0 {
      assert |sub| > 0;
    } else {
      ContainsIff(s[1..], sub);
      if Contains(s[1..], sub) {
        var i :| OccursAt(s[1..], sub, i);
        assert s[i + 1..i + 1 + |sub|] == s[1..][i..i + |sub|];
        assert OccursAt(s, sub, i + 1);
      }
      if Occurs(s, sub) {
        var j :| OccursAt(s, sub, j);
        assert j != 0;
        assert s[1..][j - 1..j - 1 + |sub|] == s[j..j + |sub|];
        assert OccursAt(s[1..], sub, j - 1);
      }
    }
  }
}
