/**
 The two string tests the ratio rules are written with, Go's `strings.HasPrefix`
 and `strings.Contains`, over strings as sequences of characters.
 */
module Strings {

  /** `p` is a prefix of `s` (`strings.HasPrefix(s, p)`). */
  predicate HasPrefix(s: string, p: string) {
    p <= s
  }

  /** `sub` occurs somewhere in `s` (`strings.Contains(s, sub)`), searched left to right. */
  predicate Contains(s: string, sub: string)
    decreases |s|
  {
    HasPrefix(s, sub) || (|s| > 0 && Contains(s[1..], sub))
  }

  /** Reference definition: `sub` sits in `s` starting at index `i`. */
  ghost predicate OccursAt(s: string, sub: string, i: int) {
    0 <= i && i + |sub| <= |s| && s[i..i + |sub|] == sub
  }

  /** An occurrence at index `i` is found by the left-to-right search. */
  lemma {:induction false} OccursImpliesContains(s: string, sub: string, i: int)
    requires OccursAt(s, sub, i)
    ensures Contains(s, sub)
    decreases i
  {
    if i == 0 {
      assert s[..|sub|] == s[0..|sub|];
    } else {
      assert s[1..][i - 1..i - 1 + |sub|] == s[i..i + |sub|];
      OccursImpliesContains(s[1..], sub, i - 1);
    }
  }

  /** Whatever the left-to-right search finds occurs at some index. */
  lemma {:induction false} ContainsImpliesOccurs(s: string, sub: string)
    requires Contains(s, sub)
    ensures exists i :: OccursAt(s, sub, i)
    decreases |s|
  {
    if HasPrefix(s, sub) {
      assert s[0..|sub|] == s[..|sub|];
      assert OccursAt(s, sub, 0);
    } else {
      ContainsImpliesOccurs(s[1..], sub);
      var i :| OccursAt(s[1..], sub, i);
      assert s[1..][i..i + |sub|] == s[i + 1..i + 1 + |sub|];
      assert OccursAt(s, sub, i + 1);
    }
  }

  /** The left-to-right search finds `sub` exactly when it occurs at some index. */
  lemma ContainsIffOccurs(s: string, sub: string)
    ensures Contains(s, sub) <==> exists i :: OccursAt(s, sub, i)
  {
    if Contains(s, sub) {
      ContainsImpliesOccurs(s, sub);
    }
    if i :| OccursAt(s, sub, i) {
      OccursImpliesContains(s, sub, i);
    }
  }

  /** A string lacking one of the characters of `sub` does not contain `sub`. */
  lemma {:induction false} MissingCharNeverContains(s: string, sub: string, c: char)
    requires c in sub && c !in s
    ensures !Contains(s, sub)
    decreases |s|
  {
    var k :| 0 <= k < |sub| && sub[k] == c;
    if |sub| <= |s| {
      assert s[..|sub|][k] != sub[k];
    }
    if |s| > 0 {
      MissingCharNeverContains(s[1..], sub, c);
    }
  }

  /** A string that differs from `p` at some position `p` covers does not start with `p`. */
  lemma MismatchNotPrefix(s: string, p: string, i: int)
    requires 0 <= i < |p| && i < |s| && s[i] != p[i]
    ensures !HasPrefix(s, p)
  {
  }
}
