/** The part of Go's `strings` package the client relies on. Strings are `seq<char>`. */
module Strings {

  predicate StartsWith(s: string, prefix: string) {
    |prefix| <= |s| && s[..|prefix|] == prefix
  }

  /** `sub` occurs in `s` starting at index `i`. */
  predicate OccursAt(s: string, sub: string, i: int) {
    0 <= i && i + |sub| <= |s| && s[i..i + |sub|] == sub
  }

  /** `strings.Contains(s, sub)`: scans `s` left to right (the empty string occurs everywhere). */
  predicate Contains(s: string, sub: string)
    decreases |s|
  {
    StartsWith(s, sub) || (|s| > 0 && Contains(s[1..], sub))
  }

  /** An occurrence of `sub` anywhere in `s` is found by the scan. */
  lemma {:induction false} OccursThenContains(s: string, sub: string, i: int)
    requires OccursAt(s, sub, i)
    ensures Contains(s, sub)
    decreases i
  {
    if i == 0 {
      assert StartsWith(s, sub);
    } else {
      assert s[1..][i - 1..i - 1 + |sub|] == s[i..i + |sub|];
      OccursThenContains(s[1..], sub, i - 1);
    }
  }

  /** When the scan succeeds, it names an index where `sub` occurs. */
  lemma {:induction false} ContainsThenOccurs(s: string, sub: string) returns (i: int)
    requires Contains(s, sub)
    ensures OccursAt(s, sub, i)
    decreases |s|
  {
    if StartsWith(s, sub) {
      i := 0;
    } else {
      var j := ContainsThenOccurs(s[1..], sub);
      assert s[1..][j..j + |sub|] == s[j + 1..j + 1 + |sub|];
      i := j + 1;
    }
  }

  /** The scan finds `sub` exactly when `sub` occurs at some index of `s`. */
  lemma ContainsIffOccurs(s: string, sub: string)
    ensures Contains(s, sub) <==> exists i :: OccursAt(s, sub, i)
  {
    if Contains(s, sub) {
      var i := ContainsThenOccurs(s, sub);
    }
    forall i | OccursAt(s, sub, i) ensures Contains(s, sub) {
      OccursThenContains(s, sub, i);
    }
  }

  /** Any text that has `sub` somewhere inside it contains `sub`. */
  lemma ContainsInfix(p: string, sub: string, q: string)
    ensures Contains(p + sub + q, sub)
  {
    var s := p + sub + q;
    assert s[|p|..|p| + |sub|] == sub;
    assert OccursAt(s, sub, |p|);
    ContainsIffOccurs(s, sub);
  }

  /** A prefix without the first character of `sub` cannot start an occurrence of `sub`. */
  lemma {:induction false} ContainsSkipsPrefix(p: string, s: string, sub: string)
    requires |sub| > 0
    requires forall k :: 0 <= k < |p| ==> p[k] != sub[0]
    ensures Contains(p + s, sub) <==> Contains(s, sub)
    decreases |p|
  {
    if |p| > 0 {
      assert !StartsWith(p + s, sub) by {
        assert (p + s)[0] == p[0];
      }
      assert (p + s)[1..] == p[1..] + s;
      ContainsSkipsPrefix(p[1..], s, sub);
    } else {
      assert p + s == s;
    }
  }

  /** A suffix that starts with no character of `sub` and holds none of its first character adds
      no occurrence of `sub`. */
  lemma {:induction false} ContainsSkipsSuffix(s: string, q: string, sub: string)
    requires |sub| > 0
    requires |q| > 0 ==> q[0] !in sub
    requires forall k :: 0 <= k < |q| ==> q[k] != sub[0]
    ensures Contains(s + q, sub) <==> Contains(s, sub)
    decreases |s|
  {
    if |s| == 0 {
      assert s + q == q + s;
      ContainsSkipsPrefix(q, s, sub);
    } else {
      if |sub| <= |s| {
        assert (s + q)[..|sub|] == s[..|sub|];
      } else if |sub| <= |s + q| {
        assert (s + q)[..|sub|][|s|] == q[0];
        assert !StartsWith(s + q, sub);
      }
      assert (s + q)[1..] == s[1..] + q;
      ContainsSkipsSuffix(s[1..], q, sub);
    }
  }

  /** Whatever a string's suffix contains, the string contains. */
  lemma {:induction false} ContainsInSuffix(p: string, s: string, sub: string)
    requires Contains(s, sub)
    ensures Contains(p + s, sub)
    decreases |p|
  {
    if |p| == 0 {
      assert p + s == s;
    } else {
      assert (p + s)[1..] == p[1..] + s;
      ContainsInSuffix(p[1..], s, sub);
    }
  }

  /** A string shorter than `sub` does not contain it. */
  lemma {:induction false} ContainsNeedsRoom(s: string, sub: string)
    requires |s| < |sub|
    ensures !Contains(s, sub)
    decreases |s|
  {
    if |s| > 0 {
      ContainsNeedsRoom(s[1..], sub);
    }
  }

  /** Between strings of equal length, containment is equality. */
  lemma ContainsSameLength(s: string, sub: string)
    requires |s| == |sub| > 0
    ensures Contains(s, sub) <==> s == sub
  {
    ContainsNeedsRoom(s[1..], sub);
    assert s[..|sub|] == s;
  }
}
