/** Order-preserving selections. */
module Subsequences {

  /** `idx` picks `k` out of `s` from left to right. */
  ghost predicate Picks<T>(idx: seq<nat>, k: seq<T>, s: seq<T>) {
    && |idx| == |k|
    && (forall i, j :: 0 <= i < j < |idx| ==> idx[i] < idx[j])
    && (forall i :: 0 <= i < |idx| ==> idx[i] < |s| && k[i] == s[idx[i]])
  }

  ghost predicate IsSubsequence<T>(k: seq<T>, s: seq<T>) {
    exists idx :: Picks(idx, k, s)
  }

  function Without<T>(s: seq<T>, i: nat): seq<T>
    requires i < |s|
  {
    s[..i] + s[i + 1..]
  }

  lemma SubsequenceRefl<T>(s: seq<T>)
    ensures IsSubsequence(s, s)
  {
    assert Picks(seq(|s|, i => i), s, s);
  }

  lemma WithoutIsSubsequence<T>(s: seq<T>, i: nat)
    requires i < |s|
    ensures IsSubsequence(Without(s, i), s)
  {
    assert Picks(seq(|s| - 1, j => if j < i then j else j + 1), Without(s, i), s);
  }

  lemma SubsequenceTrans<T>(a: seq<T>, b: seq<T>, c: seq<T>)
    requires IsSubsequence(a, b) && IsSubsequence(b, c)
    ensures IsSubsequence(a, c)
  {
    var p: seq<nat> :| Picks(p, a, b);
    var q: seq<nat> :| Picks(q, b, c);
    var r: seq<nat> := seq(|p|, i requires 0 <= i < |p| => q[p[i]]);
    assert Picks(r, a, c);
  }

  lemma SubsequenceMember<T>(a: seq<T>, b: seq<T>, x: T)
    requires IsSubsequence(a, b) && x in a
    ensures x in b
  {
    var p: seq<nat> :| Picks(p, a, b);
    var i :| 0 <= i < |a| && a[i] == x;
    assert b[p[i]] == x;
  }

  lemma SubsequencePrepend<T>(x: T, a: seq<T>, s: seq<T>)
    requires s != [] && IsSubsequence(a, s[1..])
    ensures IsSubsequence(a, s)
    ensures x == s[0] ==> IsSubsequence([x] + a, s)
  {
    var p: seq<nat> :| Picks(p, a, s[1..]);
    var q: seq<nat> := seq(|p|, i requires 0 <= i < |p| => p[i] + 1);
    assert Picks(q, a, s);
    if x == s[0] {
      assert Picks([0] + q, [x] + a, s);
    }
  }

  lemma WithoutMultiset<T>(s: seq<T>, i: nat)
    requires i < |s|
    ensures multiset(Without(s, i)) + multiset{s[i]} == multiset(s)
  {
    assert s == s[..i] + [s[i]] + s[i + 1..];
  }
}
