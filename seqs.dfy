/**
 * Facts about sequences that the history proofs use, stated for any element
 * type so that they are proved once, away from the shape of an entry.
 */
module Seqs {

  /** Taking element `k` out of a sequence takes one copy of it out of its multiset. */
  lemma MultisetRemove<T>(s: seq<T>, k: nat)
    requires k < |s|
    ensures multiset(s) == multiset(s[..k] + s[k + 1..]) + multiset{s[k]}
  {
    assert s == s[..k] + [s[k]] + s[k + 1..];
  }

  /**
   * If `b` is a permutation of `a` and `b[k]` is the head of `a`, the tail of
   * `a` is a permutation of `b` without its element `k`.
   */
  lemma PermutationRest<T>(a: seq<T>, b: seq<T>, k: nat)
    requires multiset(a) == multiset(b) && a != []
    requires k < |b| && b[k] == a[0]
    ensures multiset(a[1..]) == multiset(b[..k] + b[k + 1..])
  {
    MultisetRemove(b, k);
    MultisetRemove(a, 0);
    assert a[..0] + a[1..] == a[1..];
    var restA, restB := multiset(a[1..]), multiset(b[..k] + b[k + 1..]);
    assert restA + multiset{a[0]} == restB + multiset{a[0]};
    assert restA == restA + multiset{a[0]} - multiset{a[0]};
  }

  /** Cutting `b` short does not change a prefix of `a + b` that does not reach the cut. */
  lemma PrefixOfConcat<T>(a: seq<T>, b: seq<T>, p: nat, q: nat)
    requires p <= |b| && q <= |a| + p
    ensures (a + b[..p])[..q] == (a + b)[..q]
  {
    forall i | 0 <= i < q ensures (a + b[..p])[i] == (a + b)[i] {
      if i >= |a| {
        assert (a + b[..p])[i] == b[..p][i - |a|];
      }
    }
  }
}
