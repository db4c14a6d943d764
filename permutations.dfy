/**
 * Index selections over Python lists: `map(xs.__getitem__, idx)` and the index arrays
 * returned by `np.random.permutation(n)`.
 */
module Permutations {

  /** The indices 0 .. n-1 in order, as `range(n)`. */
  function Iota(n: nat): (r: seq<nat>)
    ensures |r| == n
    ensures forall i :: 0 <= i < n ==> r[i] == i
  {
    seq(n, i => i)
  }

  /** `p` holds each of 0 .. n-1 exactly once. */
  predicate IsPermutation(p: seq<nat>, n: nat) {
    multiset(p) == multiset(Iota(n))
  }

  predicate InBounds(idx: seq<nat>, n: nat) {
    forall k :: 0 <= k < |idx| ==> idx[k] < n
  }

  /** `map(s.__getitem__, idx)`: the elements of `s` at the positions `idx`, in that order. */
  function Pick<T>(s: seq<T>, idx: seq<nat>): (r: seq<T>)
    requires InBounds(idx, |s|)
    ensures |r| == |idx|
    ensures forall k :: 0 <= k < |idx| ==> r[k] == s[idx[k]]
  {
    seq(|idx|, k requires 0 <= k < |idx| => s[idx[k]])
  }

  /** `zip(a, b)` for lists of equal length. */
  function Zip<A, B>(a: seq<A>, b: seq<B>): (r: seq<(A, B)>)
    requires |a| == |b|
    ensures |r| == |a|
    ensures forall k :: 0 <= k < |a| ==> r[k] == (a[k], b[k])
  {
    seq(|a|, k requires 0 <= k < |a| => (a[k], b[k]))
  }

  lemma PermutationShape(p: seq<nat>, n: nat)
    requires IsPermutation(p, n)
    ensures |p| == n && InBounds(p, n)
  {
    calc {
      |p|;
      |multiset(p)|;
      |multiset(Iota(n))|;
      n;
    }
    forall k | 0 <= k < |p| ensures p[k] < n {
      assert p[k] in multiset(p);
      assert p[k] in multiset(Iota(n));
      assert p[k] in Iota(n);
    }
  }

  /** The list `t` with the elements at positions i and j exchanged. */
  function Swap<T>(t: seq<T>, i: nat, j: nat): seq<T>
    requires i < |t| && j < |t|
  {
    t[i := t[j]][j := t[i]]
  }

  /** Exchanging two positions of a list keeps its multiset of elements. */
  lemma SwapKeepsMultiset<T>(t: seq<T>, i: nat, j: nat)
    requires i < |t| && j < |t|
    ensures multiset(Swap(t, i, j)) == multiset(t)
  {
    var u := t[i := t[j]];
    assert multiset(u) == multiset(t) - multiset{t[i]} + multiset{t[j]};
    assert u[j] == t[j];
    assert multiset(u[j := t[i]]) == multiset(u) - multiset{u[j]} + multiset{t[i]};
  }

  lemma IotaSnoc(n: nat)
    requires n > 0
    ensures Iota(n) == Iota(n - 1) + [n - 1]
  {
  }

  lemma MultisetCancel(a: multiset<nat>, b: multiset<nat>, x: nat)
    requires a + multiset{x} == b + multiset{x}
    ensures a == b
  {
    assert a == (a + multiset{x}) - multiset{x};
  }

  /** A permutation of n > 0 holds n-1 somewhere. */
  lemma PositionOfLast(p: seq<nat>, n: nat) returns (j: nat)
    requires n > 0 && IsPermutation(p, n)
    ensures j < |p| && p[j] == n - 1
  {
    var last: nat := n - 1;
    assert Iota(n)[last] == last;
    assert last in multiset(Iota(n));
    assert last in multiset(p);
    j :| 0 <= j < |p| && p[j] == last;
  }

  /**
   * Moving the position that holds n-1 to the end of a permutation of n leaves a
   * permutation of n-1 in front.
   */
  lemma LastToEnd(p: seq<nat>, n: nat) returns (j: nat)
    requires n > 0 && IsPermutation(p, n)
    ensures |p| == n && j < n
    ensures Swap(p, j, n - 1)[n - 1] == n - 1
    ensures IsPermutation(Swap(p, j, n - 1)[..n - 1], n - 1)
  {
    PermutationShape(p, n);
    j := PositionOfLast(p, n);
    var last: nat := n - 1;
    var q := Swap(p, j, last);
    SwapKeepsMultiset(p, j, last);
    var front := q[..last];
    assert q == front + [last];
    IotaSnoc(n);
    MultisetCancel(multiset(front), multiset(Iota(last)), last);
  }

  lemma PickSwap<T>(s: seq<T>, p: seq<nat>, i: nat, j: nat)
    requires InBounds(p, |s|) && i < |p| && j < |p|
    ensures InBounds(Swap(p, i, j), |s|)
    ensures Pick(s, Swap(p, i, j)) == Swap(Pick(s, p), i, j)
  {
  }

  /** Permuting a list by a permutation of its indices keeps its multiset of elements. */
  lemma {:induction false} PickPermutation<T>(s: seq<T>, p: seq<nat>)
    requires IsPermutation(p, |s|)
    ensures InBounds(p, |s|)
    ensures multiset(Pick(s, p)) == multiset(s)
    decreases |s|
  {
    var n := |s|;
    PermutationShape(p, n);
    if n == 0 {
      return;
    }
    var j := LastToEnd(p, n);
    var q := Swap(p, j, n - 1);
    var front := q[..n - 1];
    PermutationShape(front, n - 1);
    PickPermutation(s[..n - 1], front);
    PickSwap(s, p, j, n - 1);
    SwapKeepsMultiset(Pick(s, p), j, n - 1);
    assert Pick(s, q) == Pick(s[..n - 1], front) + [s[n - 1]];
    assert s == s[..n - 1] + [s[n - 1]];
  }

  /** Picking the same positions from two lists keeps them pairwise aligned. */
  lemma PickKeepsPairs<A, B>(a: seq<A>, b: seq<B>, idx: seq<nat>)
    requires |a| == |b| && InBounds(idx, |a|)
    ensures Zip(Pick(a, idx), Pick(b, idx)) == Pick(Zip(a, b), idx)
  {
  }

  /**
   * Permuting two aligned lists by the same permutation yields a permutation of their
   * pairs: every (filename, label) pair survives exactly as often as before.
   */
  lemma PermutedPairs<A, B>(a: seq<A>, b: seq<B>, p: seq<nat>)
    requires |a| == |b| && IsPermutation(p, |a|)
    ensures InBounds(p, |a|)
    ensures multiset(Zip(Pick(a, p), Pick(b, p))) == multiset(Zip(a, b))
  {
    PickPermutation(Zip(a, b), p);
    PickKeepsPairs(a, b, p);
  }
}
