/** Sizes of sets of node ids. */
module SetSizes {
  /** The first `n` ids. */
  function NodesBelow(n: nat): (r: set<nat>)
    ensures forall v: nat :: v in r <==> v < n
    ensures |r| == n
  {
    if n == 0 then {} else NodesBelow(n - 1) + {n - 1}
  }

  lemma SubsetSize<T>(a: set<T>, b: set<T>)
    requires a <= b
    ensures |a| <= |b|
  {
    assert b == a + (b - a);
  }

  /** A set of ids below `n` has at most `n` elements. */
  lemma AtMost(s: set<nat>, n: nat)
    requires forall x :: x in s ==> x < n
    ensures |s| <= n
  {
    SubsetSize(s, NodesBelow(n));
  }
}
