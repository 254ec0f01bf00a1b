/**
 * The leader's search for a committable index (raft.py:443-450): copy the match indices, sort
 * them in descending order, and keep the last index that a majority of them reaches.
 */
module CommitScan {

  /** The least element of a nonempty list. */
  function MinOf(s: seq<nat>): (m: nat)
    requires |s| > 0
    ensures m in s
    ensures forall i :: 0 <= i < |s| ==> m <= s[i]
  {
    if |s| == 1 then s[0]
    else
      var rest := MinOf(s[1..]);
      assert s == [s[0]] + s[1..];
      if s[0] <= rest then s[0] else rest
  }

  /** How many elements of `s` are at least `index`. */
  function ReplicatedOn(s: seq<nat>, index: nat): (count: nat)
    ensures count <= |s|
  {
    if s == [] then 0
    else ReplicatedOn(s[..|s| - 1], index) + (if index <= s[|s| - 1] then 1 else 0)
  }

  ghost predicate Descending(s: seq<nat>) {
    forall i, j :: 0 <= i < j < |s| ==> s[i] >= s[j]
  }

  /** An index below every element is replicated everywhere, and conversely. */
  lemma {:induction false} ReplicatedEverywhere(s: seq<nat>, index: nat)
    ensures ReplicatedOn(s, index) == |s| <==> forall i :: 0 <= i < |s| ==> index <= s[i]
  {
    if s != [] {
      var front := s[..|s| - 1];
      ReplicatedEverywhere(front, index);
      assert forall i :: 0 <= i < |front| ==> front[i] == s[i];
    }
  }

  /** Insert `x` into a descending list, after the elements that are at least `x`. */
  method InsertDescending(r: seq<nat>, x: nat) returns (t: seq<nat>)
    requires Descending(r)
    ensures Descending(t)
    ensures multiset(t) == multiset(r) + multiset{x}
    ensures |t| == |r| + 1
  {
    var pos := 0;
    while pos < |r| && r[pos] >= x
      invariant pos <= |r|
      invariant forall i :: 0 <= i < pos ==> r[i] >= x
    {
      pos := pos + 1;
    }
    assert r == r[..pos] + r[pos..];
    t := r[..pos] + [x] + r[pos..];
  }

  /** A descending list with the same elements (`sort(reverse=True)`). */
  method SortDescending(s: seq<nat>) returns (r: seq<nat>)
    ensures Descending(r)
    ensures |r| == |s|
    ensures multiset(r) == multiset(s)
  {
    r := [];
    for k := 0 to |s|
      invariant |r| == k
      invariant Descending(r)
      invariant multiset(r) == multiset(s[..k])
    {
      assert s[..k + 1] == s[..k] + [s[k]];
      r := InsertDescending(r, s[k]);
    }
    assert s[..|s|] == s;
  }

  /** Count the entries of `s` that are at least `index` (the sum at raft.py:448). */
  method CountReplicated(s: seq<nat>, index: nat) returns (count: nat)
    ensures count == ReplicatedOn(s, index)
  {
    count := 0;
    for i := 0 to |s|
      invariant count == ReplicatedOn(s[..i], index)
    {
      assert s[..i + 1][..i] == s[..i];
      if index <= s[i] {
        count := count + 1;
      }
    }
    assert s[..|s|] == s;
  }

  /**
   * The scan. Because it runs downwards and overwrites its result, it does not return the highest
   * index held by a majority but the lowest index held by anyone.
   */
  method MaxCommittable(matchIndex: seq<nat>) returns (best: nat)
    requires |matchIndex| > 0
    ensures best == MinOf(matchIndex)
    ensures best in matchIndex
    ensures ReplicatedOn(matchIndex, best) == |matchIndex| >= |matchIndex| / 2 + 1
  {
    var lengths := SortDescending(matchIndex);
    best := 0;
    for i := 0 to |lengths|
      invariant i == |lengths| ==> best == lengths[i - 1]
    {
      var replicatedOn := CountReplicated(lengths, lengths[i]);
      if i == |lengths| - 1 {
        ReplicatedEverywhere(lengths, lengths[i]);
      }
      if replicatedOn >= |matchIndex| / 2 + 1 {
        best := lengths[i];
      }
    }
    assert best == lengths[|lengths| - 1];
    assert best in multiset(lengths) && best in multiset(matchIndex);
    assert MinOf(matchIndex) in multiset(matchIndex) && MinOf(matchIndex) in multiset(lengths);
    ReplicatedEverywhere(matchIndex, best);
  }

  /**
   * What a reader of the comment "more than half of the nodes" (raft.py:359-361) would expect is
   * not what the scan yields: with three nodes at 5, 5 and 0, index 5 is on a majority, yet the
   * scan returns 0.
   */
  lemma MajorityIsNotEnough()
    ensures ReplicatedOn([5, 5, 0], 5) >= 3 / 2 + 1
    ensures MinOf([5, 5, 0]) == 0
  {
    assert [5, 5, 0][..2] == [5, 5];
    assert [5, 5][..1] == [5];
  }

  /** The scan beats a bound exactly when every node is above it: commits are unanimous. */
  lemma CommitIsUnanimous(matchIndex: seq<nat>, commitIndex: nat)
    requires |matchIndex| > 0
    ensures MinOf(matchIndex) > commitIndex <==> forall f :: 0 <= f < |matchIndex| ==> matchIndex[f] > commitIndex
  {
    var m := MinOf(matchIndex);
    var i :| 0 <= i < |matchIndex| && matchIndex[i] == m;
  }
}
