/**
 * A follower that is behind is brought up to date: the nack/ack exchange of one leader and one
 * follower with no new entries in between (raft.py:416-437, 558-576, 595-605).
 */
module CatchUp {
  import opened Options
  import opened RaftTypes
  import opened RaftSpec
  import opened RaftLocal
  import M = LogMatching

  // ---- the exchange of two nodes ----

  /** A leader and a follower it has not finished with. */
  ghost predicate Pair(l: Node, f: Node) {
    && NodeOk(l) && l.loop.InLeader?
    && NodeOk(f) && f.loop.InFollower?
    && f.id < l.size && f.id != l.id
    && f.term <= l.term
  }

  /** The entry the row of `f` points at, on a message with some commit index of the leader. */
  function NextAppend(l: Node, f: NodeId, leaderCommit: nat): (m: Msg)
    requires NodeOk(l) && l.loop.InLeader? && f < l.size && l.nextIndex[f].Some?
    ensures m.AppendEntries?
  {
    var k := l.nextIndex[f].value;
    AppendEntries(l.term, l.id, f, k - 1, l.log[k - 1].term, l.log[k], leaderCommit)
  }

  /**
   * One exchange: the next append reaches the follower, and its answer comes back. The commit
   * index on the message is whatever it was when the message was sent.
   */
  ghost function Exchange(l: Node, f: Node, leaderCommit: nat): (r: (Node, Node))
    requires Pair(l, f) && l.nextIndex[f.id].Some?
    ensures Pair(r.0, r.1) && r.0.id == l.id && r.1.id == f.id
  {
    var answered := FollowerMessage(f, NextAppend(l, f.id, leaderCommit));
    var success := answered.out[0].success;
    AckKeepsLeaderOk(l, f.id, success);
    (LeaderAck(l, f.id, success).node, answered.node)
  }

  ghost predicate IsExchange(l: Node, f: Node, leaderCommit: nat, l': Node, f': Node) {
    Pair(l, f) && l.nextIndex[f.id].Some? && (l', f') == Exchange(l, f, leaderCommit)
  }

  /** The two nodes before, between and after some exchanges; there is one as long as the row is behind. */
  ghost predicate Exchanging(ls: seq<Node>, fs: seq<Node>, leaderCommits: seq<nat>) {
    && |ls| == |fs| == |leaderCommits| + 1
    && Pair(ls[0], fs[0])
    && forall i :: 0 <= i < |leaderCommits| ==> IsExchange(ls[i], fs[i], leaderCommits[i], ls[i + 1], fs[i + 1])
  }

  // ---- what matters of it ----

  /** The leader's log, the follower's log, and the leader's row for the follower. */
  datatype Progress = Progress(log: seq<Entry>, held: seq<Entry>, next: Option<nat>)

  ghost predicate Ok(p: Progress) {
    && |p.log| > 0 && |p.held| > 0 && p.held[0] == p.log[0]
    && M.LogsMatch(p.log, p.held)
    && (p.next.Some? ==> 1 <= p.next.value < |p.log|)
  }

  /** The follower's log shows the leader's term just before `next`. */
  predicate Fits(p: Progress)
    requires p.next.Some? && 1 <= p.next.value < |p.log|
  {
    VerifyEntry(p.held, p.next.value - 1, p.log[p.next.value - 1].term)
  }

  /** Copy one entry and step forward, or step back. */
  ghost function Advance(p: Progress): (p': Progress)
    requires Ok(p) && p.next.Some?
    ensures Ok(p') && p'.log == p.log
  {
    var k := p.next.value;
    if Fits(p) then
      assert p.held[..k] == p.log[..k] && p.log[..k] + [p.log[k]] == p.log[..k + 1];
      assert p.log[..k + 1][0] == p.log[0];
      PrefixMatches(p.log, k + 1);
      Progress(p.log, p.held[..k] + [p.log[k]], if k == |p.log| - 1 then None else Some(k + 1))
    else
      assert k > 1;
      Progress(p.log, p.held, Some(k - 1))
  }

  lemma PrefixMatches(log: seq<Entry>, n: nat)
    requires n <= |log|
    ensures M.LogsMatch(log, log[..n])
  {
    forall i | 0 <= i < |log| && i < |log[..n]| && log[i].term == log[..n][i].term
      ensures log[..i + 1] == log[..n][..i + 1]
    {
    }
  }

  ghost function AdvanceBy(p: Progress, n: nat): (p': Progress)
    requires Ok(p)
    ensures Ok(p') && p'.log == p.log
  {
    if n == 0 then p
    else
      var before := AdvanceBy(p, n - 1);
      if before.next.None? then before else Advance(before)
  }

  function Seen(l: Node, f: Node): Progress
    requires NodeOk(l) && f.id < l.size
  {
    Progress(l.log, f.log, l.nextIndex[f.id])
  }

  /** An exchange of the nodes is one advance. */
  lemma ExchangeAdvances(l: Node, f: Node, leaderCommit: nat)
    requires Pair(l, f) && l.nextIndex[f.id].Some? && Ok(Seen(l, f))
    ensures Seen(Exchange(l, f, leaderCommit).0, Exchange(l, f, leaderCommit).1) == Advance(Seen(l, f))
  {
    assert Fits(Seen(l, f)) == FollowerMessage(f, NextAppend(l, f.id, leaderCommit)).out[0].success;
  }

  lemma ExchangeIsAdvance(l: Node, f: Node, leaderCommit: nat, l': Node, f': Node)
    requires IsExchange(l, f, leaderCommit, l', f') && Ok(Seen(l, f))
    ensures Pair(l', f') && f'.id == f.id && Seen(l', f') == Advance(Seen(l, f))
  {
    ExchangeAdvances(l, f, leaderCommit);
  }

  /** After `k` exchanges the nodes are where `k` advances lead. */
  lemma {:induction false} ExchangesAdvance(ls: seq<Node>, fs: seq<Node>, leaderCommits: seq<nat>, k: nat)
    requires Exchanging(ls, fs, leaderCommits) && k <= |leaderCommits| && Ok(Seen(ls[0], fs[0]))
    ensures Pair(ls[k], fs[k]) && fs[k].id == fs[0].id
    ensures Seen(ls[k], fs[k]) == AdvanceBy(Seen(ls[0], fs[0]), k)
  {
    if k > 0 {
      ExchangesAdvance(ls, fs, leaderCommits, k - 1);
      assert IsExchange(ls[k - 1], fs[k - 1], leaderCommits[k - 1], ls[k - 1 + 1], fs[k - 1 + 1]);
      ExchangeIsAdvance(ls[k - 1], fs[k - 1], leaderCommits[k - 1], ls[k], fs[k]);
    }
  }

  // ---- counting the exchanges ----

  /** The highest index below `k` at which the other log shows the same term. */
  function Agreement(log: seq<Entry>, other: seq<Entry>, k: nat): (j: nat)
    requires 1 <= k <= |log| && |other| > 0 && other[0] == log[0]
    ensures j < k && VerifyEntry(other, j, log[j].term)
    ensures forall i :: j < i < k ==> !VerifyEntry(other, i, log[i].term)
  {
    if VerifyEntry(other, k - 1, log[k - 1].term) then k - 1 else Agreement(log, other, k - 1)
  }

  /** The answers still to come: refusals down to the agreement, then a success per missing entry. */
  function Remaining(p: Progress): nat
    requires |p.held| > 0 && |p.log| > 0 && p.held[0] == p.log[0]
    requires p.next.Some? ==> 1 <= p.next.value < |p.log|
  {
    if p.next.None? then 0
    else
      var j := Agreement(p.log, p.held, p.next.value);
      (p.next.value - 1 - j) + (|p.log| - 1 - j)
  }

  lemma AdvanceCounts(p: Progress)
    requires Ok(p) && p.next.Some?
    ensures Remaining(Advance(p)) == Remaining(p) - 1
    ensures Advance(p).next.None? ==> Advance(p).held == p.log
  {
    var k := p.next.value;
    if Fits(p) {
      assert p.held[..k] == p.log[..k] && p.log[..k] + [p.log[k]] == p.log[..k + 1];
      assert p.log[..k + 1][k] == p.log[k];
    }
  }

  lemma NothingRemains(p: Progress)
    requires Ok(p)
    ensures Remaining(p) == 0 <==> p.next.None?
  {
  }

  /** What one more advance does, while something remains. */
  lemma OneMore(p: Progress, n: nat, before: Progress)
    requires Ok(p) && n > 0 && before == AdvanceBy(p, n - 1) && Remaining(before) > 0
    ensures Remaining(AdvanceBy(p, n)) == Remaining(before) - 1
    ensures AdvanceBy(p, n).next.None? ==> AdvanceBy(p, n).held == p.log
  {
    NothingRemains(before);
    assert AdvanceBy(p, n) == Advance(before);
    AdvanceCounts(before);
  }

  /** Each advance takes one off what remains, until nothing does; then the logs are equal. */
  ghost predicate Counted(p: Progress, n: nat)
    requires Ok(p)
  {
    var p' := AdvanceBy(p, n);
    Remaining(p') == Remaining(p) - n && (p'.next.None? ==> p'.held == p.log)
  }

  lemma {:induction false} AdvancesCount(p: Progress, n: nat)
    requires Ok(p) && p.next.Some? && n <= Remaining(p)
    ensures Counted(p, n)
  {
    if n > 0 {
      AdvancesCount(p, n - 1);
      OneMore(p, n, AdvanceBy(p, n - 1));
    }
  }

  /** Before the last answer the row is not up to date; with it the logs are equal. */
  lemma AdvanceEnds(p: Progress, n: nat)
    requires Ok(p) && p.next.Some? && n <= Remaining(p)
    ensures AdvanceBy(p, n).next.None? <==> n == Remaining(p)
    ensures n == Remaining(p) ==> AdvanceBy(p, n).held == p.log
  {
    AdvancesCount(p, n);
    NothingRemains(AdvanceBy(p, n));
  }

  /** Refusals come first: once an answer was a success, so is every later one. */
  lemma SuccessesStay(p: Progress)
    requires Ok(p) && p.next.Some? && Fits(p) && Advance(p).next.Some?
    ensures Fits(Advance(p))
  {
    assert Advance(p).held[p.next.value] == p.log[p.next.value];
  }

  /**
   * Catch-up terminates: from a row at the last index `k`, with logs that match and no new entry,
   * there are exactly 2(k - j) - 1 exchanges, where `j` is the last index below `k` on which the logs
   * agree; so at most 2k - 1. The row is up to date after that many and not before, and then the
   * logs are equal.
   */
  lemma CatchesUp(ls: seq<Node>, fs: seq<Node>, leaderCommits: seq<nat>)
    requires Exchanging(ls, fs, leaderCommits)
    requires M.LogsMatch(ls[0].log, fs[0].log) && fs[0].log[0] == ls[0].log[0]
    requires ls[0].nextIndex[fs[0].id] == Some(|ls[0].log| - 1)
    ensures var n, l, f := |leaderCommits|, ls[|leaderCommits|], fs[|leaderCommits|];
            var k := |ls[0].log| - 1;
            var rounds := 2 * (k - Agreement(ls[0].log, fs[0].log, k)) - 1;
            && n <= rounds <= 2 * k - 1
            && Pair(l, f) && f.id == fs[0].id
            && (l.nextIndex[f.id].None? <==> n == rounds)
            && (n == rounds ==> l.log == f.log == ls[0].log)
  {
    var p, n := Seen(ls[0], fs[0]), |leaderCommits|;
    if n > Remaining(p) {
      ExchangesAdvance(ls, fs, leaderCommits, Remaining(p));
      AdvanceEnds(p, Remaining(p));
      StillBehind(ls, fs, leaderCommits, Remaining(p));
    } else {
      ExchangesAdvance(ls, fs, leaderCommits, n);
      AdvanceEnds(p, n);
    }
  }

  lemma StillBehind(ls: seq<Node>, fs: seq<Node>, leaderCommits: seq<nat>, i: nat)
    requires Exchanging(ls, fs, leaderCommits) && i < |leaderCommits|
    ensures Pair(ls[i], fs[i]) && ls[i].nextIndex[fs[i].id].Some?
  {
    assert IsExchange(ls[i], fs[i], leaderCommits[i], ls[i + 1], fs[i + 1]);
  }
}
