/**
 * A leader leaves nothing uncommitted that all nodes have (raft.py:443-454): over a whole reign its
 * commit index keeps up with the least row of its table. A cluster of one node never commits.
 */
module CommitProgress {
  import opened Options
  import opened RaftTypes
  import opened RaftSpec
  import opened RaftLocal
  import opened RaftSystem
  import opened RaftTurns
  import opened CommitScan
  import C = CommitSafety
  import M = LogMatching
  import P = MatchProgress

  // ---- over any network ----

  /** Some node other than the leader has not been seen beyond the leader's commit index. */
  ghost predicate CaughtUp(n: Node)
    requires n.size == |n.matchIndex|
  {
    exists f :: 0 <= f < n.size && f != n.id && n.matchIndex[f] <= n.commitIndex
  }

  /** No row is beyond both the log and the commit index. */
  predicate RowsInLog(n: Node)
    requires n.size == |n.matchIndex|
  {
    forall f :: 0 <= f < n.size ==> n.matchIndex[f] <= n.commitIndex || n.matchIndex[f] < |n.log|
  }

  ghost predicate Settled(n: Node) {
    NodeOk(n) && (n.loop.InLeader? && n.size > 1 ==> RowsInLog(n) && CaughtUp(n))
  }

  /** What an ack does to the rows: that of its sender may move, to an index inside the log. */
  lemma AckMovesOneRow(n: Node, m: Msg)
    requires TakesAck(n, m)
    ensures var n' := Act(n, Receive(m)).node;
            && NodeOk(n') && n'.loop.InLeader? && n'.id == n.id && n'.size == n.size
            && n'.matchIndex == n.matchIndex[m.sender := n'.matchIndex[m.sender]]
            && (n'.matchIndex[m.sender] == n.matchIndex[m.sender] || n'.matchIndex[m.sender] <= n.LastIndex())
  {
    AckKeepsLeaderOk(n, m.sender, m.success);
  }

  lemma AckKeepsSettled(n: Node, m: Msg)
    requires TakesAck(n, m) && Settled(n)
    ensures Settled(Act(n, Receive(m)).node)
  {
    AckMovesOneRow(n, m);
    AckCommitsIff(n, m);
    ScannedIsSettled(n, Act(n, Receive(m)).node);
  }

  /** If all rows but the leader's own were beyond the commit index, the scan would have moved it. */
  lemma ScannedIsSettled(n: Node, n': Node)
    requires Settled(n) && NodeOk(n') && n'.id == n.id && n'.size == n.size && n'.loop.InLeader? && n'.log == n.log
    requires forall f :: 0 <= f < n.size ==> n'.matchIndex[f] <= n.commitIndex || n'.matchIndex[f] < |n.log|
    requires n'.commitIndex > n.commitIndex <==> forall f :: 0 <= f < n.size ==> n'.matchIndex[f] > n.commitIndex
    requires n'.commitIndex > n.commitIndex ==> n'.commitIndex in n'.matchIndex
    requires n'.commitIndex > n.commitIndex ==> forall f :: 0 <= f < n.size ==> n'.commitIndex <= n'.matchIndex[f]
    requires n'.commitIndex >= n.commitIndex
    ensures Settled(n')
  {
    if n.size > 1 {
      var f: nat :| f < n.size && n'.matchIndex[f] <= n'.commitIndex;
      var g := if f != n.id then f else if n.id == 0 then 1 else 0;
      assert g != n.id && n'.matchIndex[g] <= n'.commitIndex;
    }
  }

  /** A new entry moves the leader's own row only. */
  lemma AppendKeepsSettled(n: Node, n': Node)
    requires Settled(n) && NodeOk(n') && n'.id == n.id && n'.size == n.size && n.loop.InLeader?
    requires n'.commitIndex == n.commitIndex && |n'.log| >= |n.log|
    requires forall f :: 0 <= f < n.size && f != n.id ==> n'.matchIndex[f] == n.matchIndex[f]
    ensures Settled(n')
  {
    if n.size > 1 && n'.loop.InLeader? {
      var f: nat :| f < n.size && f != n.id && n.matchIndex[f] <= n.commitIndex;
      assert n'.matchIndex[f] <= n'.commitIndex;
    }
  }

  lemma OpeningIsSettled(n: Node)
    requires NodeOk(n) && n.loop.Idle? && n.role.Leader? && NodeOk(Act(n, Enter).node)
    ensures Settled(Act(n, Enter).node)
  {
    ReignOpens(n);
    var n', g := Act(n, Enter).node, if n.id == 0 then 1 else 0;
    assert n'.commitIndex == n.commitIndex && n'.id == n.id && n'.size == n.size;
    if n.size > 1 {
      assert g != n.id && n'.matchIndex[g] <= n'.commitIndex;
    }
  }

  lemma TurnKeepsSettled(n: Node, ev: Event)
    requires Settled(n) && Enabled(n, ev)
    ensures Settled(Act(n, ev).node)
  {
    ActKeepsNodeOk(n, ev);
    var n' := Act(n, ev).node;
    if n'.loop.InLeader? {
      if n.loop.InLeader? {
        if ev.Receive? && ev.msg.Ack? {
          if TakesAck(n, ev.msg) {
            AckKeepsSettled(n, ev.msg);
          } else {
            OtherAcks(n, ev.msg);
          }
        } else {
          QuietRows(n, ev);
          AppendKeepsSettled(n, n');
        }
      } else {
        OpeningIsSettled(n);
      }
    }
  }

  /** A turn of a reign without an ack leaves the commit index and the rows of all others. */
  lemma QuietRows(n: Node, ev: Event)
    requires NodeOk(n) && Enabled(n, ev) && n.loop.InLeader? && !(ev.Receive? && ev.msg.Ack?)
    ensures var n' := Act(n, ev).node;
            && n'.commitIndex == n.commitIndex && |n'.log| >= |n.log|
            && |n'.matchIndex| == |n.matchIndex|
            && forall f :: 0 <= f < n.size && f != n.id ==> n'.matchIndex[f] == n.matchIndex[f]
  {
  }

  ghost predicate AllSettled(s: Sys) {
    SysOk(s) && forall v :: 0 <= v < |s.nodes| ==> Settled(s.nodes[v])
  }

  lemma {:induction false} RunKeepsSettled(states: seq<Sys>, actions: seq<Action>, k: nat)
    requires IsRun(states, actions) && k <= |actions|
    ensures AllSettled(states[k])
  {
    if k > 0 {
      RunKeepsSettled(states, actions, k - 1);
      var s, a := states[k - 1], actions[k - 1];
      assert Moves(s, a, states[k]);
      StepKeepsSysOk(s, a);
      if !a.Lose? {
        TurnKeepsSettled(s.nodes[a.v], EventOf(s, a));
      }
    }
  }

  /**
   * In every run over any network, at every moment of every reign of a cluster of two or more, some
   * other node has not acked beyond the leader's commit index: nothing that all have acked is left
   * uncommitted.
   */
  lemma NothingLeftToCommit(states: seq<Sys>, actions: seq<Action>, k: nat, v: NodeId)
    requires IsRun(states, actions) && k <= |actions|
    requires 1 < |states[k].nodes| && v < |states[k].nodes| && states[k].nodes[v].loop.InLeader?
    ensures var l := states[k].nodes[v];
            && |l.matchIndex| == |states[k].nodes|
            && exists f :: 0 <= f < |l.matchIndex| && f != v && l.matchIndex[f] <= l.commitIndex
  {
    RunKeepsSettled(states, actions, k);
    assert Settled(states[k].nodes[v]);
  }

  // ---- orderly runs ----

  /** What a leader has committed since the opening of its reign, all rows have reached. */
  ghost predicate Reached(s: Sys) {
    SysOk(s) && forall v, f :: 0 <= v < |s.nodes| && 0 <= f < |s.nodes| && s.nodes[v].loop.InLeader? ==>
      HasReached(s.nodes[v], f, s.startCommit)
  }

  predicate HasReached(l: Node, f: NodeId, start: nat) {
    f < |l.matchIndex| && (l.commitIndex > start ==> l.commitIndex <= l.matchIndex[f])
  }

  /** A row that has been reached does not fall behind, and a commit does not pass it. */
  lemma LeaderStaysReached(s: Sys, a: Action, f: NodeId)
    requires C.LeaderActs(s, a) && C.OrderlyDelivery(s, a) && SysOk(Step(s, a)) && f < |s.nodes|
    requires Step(s, a).nodes[a.v].loop.InLeader? && HasReached(s.nodes[a.v], f, s.startCommit)
    ensures HasReached(Step(s, a).nodes[a.v], f, s.startCommit)
  {
    var n, ev, n' := s.nodes[a.v], EventOf(s, a), Step(s, a).nodes[a.v];
    ReignGrows(n, ev);
    if n'.commitIndex == n.commitIndex && n.commitIndex > s.startCommit && f != a.v {
      C.LeaderOwnsReign(s, a);
      assert C.FollowerOk(s, f);
      P.LeaderMovesForward(s, a, f);
    }
  }

  lemma StepKeepsReached(s: Sys, a: Action)
    requires Reached(s) && C.Inv(s) && C.Matching(s) && CanAct(s, a) && C.OrderlyDelivery(s, a)
    requires C.Inv(Step(s, a))
    ensures Reached(Step(s, a))
  {
    var s' := Step(s, a);
    forall v, f | 0 <= v < |s'.nodes| && 0 <= f < |s'.nodes| && s'.nodes[v].loop.InLeader?
      ensures HasReached(s'.nodes[v], f, s'.startCommit)
    {
      if s.nodes[v].loop.InLeader? {
        assert HasReached(s.nodes[v], f, s.startCommit);
        if !a.Lose? && a.v == v {
          LeaderStaysReached(s, a, f);
        } else if !a.Lose? && EffectOf(s, a).node.loop.InLeader? {
          assert false;
        }
      } else {
        C.OpeningTurn(s.nodes[a.v], EventOf(s, a));
      }
    }
  }

  lemma {:induction false} OrderlyRunReached(states: seq<Sys>, actions: seq<Action>, k: nat)
    requires C.OrderlyRun(states, actions) && k <= |actions|
    ensures Reached(states[k])
  {
    C.OrderlyRunKeepsInv(states, actions, k);
    if k == 0 {
      var size: nat :| states[0] == Init(size);
    } else {
      OrderlyRunReached(states, actions, k - 1);
      C.OrderlyRunKeepsInv(states, actions, k - 1);
      C.OrderlyRunMatches(states, actions, k - 1);
      C.MatchingHolds(states[k - 1]);
      assert Moves(states[k - 1], actions[k - 1], states[k]) && C.Orderly(states[k - 1], actions[k - 1]);
      StepKeepsReached(states[k - 1], actions[k - 1]);
    }
  }

  /**
   * In every state of an orderly run of two or more nodes a leader's commit index is exactly the
   * least of its rows, or the index it began with if that is higher.
   */
  lemma CommitIsTheLeastRow(states: seq<Sys>, actions: seq<Action>, k: nat, v: NodeId)
    requires C.OrderlyRun(states, actions) && k <= |actions|
    requires 1 < |states[k].nodes| && v < |states[k].nodes| && states[k].nodes[v].loop.InLeader?
    ensures var l := states[k].nodes[v];
            && |l.matchIndex| == |states[k].nodes|
            && l.commitIndex == Max(states[k].startCommit, MinOf(l.matchIndex))
  {
    var s, l := states[k], states[k].nodes[v];
    NothingLeftToCommit(states, actions, k, v);
    OrderlyRunReached(states, actions, k);
    C.OrderlyRunKeepsInv(states, actions, k);
    var m := MinOf(l.matchIndex);
    var f :| 0 <= f < |l.matchIndex| && l.matchIndex[f] == m;
    assert HasReached(l, f, s.startCommit);
    assert l.commitIndex >= s.startCommit;
  }

  // ---- a cluster of one ----

  /** Nothing that could move a commit index is in the node or the network. */
  ghost predicate Uncommitted(s: Sys) {
    && SysOk(s) && |s.nodes| == 1
    && s.nodes[0].commitIndex == 0 && s.nodes[0].log[0] == INIT_ENTRY
    && forall i :: 0 <= i < |s.net| ==> CommitsNothing(s.net[i])
  }

  predicate CommitsNothing(m: Msg) {
    !m.Committal? && (m.AppendEntries? ==> m.leaderCommit == 0)
  }

  /** The only row is the node's own, which is never behind, so no ack is ever taken into it. */
  lemma LoneTurn(n: Node, ev: Event)
    requires NodeOk(n) && Enabled(n, ev) && n.size == 1 && n.commitIndex == 0
    requires ev.Receive? ==> CommitsNothing(ev.msg) && MsgOk(ev.msg, 1)
    ensures var e := Act(n, ev);
            && e.node.commitIndex == 0 && |e.node.log| > 0 && e.node.log[0] == n.log[0]
            && forall m :: m in e.out ==> CommitsNothing(m)
  {
    M.TurnLogs(n, ev);
    match ev
    case Receive(m) =>
      if n.loop.InLeader? && m.ClientRequest? {
        BroadcastsAre(Extended(n, m.entry), n.nextIndex, |n.log|, 1);
      }
    case Enter =>
      if n.role.Leader? {
        BroadcastsAre(Extended(Crowned(n), Entry(n.term, "Leader Entry", -1)), Crowned(n).nextIndex, |n.log|, 1);
      }
    case TakeClient =>
      if n.clientQueue != [] {
        BroadcastsAre(Extended(n.(clientQueue := n.clientQueue[1..]), n.clientQueue[0]), n.nextIndex, |n.log|, 1);
      }
    case _ =>
  }

  lemma {:induction false} LoneRun(states: seq<Sys>, actions: seq<Action>, k: nat)
    requires IsRun(states, actions) && k <= |actions| && |states[0].nodes| == 1
    ensures Uncommitted(states[k])
  {
    if k == 0 {
      var size: nat :| states[0] == Init(size);
    } else {
      LoneRun(states, actions, k - 1);
      var s, a := states[k - 1], actions[k - 1];
      assert Moves(s, a, states[k]);
      StepKeepsSysOk(s, a);
      if !a.Lose? {
        LoneTurn(s.nodes[0], EventOf(s, a));
        forall i | |s.net| <= i < |states[k].net|
          ensures CommitsNothing(states[k].net[i])
        {
          assert states[k].net[i] in EffectOf(s, a).out;
        }
      }
    }
  }

  /**
   * A single node may elect itself (raft.py:317) but never commits anything: in every run of a cluster
   * of one the client's query returns the initial entry.
   */
  lemma LoneNodeNeverCommits(states: seq<Sys>, actions: seq<Action>, k: nat)
    requires IsRun(states, actions) && k <= |actions| && |states[0].nodes| == 1
    ensures |states[k].nodes| == 1 && Query(states[k].nodes[0], None) == Committed("Init Entry")
  {
    LoneRun(states, actions, k);
  }
}
