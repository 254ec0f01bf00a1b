/**
 * What one turn of one node keeps and can send, whatever the rest of the system does: a leader's
 * bookkeeping stays within its log (raft.py:381-454), terms never decrease (raft.py:541-556), a
 * reign only adds to the log and to the commit index, a broadcast reaches every node that was up to
 * date (raft.py:644-648), and votes and heartbeats come from the turns that one expects.
 */
module RaftLocal {
  import opened Options
  import opened RaftTypes
  import opened RaftSpec

  /** Every broadcast message replicates the new entry to a node that was up to date. */
  lemma {:induction false} BroadcastsAre(n: Node, nextIndex: seq<Option<nat>>, index: nat, k: nat)
    requires 1 <= index < |n.log| && k <= |nextIndex|
    ensures forall m :: m in Broadcasts(n, nextIndex, index, k) ==>
              m.AppendEntries? && m.receiver < k && nextIndex[m.receiver].None? &&
              m == ReplicationOf(n, m.receiver, index)
  {
    if k > 0 {
      BroadcastsAre(n, nextIndex, index, k - 1);
    }
  }

  /** ... and every node that was up to date is sent one. */
  lemma {:induction false} BroadcastsReach(n: Node, nextIndex: seq<Option<nat>>, index: nat, k: nat, f: NodeId)
    requires 1 <= index < |n.log| && f < k <= |nextIndex| && nextIndex[f].None?
    ensures ReplicationOf(n, f, index) in Broadcasts(n, nextIndex, index, k)
  {
    if f < k - 1 {
      BroadcastsReach(n, nextIndex, index, k - 1, f);
    }
  }

  lemma AckKeepsLeaderOk(n: Node, f: NodeId, success: bool)
    requires NodeOk(n) && n.loop.InLeader? && f < n.size
    ensures var n' := LeaderAck(n, f, success).node;
            && n' == n.(nextIndex := n'.nextIndex, matchIndex := n'.matchIndex, commitIndex := n'.commitIndex,
                        lastAppliedIndex := n'.lastAppliedIndex, lastAppliedTerm := n'.lastAppliedTerm)
            && NodeOk(n')
  {
  }

  /**
   * The leader's bookkeeping under any acknowledgements, stale, duplicate or its own: rows point
   * into the log, the own row is up to date, so that every log read of the leader is in bounds;
   * and the other loops keep the log nonempty.
   */
  lemma ActKeepsNodeOk(n: Node, ev: Event)
    requires NodeOk(n) && Enabled(n, ev)
    ensures NodeOk(Act(n, ev).node)
    ensures Act(n, ev).node.id == n.id && Act(n, ev).node.size == n.size
  {
    if n.loop.InLeader? && ev.Receive? && ev.msg.Ack? && ev.msg.sender < n.size {
      AckKeepsLeaderOk(n, ev.msg.sender, ev.msg.success);
    }
  }

  /** Terms never decrease (raft.py:209, 223, 326, 334, 466, 553-556). */
  lemma TermsNeverDecrease(n: Node, ev: Event)
    requires NodeOk(n) && Enabled(n, ev)
    ensures Act(n, ev).node.term >= n.term
  {
  }

  /** The nodes a turn leaves in the leader loop were in it, or have just opened their reign. */
  ghost predicate LeadsOn(n: Node, ev: Event)
    requires NodeOk(n) && Enabled(n, ev)
  {
    n.loop.InLeader? && Act(n, ev).node.loop.InLeader?
  }

  /**
   * During a reign the log is append-only, the commit index only grows and stays inside the log,
   * and the term is fixed.
   */
  lemma ReignGrows(n: Node, ev: Event)
    requires NodeOk(n) && Enabled(n, ev) && LeadsOn(n, ev)
    ensures var n' := Act(n, ev).node;
            && n.log <= n'.log && |n'.log| <= |n.log| + 1
            && n'.term == n.term
            && n'.commitIndex >= n.commitIndex
            && (n'.commitIndex > n.commitIndex ==>
                  && n'.log == n.log
                  && n'.commitIndex <= n'.LastIndex()
                  && forall f :: 0 <= f < n.size ==> n'.matchIndex[f] >= n'.commitIndex)
  {
    if ev.Receive? && ev.msg.Ack? && ev.msg.sender < n.size {
      AckGrows(n, ev.msg.sender, ev.msg.success);
    }
  }

  /** An ack moves the commit index only forward, and to an index that every row of the table reaches. */
  lemma AckGrows(n: Node, f: NodeId, success: bool)
    requires NodeOk(n) && n.loop.InLeader? && f < n.size
    ensures var n' := LeaderAck(n, f, success).node;
            && n'.log == n.log && n'.term == n.term
            && (n'.commitIndex == n.commitIndex
                || (&& n.commitIndex < n'.commitIndex <= n.LastIndex()
                    && forall g :: 0 <= g < n.size ==> n'.matchIndex[g] >= n'.commitIndex))
  {
    if n.nextIndex[f].Some? {
      var moved := UpdateProgress(n, f, success).node;
      assert moved.matchIndex[n.id] == n.LastIndex();
    }
  }

  /** Everything a leader broadcasts with a new entry is an AppendEntries of its term. */
  lemma BroadcastIsReplication(n: Node, entry: Entry)
    requires n.id < n.size == |n.nextIndex| == |n.matchIndex| && |n.log| > 0
    ensures forall m :: m in BroadcastAppend(n, entry).out ==> m.AppendEntries?
  {
    BroadcastsAre(Extended(n, entry), n.nextIndex, |n.log|, n.size);
  }

  /** Messages that follow an append, its answer or a commit, or hand on a client's request. */
  ghost predicate OnlyReplication(out: seq<Msg>) {
    forall m :: m in out ==> m.AppendEntries? || m.Ack? || m.Committal? || m.ClientRequest?
  }

  lemma FollowerSends(n: Node, m: Msg)
    requires NodeOk(n) && n.loop.InFollower? && !m.RequestVotes?
    ensures OnlyReplication(FollowerMessage(n, m).out)
  {
  }

  lemma LeaderSends(n: Node, m: Msg)
    requires NodeOk(n) && n.loop.InLeader? && !m.RequestVotes?
    ensures OnlyReplication(LeaderMessage(n, m).out)
  {
    if m.ClientRequest? {
      BroadcastIsReplication(n, m.entry);
    }
  }

  /** Votes, vote requests and heartbeats come from the turns that one expects, and from no others. */
  lemma QuietTurns(n: Node, ev: Event)
    requires NodeOk(n) && Enabled(n, ev)
    ensures forall m :: m in Act(n, ev).out && m.Vote? ==>
              (ev.Enter? && n.role.Candidate?) || (ev.Receive? && ev.msg.RequestVotes?)
    ensures forall m :: m in Act(n, ev).out && m.RequestVotes? ==> ev.Enter? && n.role.Candidate?
    ensures forall m :: m in Act(n, ev).out && m.Heartbeat? ==>
              m == Heartbeat(n.term, n.id) && (ev.Beat? || (ev.Enter? && n.role.Leader?))
  {
    match ev
    case Receive(m) =>
      if n.loop.InFollower? && !m.RequestVotes? {
        FollowerSends(n, m);
      } else if n.loop.InLeader? && !m.RequestVotes? {
        LeaderSends(n, m);
      }
    case Enter =>
      if n.role.Leader? {
        BroadcastIsReplication(Crowned(n), Entry(n.term, "Leader Entry", -1));
      }
    case TakeClient =>
      if n.clientQueue != [] {
        BroadcastIsReplication(n.(clientQueue := n.clientQueue[1..]), n.clientQueue[0]);
      }
    case _ =>
  }
}
