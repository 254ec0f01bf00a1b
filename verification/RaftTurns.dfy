/**
 * What a node owes each message, in the fields of the node and the message (raft.py:206-255, 264-347,
 * 409-473): how terms move, who gets a vote, when a node steps down, and when an ack commits.
 */
module RaftTurns {
  import opened Options
  import opened RaftTypes
  import opened RaftSpec
  import opened RaftLocal
  import opened CommitScan

  function Max(a: nat, b: nat): nat {
    if a < b then b else a
  }

  // ---- elections ----

  /** The follower has not voted in the request's term, and has committed nothing beyond the candidate. */
  predicate Deserves(n: Node, m: Msg)
    requires m.RequestVotes?
  {
    (m.term > n.term || n.votedFor.None?) && m.lastIndex >= n.lastAppliedIndex && m.lastTerm >= n.lastAppliedTerm
  }

  /**
   * A follower answers every request with one vote, in the higher of the two terms. It is recorded
   * whether granted or not, so a refusal uses the vote up.
   */
  lemma FollowerVotes(n: Node, m: Msg)
    requires NodeOk(n) && n.loop.InFollower? && m.RequestVotes?
    ensures var e := Act(n, Receive(m));
            && e.out == [Vote(Max(n.term, m.term), n.id, m.sender, Deserves(n, m))]
            && e.node == n.(term := Max(n.term, m.term), votedFor := Some(m.sender))
  {
  }

  /** A candidate or leader grants a request of a higher term unseen and steps down; it ignores all others. */
  lemma HigherTermDemotes(n: Node, m: Msg)
    requires NodeOk(n) && Enabled(n, Receive(m)) && !n.loop.InFollower? && m.RequestVotes?
    ensures var e := Act(n, Receive(m));
            && (m.term > n.term ==>
                  && e.out == [Vote(m.term, n.id, m.sender, true)]
                  && e.node == n.(term := m.term, votedFor := Some(m.sender), role := Follower, loop := Idle))
            && (m.term <= n.term ==> e == Effect(n, []))
  {
  }

  /** In every loop a request for votes takes the node to the higher of the two terms. */
  lemma RequestRaisesTerm(n: Node, m: Msg)
    requires NodeOk(n) && Enabled(n, Receive(m)) && m.RequestVotes?
    ensures Act(n, Receive(m)).node.term == Max(n.term, m.term)
  {
    if n.loop.InFollower? {
      FollowerVotes(n, m);
    } else {
      HigherTermDemotes(n, m);
    }
  }

  /** What a heartbeat leaves of a follower's queue, and what it hands to the leader. */
  predicate HandsOn(n: Node, e: Effect, leader: NodeId) {
    if n.clientQueue == [] then e.node.clientQueue == [] && e.out == []
    else n.clientQueue == [n.clientQueue[0]] + e.node.clientQueue
         && e.out == [ClientRequest(n.id, leader, n.clientQueue[0])]
  }

  /**
   * A heartbeat takes followers and candidates to the higher of the two terms. It ends the campaign
   * of a candidate exactly if its term is not older; a leader does not look at it.
   */
  lemma HeartbeatRaisesTerm(n: Node, m: Msg)
    requires NodeOk(n) && Enabled(n, Receive(m)) && m.Heartbeat?
    ensures var e := Act(n, Receive(m)); var n' := e.node;
            && (n.loop.InLeader? ==> e == Effect(n, []))
            && (!n.loop.InLeader? ==> n'.term == Max(n.term, m.term))
            && (n.loop.InFollower? ==>
                  && n' == n.(term := n'.term, votedFor := if m.term > n.term then None else n.votedFor,
                              leaderId := Some(m.leader), clientQueue := n'.clientQueue)
                  && HandsOn(n, e, m.leader))
            && (n.loop.InCandidate? && m.term >= n.term ==>
                  && n' == n.(term := n'.term, votedFor := None, leaderId := Some(m.leader), role := Follower,
                              loop := Idle)
                  && e.out == [])
            && (n.loop.InCandidate? && m.term < n.term ==> e == Effect(n, []))
  {
  }

  /** A campaign opens the next term with a request that tells what the node has committed, and its own vote. */
  lemma CampaignOpens(n: Node)
    requires NodeOk(n) && n.loop.Idle? && n.role.Candidate?
    ensures var e := Act(n, Enter);
            && e.out == [RequestVotes(n.term + 1, n.id, n.lastAppliedIndex, n.lastAppliedTerm),
                         Vote(n.term + 1, n.id, n.id, true)]
            && e.node == n.(term := n.term + 1, votedFor := Some(n.id), loop := InCandidate(0, 0))
  {
  }

  /** A candidate counts granted votes, and leads as soon as they are more than half, or it is alone. */
  lemma VoteIsTallied(n: Node, m: Msg)
    requires NodeOk(n) && n.loop.InCandidate? && Enabled(n, Receive(m)) && m.Vote?
    ensures var e := Act(n, Receive(m)); var votes := n.loop.votesForMe + if m.granted then 1 else 0;
            && e.out == []
            && e.node == n.(role := e.node.role, loop := e.node.loop)
            && (e.node.loop.Idle? <==> 2 * votes > n.size || n.size == 1)
            && (e.node.loop.Idle? ==> e.node.role.Leader?)
            && (!e.node.loop.Idle? ==>
                  e.node.role == n.role && e.node.loop == InCandidate(votes, n.loop.totalVotes + 1))
  {
  }

  // ---- commits ----

  /** Everyone is told of the index, and of nothing else. */
  ghost predicate Tells(n: Node, out: seq<Msg>, index: nat, term: nat) {
    && (forall f :: 0 <= f < n.size ==> Committal(n.id, f, index, term) in out)
    && forall m :: m in out && m.Committal? ==> m == Committal(n.id, m.receiver, index, term) && m.receiver < n.size
  }

  /** The leader takes an ack into the row of its sender. */
  predicate TakesAck(n: Node, m: Msg) {
    NodeOk(n) && n.loop.InLeader? && m.Ack? && m.receiver == n.id && m.sender < n.size && n.nextIndex[m.sender].Some?
  }

  /**
   * The turn commits exactly if every row of the table is then beyond the commit index. It commits the
   * highest index that all rows have reached, with the term of the entry there, and tells everyone.
   */
  ghost predicate CommitsCommonIndex(n: Node, n': Node, out: seq<Msg>)
    requires |n'.matchIndex| == n.size
  {
    && n'.log == n.log
    && (n'.commitIndex > n.commitIndex <==> forall f :: 0 <= f < n.size ==> n'.matchIndex[f] > n.commitIndex)
    && (n'.commitIndex > n.commitIndex ==>
          && (forall f :: 0 <= f < n.size ==> n'.commitIndex <= n'.matchIndex[f])
          && n'.commitIndex in n'.matchIndex && n'.commitIndex < |n.log|
          && n'.lastAppliedIndex == n'.commitIndex && n'.lastAppliedTerm == n.log[n'.commitIndex].term
          && Tells(n, out, n'.commitIndex, n'.lastAppliedTerm))
    && (n'.commitIndex <= n.commitIndex ==>
          && n'.commitIndex == n.commitIndex && n'.lastAppliedIndex == n.lastAppliedIndex
          && n'.lastAppliedTerm == n.lastAppliedTerm && forall x :: x in out ==> !x.Committal?)
  }

  lemma AckCommitsIff(n: Node, m: Msg)
    requires TakesAck(n, m)
    ensures var e := Act(n, Receive(m)); |e.node.matchIndex| == n.size && CommitsCommonIndex(n, e.node, e.out)
  {
    MovesTables(n, m.sender, m.success);
    var moved := UpdateProgress(n, m.sender, m.success);
    ScanCommits(n, moved.node, moved.out);
  }

  lemma MovesTables(n: Node, f: NodeId, success: bool)
    requires NodeOk(n) && n.loop.InLeader? && f < n.size && n.nextIndex[f].Some?
    ensures var moved := UpdateProgress(n, f, success);
            && moved.node == n.(nextIndex := moved.node.nextIndex, matchIndex := moved.node.matchIndex)
            && |moved.node.matchIndex| == n.size && moved.node.matchIndex[n.id] == n.LastIndex()
            && forall x :: x in moved.out ==> x.AppendEntries?
  {
  }

  lemma ScanCommits(n: Node, moved: Node, sent: seq<Msg>)
    requires moved == n.(nextIndex := moved.nextIndex, matchIndex := moved.matchIndex)
    requires n.id < n.size == |moved.matchIndex| && moved.matchIndex[n.id] < |n.log|
    requires forall x :: x in sent ==> x.AppendEntries?
    ensures var best := MinOf(moved.matchIndex);
            && best < |n.log|
            && var e := if best > n.commitIndex then BroadcastCommit(moved, best) else Effect(moved, []);
            CommitsCommonIndex(n, e.node, sent + e.out)
  {
    var best := MinOf(moved.matchIndex);
    CommitIsUnanimous(moved.matchIndex, n.commitIndex);
    if best > n.commitIndex {
      CommitTells(moved, sent, best);
    }
  }

  lemma CommitTells(n: Node, sent: seq<Msg>, index: nat)
    requires index < |n.log| && forall x :: x in sent ==> x.AppendEntries?
    ensures Tells(n, sent + BroadcastCommit(n, index).out, index, n.log[index].term)
  {
    var told := BroadcastCommit(n, index).out;
    forall f | 0 <= f < n.size
      ensures Committal(n.id, f, index, n.log[index].term) in sent + told
    {
      assert told[f] in told;
    }
  }

  /** An ack for a row that is up to date changes nothing; one of an unknown sender ends the thread. */
  lemma OtherAcks(n: Node, m: Msg)
    requires NodeOk(n) && n.loop.InLeader? && m.Ack? && m.receiver == n.id && !TakesAck(n, m)
    ensures Act(n, Receive(m)) == Effect(if m.sender < n.size then n else n.(loop := Crashed), [])
  {
  }

  /** A follower takes the index and term of a Committal as they are; nobody else does. */
  lemma CommittalIsTaken(n: Node, m: Msg)
    requires NodeOk(n) && Enabled(n, Receive(m)) && m.Committal?
    ensures Act(n, Receive(m)) ==
            Effect(if n.loop.InFollower?
                   then n.(commitIndex := m.index, lastAppliedIndex := m.index, lastAppliedTerm := m.indexTerm) else n,
                   [])
  {
  }

  /**
   * A follower answers every AppendEntries once. It accepts exactly if the term is not older and the
   * log has the preceding entry, and commits exactly if the leader then is ahead of it.
   */
  lemma AppendIsAnswered(n: Node, m: Msg)
    requires NodeOk(n) && n.loop.InFollower? && Enabled(n, Receive(m)) && m.AppendEntries?
    ensures var e := Act(n, Receive(m)); var n' := e.node;
            var accepted := m.term >= n.term && m.prevIndex < |n.log| && n.log[m.prevIndex].term == m.prevTerm;
            && e.out == [Ack(n.term, n.id, m.leader, accepted)]
            && (!accepted ==> n' == n)
            && (accepted ==>
                  && |n'.log| == m.prevIndex + 2 && n'.log[m.prevIndex + 1] == m.entry
                  && (forall i :: 0 <= i <= m.prevIndex ==> n'.log[i] == n.log[i])
                  && (m.leaderCommit > n.commitIndex ==>
                        && n'.commitIndex == n'.lastAppliedIndex == m.prevIndex
                        && n'.lastAppliedTerm == m.entry.term)
                  && (m.leaderCommit <= n.commitIndex ==>
                        && n'.commitIndex == n.commitIndex && n'.lastAppliedIndex == n.lastAppliedIndex
                        && n'.lastAppliedTerm == n.lastAppliedTerm))
  {
  }

  // ---- the leader's messages ----

  /** The AppendEntries that brings `f` the entry at `index` of a leader's log. */
  predicate Brings(n: Node, m: Msg, f: NodeId, index: nat) {
    && 1 <= index < |n.log|
    && m == AppendEntries(n.term, n.id, f, index - 1, n.log[index - 1].term, n.log[index], n.commitIndex)
  }

  ghost predicate IsBrought(n: Node, out: seq<Msg>, f: NodeId, index: nat) {
    exists m :: m in out && Brings(n, m, f, index)
  }

  /**
   * A leader that appends sends the new entry to exactly the nodes that were up to date, itself
   * included, and takes all but itself to be behind.
   */
  ghost predicate Spreads(n: Node, n': Node, out: seq<Msg>)
    requires n.size == |n.nextIndex| == |n'.nextIndex|
  {
    && (forall f :: 0 <= f < n.size && n.nextIndex[f].None? ==> IsBrought(n', out, f, |n.log|))
    && (forall m :: m in out ==>
          && m.AppendEntries? && m.receiver < n.size && n.nextIndex[m.receiver].None?
          && Brings(n', m, m.receiver, |n.log|))
    && forall f :: 0 <= f < n.size && f != n.id ==>
         n'.nextIndex[f] == if n.nextIndex[f].None? then Some(|n.log|) else n.nextIndex[f]
  }

  lemma BroadcastSpreads(n: Node, entry: Entry)
    requires n.id < n.size == |n.nextIndex| == |n.matchIndex| && |n.log| > 0
    ensures var e := BroadcastAppend(n, entry); e.node.log == n.log + [entry] && Spreads(n, e.node, e.out)
  {
    var n', e, index := Extended(n, entry), BroadcastAppend(n, entry), |n.log|;
    BroadcastsAre(n', n.nextIndex, index, n.size);
    forall f | 0 <= f < n.size && n.nextIndex[f].None?
      ensures IsBrought(e.node, e.out, f, index)
    {
      BroadcastsReach(n', n.nextIndex, index, n.size, f);
      assert Brings(e.node, ReplicationOf(n', f, index), f, index);
    }
  }

  /** A reign opens with a heartbeat, a table in which all are up to date, and an entry for everyone. */
  ghost predicate Opens(n: Node, n': Node, out: seq<Msg>) {
    && n'.loop.InLeader? && n'.leaderId == Some(n.id) && n'.term == n.term
    && n'.log == n.log + [Entry(n.term, "Leader Entry", -1)]
    && out != [] && out[0] == Heartbeat(n.term, n.id)
    && (forall f :: 0 <= f < n.size ==> IsBrought(n', out[1..], f, |n.log|))
    && |n'.nextIndex| == |n'.matchIndex| == n.size
    && forall f :: 0 <= f < n.size && f != n.id ==>
         n'.nextIndex[f] == Some(|n.log|) && n'.matchIndex[f] == n.commitIndex
  }

  lemma ReignOpens(n: Node)
    requires NodeOk(n) && n.loop.Idle? && n.role.Leader?
    ensures Opens(n, Act(n, Enter).node, Act(n, Enter).out)
  {
    var c := Crowned(n);
    BroadcastSpreads(c, Entry(n.term, "Leader Entry", -1));
    CrownedOpens(n, c, BroadcastAppend(c, Entry(n.term, "Leader Entry", -1)));
  }

  lemma CrownedOpens(n: Node, c: Node, e: Effect)
    requires NodeOk(n) && c.size == n.size == |c.nextIndex| == |e.node.nextIndex| == |e.node.matchIndex|
    requires c.id == n.id && c.log == n.log && forall f :: 0 <= f < n.size ==> c.nextIndex[f].None?
    requires e.node.log == n.log + [Entry(n.term, "Leader Entry", -1)] && Spreads(c, e.node, e.out)
    requires e.node.loop.InLeader? && e.node.leaderId == Some(n.id) && e.node.term == n.term
    requires forall f :: 0 <= f < n.size && f != n.id ==> e.node.matchIndex[f] == n.commitIndex
    ensures Opens(n, e.node, [Heartbeat(n.term, n.id)] + e.out)
  {
    assert ([Heartbeat(n.term, n.id)] + e.out)[1..] == e.out;
    forall f | 0 <= f < n.size
      ensures IsBrought(e.node, e.out, f, |n.log|)
    {
      assert c.nextIndex[f].None?;
    }
  }

  /** A leader appends and spreads what another node hands on to it; in the other loops it is dropped. */
  lemma RequestIsAppended(n: Node, m: Msg)
    requires NodeOk(n) && Enabled(n, Receive(m)) && m.ClientRequest?
    ensures var e := Act(n, Receive(m));
            if n.loop.InLeader? then
              e.node.log == n.log + [m.entry] && |e.node.nextIndex| == n.size && Spreads(n, e.node, e.out)
            else e == Effect(n, [])
  {
    if n.loop.InLeader? {
      BroadcastSpreads(n, m.entry);
    }
  }

  /** A leader with client requests appends and spreads the oldest. */
  lemma OldestIsAppended(n: Node)
    requires NodeOk(n) && n.loop.InLeader?
    ensures var e := Act(n, TakeClient);
            if n.clientQueue == [] then e == Effect(n, [])
            else
              && n.clientQueue == [n.clientQueue[0]] + e.node.clientQueue
              && e.node.log == n.log + [n.clientQueue[0]]
              && |e.node.nextIndex| == n.size && Spreads(n, e.node, e.out)
  {
    if n.clientQueue != [] {
      BroadcastSpreads(n.(clientQueue := n.clientQueue[1..]), n.clientQueue[0]);
    }
  }

  /** The timers of a leader send a heartbeat, or the entry that a follower is waiting for; nothing changes. */
  lemma LeaderTimers(n: Node, ev: Event)
    requires NodeOk(n) && Enabled(n, ev) && (ev.Beat? || ev.Resend?)
    ensures var e := Act(n, ev);
            && e.node == n && |e.out| == 1
            && (ev.Beat? ==> e.out[0] == Heartbeat(n.term, n.id))
            && (ev.Resend? ==> Brings(n, e.out[0], ev.follower, n.nextIndex[ev.follower].value))
  {
  }

  // ---- loops ----

  /** Only an ack of an unknown sender ends a node's thread, and only while it leads. */
  lemma CrashesIff(n: Node, ev: Event)
    requires NodeOk(n) && Enabled(n, ev)
    ensures Act(n, ev).node.loop.Crashed? <==>
            n.loop.Crashed? || (n.loop.InLeader? && ev.Receive? && ev.msg.Ack? && ev.msg.sender >= n.size)
  {
  }
}
