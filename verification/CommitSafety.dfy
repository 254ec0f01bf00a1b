/**
 * Committed entries are never lost (section 5.4 of the Raft paper), for this code's unanimous
 * commits and truncating appends, over any number of disjoint reigns (raft.py:349-479, 558-668).
 */
module CommitSafety {
  import opened Options
  import opened RaftTypes
  import opened RaftSpec
  import opened RaftLocal
  import opened RaftSystem
  import opened CommitScan
  import E = ElectionSafety
  import M = LogMatching

  // ---- what a leader's row says about a follower ----

  /** A reign: the leader's log, its term, its commit index at the opening, and what is committed. */
  datatype Reign = Reign(log: seq<Entry>, term: nat, start: nat, commits: set<seq<Entry>>)

  /** The leader's row for a follower, and whether a success of the follower has been taken into it. */
  datatype Row = Row(next: Option<nat>, matched: nat, acked: bool)

  /**
   * Truthful bookkeeping: the match of a follower that has acked is real, and while the follower
   * would still accept appends of the term, the next append starts right after the match. No append
   * it would accept cuts into a committed prefix. Before the first success the match is a guess.
   */
  ghost predicate RowOk(r: Reign, row: Row, n: Node) {
    && (row.next.Some? ==> 1 <= row.next.value < |r.log|)
    && (row.next.Some? && n.term <= r.term ==> forall p :: p in r.commits ==> |p| <= row.next.value)
    && (!row.acked ==> row.matched == r.start)
    && (row.acked ==>
          && row.matched < |r.log|
          && r.log[..row.matched + 1] <= n.log
          && (n.term <= r.term ==> Continues(r, row)))
  }

  /** The next entry to be sent is the one after the match. */
  predicate Continues(r: Reign, row: Row) {
    row.next == Some(row.matched + 1) || (row.next.None? && row.matched == |r.log| - 1)
  }

  /** What an outstanding replication message between the leader and the follower `n` says. */
  ghost predicate MsgTruth(r: Reign, row: Row, n: Node, m: Msg) {
    && row.next.Some? && 1 <= row.next.value < |r.log|
    && (m.AppendEntries? ==> m.prevIndex == row.next.value - 1)
    && (m.Ack? && m.success ==> r.log[..row.next.value + 1] <= n.log && (row.acked ==> Continues(r, row)))
    && (m.Ack? && !m.success ==>
          n.term > r.term || !VerifyEntry(n.log, row.next.value - 1, r.log[row.next.value - 1].term))
  }

  function RowOf(l: Node, f: NodeId, acked: set<NodeId>): Row
    requires f < |l.nextIndex| == |l.matchIndex|
  {
    Row(l.nextIndex[f], l.matchIndex[f], f in acked)
  }

  function ReignOf(s: Sys): Reign
    requires s.reignTerm in s.reigns
  {
    Reign(s.reigns[s.reignTerm], s.reignTerm, s.startCommit, s.commits)
  }

  ghost predicate FollowerOk(s: Sys, f: NodeId)
    requires SysOk(s) && f < |s.nodes|
    requires s.reigning.Some? && s.reigning.value < |s.nodes| && s.reignTerm in s.reigns
  {
    var row := RowOf(s.nodes[s.reigning.value], f, s.acked);
    && RowOk(ReignOf(s), row, s.nodes[f])
    && forall i :: i in s.live && i < |s.net| && Concerns(s.net[i], f) ==>
         MsgTruth(ReignOf(s), row, s.nodes[f], s.net[i])
  }

  /** The outstanding replication messages belong to the latest reign. */
  ghost predicate LiveOk(net: seq<Msg>, live: set<nat>, leader: NodeId, t: nat) {
    forall i :: i in live ==>
      && i < |net| && net[i].IsReplication()
      && (net[i].AppendEntries? ==> net[i].term == t && net[i].leader == leader)
      && (net[i].Ack? ==> net[i].receiver == leader)
  }

  ghost predicate ReignOk(s: Sys)
    requires SysOk(s) && s.reigning.Some?
  {
    var leader := s.reigning.value;
    && leader < |s.nodes|
    && s.reignTerm in s.reigns
    && (forall p :: p in s.commits ==> p <= s.reigns[s.reignTerm])
    && (forall v :: 0 <= v < |s.nodes| && s.nodes[v].loop.InLeader? ==> v == leader)
    && s.nodes[leader].term >= s.reignTerm
    && (s.nodes[leader].loop.InLeader? ==>
          s.nodes[leader].term == s.reignTerm && s.nodes[leader].commitIndex >= s.startCommit)
    && LiveOk(s.net, s.live, leader, s.reignTerm)
    && forall f :: 0 <= f < |s.nodes| && f != leader ==> FollowerOk(s, f)
  }

  /** Every prefix a leader's scan has committed is a prefix of every node's log. */
  ghost predicate NothingLost(s: Sys) {
    forall p, v :: p in s.commits && 0 <= v < |s.nodes| ==> p <= s.nodes[v].log
  }

  ghost predicate Inv(s: Sys) {
    && SysOk(s)
    && NothingLost(s)
    && (s.reigning.Some? ==> ReignOk(s))
    && (s.reigning.None? ==>
          s.live == {} && s.commits == {} && forall v :: 0 <= v < |s.nodes| ==> !s.nodes[v].loop.InLeader?)
  }

  /** `a` begins as `b` does, and matches it. */
  ghost predicate Follows(a: seq<Entry>, b: seq<Entry>) {
    |a| > 0 && |b| > 0 && a[0] == b[0] && M.LogsMatch(a, b)
  }

  /**
   * What a step needs of Log Matching: every log matches that of the latest reign, and the
   * outstanding AppendEntries of its term carry entries of that log.
   */
  ghost predicate Matching(s: Sys) {
    && SysOk(s)
    && (forall v :: 0 <= v < |s.nodes| && s.nodes[v].loop.InLeader? ==>
          s.nodes[v].term in s.reigns && s.reigns[s.nodes[v].term] == s.nodes[v].log)
    && (s.reigning.Some? && s.reignTerm in s.reigns ==>
          var log := s.reigns[s.reignTerm];
          && (forall v :: 0 <= v < |s.nodes| ==> Follows(s.nodes[v].log, log))
          && forall i :: i in s.live && i < |s.net| && s.net[i].AppendEntries? && s.net[i].term == s.reignTerm ==>
               M.Carries(log, s.net[i]))
  }

  lemma MatchingHolds(s: Sys)
    requires M.Inv(s)
    ensures Matching(s)
  {
    if s.reigning.Some? && s.reignTerm in s.reigns {
      var log := s.reigns[s.reignTerm];
      assert M.LogOk(s.reigns, log) && M.EntryOk(s.reigns, log, 0);
      forall v | 0 <= v < |s.nodes|
        ensures Follows(s.nodes[v].log, log)
      {
        assert M.EntryOk(s.reigns, s.nodes[v].log, 0);
        M.OkLogsMatch(s.reigns, s.nodes[v].log, log);
      }
      assert forall i :: 0 <= i < |s.net| ==> M.AppendOk(s.reigns, s.net[i]);
    }
  }

  /** What is assumed of the delivery of replication messages. */
  ghost predicate OrderlyDelivery(s: Sys, a: Action)
    requires CanAct(s, a)
  {
    StopAndWait(s) && DeliveredOnce(s, a) && DisjointReigns(s, a) && NoSelfAppend(s, a)
  }

  /** All that the theorem assumes of a step. */
  ghost predicate Orderly(s: Sys, a: Action)
    requires CanAct(s, a)
  {
    NoStaleVote(s, a) && OwnTermStamp(s, a) && OrderlyDelivery(s, a)
  }

  // ---- rows under the moves of the two ends ----

  /** A follower that only raises its term keeps its row and its messages true. */
  lemma RaisedTermKeepsRow(r: Reign, row: Row, n: Node, n': Node)
    requires RowOk(r, row, n)
    requires n'.log == n.log && n'.term >= n.term
    ensures RowOk(r, row, n')
    ensures forall m :: MsgTruth(r, row, n, m) ==> MsgTruth(r, row, n', m)
  {
  }

  /** An accepted append of the expected entry keeps the row true, and every committed prefix. */
  lemma AcceptKeepsRow(r: Reign, row: Row, n: Node, n': Node)
    requires RowOk(r, row, n)
    requires row.next.Some? && n.term <= r.term && n'.term == n.term
    requires n'.log == r.log[..row.next.value + 1]
    ensures RowOk(r, row, n')
    ensures forall p :: p in r.commits && p <= r.log ==> p <= n'.log
  {
  }

  /** A success moves the match to what the follower really holds. */
  lemma SuccessKeepsRow(r: Reign, row: Row, n: Node)
    requires RowOk(r, row, n)
    requires row.next.Some? && r.log[..row.next.value + 1] <= n.log
    ensures var k := row.next.value;
            RowOk(r, Row(if k + 1 > |r.log| - 1 then None else Some(k + 1), k, true), n)
  {
  }

  /**
   * A refusal by a follower that would still accept the term means the logs differ just before
   * `next`; so `next` is above everything committed and above any real match, and stepping back
   * stays clear of both.
   */
  lemma RefusalKeepsRow(r: Reign, row: Row, n: Node)
    requires RowOk(r, row, n)
    requires row.next.Some?
    requires n.term > r.term || !VerifyEntry(n.log, row.next.value - 1, r.log[row.next.value - 1].term)
    requires |n.log| > 0 && n.log[0] == r.log[0]
    requires forall p :: p in r.commits ==> p <= r.log && p <= n.log
    ensures var k := row.next.value;
            RowOk(r, row.(next := Some(if k != 1 then k - 1 else k)), n)
  {
    var k := row.next.value;
    forall p | p in r.commits
      ensures k - 1 >= |p| || n.term > r.term
    {
      assert k - 1 < |p| ==> r.log[k - 1] == p[k - 1] == n.log[k - 1];
    }
    if row.acked {
      assert k - 1 <= row.matched ==> r.log[..row.matched + 1][k - 1] == n.log[k - 1];
    }
  }

  /** The row after an answer. */
  function RowAfter(r: Reign, row: Row, success: bool): Row
    requires row.next.Some? && row.next.value > 0
  {
    var k := row.next.value;
    if !success then row.(next := Some(if k != 1 then k - 1 else k))
    else Row(if k + 1 > |r.log| - 1 then None else Some(k + 1), k, true)
  }

  /** An answer moves a true row to a true one. */
  lemma AnswerKeepsRow(r: Reign, row: Row, n: Node, m: Msg)
    requires RowOk(r, row, n) && m.Ack? && MsgTruth(r, row, n, m) && Follows(n.log, r.log)
    requires forall p :: p in r.commits ==> p <= r.log && p <= n.log
    ensures RowOk(r, RowAfter(r, row, m.success), n)
  {
    if m.success {
      SuccessKeepsRow(r, row, n);
    } else {
      RefusalKeepsRow(r, row, n);
    }
  }

  /** The row after a new entry: a follower that was up to date is now behind. */
  function Behind(r: Reign, row: Row): Row {
    if row.next.None? then row.(next := Some(|r.log|)) else row
  }

  /** A new entry of the leader leaves a follower that is behind as it is, and puts the others behind. */
  lemma NewEntryKeepsRow(r: Reign, x: Entry, row: Row, n: Node)
    requires RowOk(r, row, n)
    requires |r.log| > 0 && forall p :: p in r.commits ==> p <= r.log
    ensures RowOk(r.(log := r.log + [x]), Behind(r, row), n)
    ensures forall m :: MsgTruth(r, row, n, m) ==> MsgTruth(r.(log := r.log + [x]), row, n, m)
  {
    var log' := r.log + [x];
    if row.acked {
      assert log'[..row.matched + 1] == r.log[..row.matched + 1];
    }
    if row.next.Some? && row.next.value < |r.log| {
      assert log'[..row.next.value + 1] == r.log[..row.next.value + 1];
    }
  }

  /** Committing what is matched everywhere keeps every row true. */
  lemma CommitKeepsRow(r: Reign, row: Row, n: Node, c: nat)
    requires RowOk(r, row, n)
    requires r.start < c <= row.matched
    ensures r.log[..c + 1] <= n.log
    ensures RowOk(r.(commits := r.commits + {r.log[..c + 1]}), row, n)
  {
    assert r.log[..c + 1] <= r.log[..row.matched + 1];
  }

  // ---- one turn ----

  /** Only appends are answered in the follower loop. */
  lemma FollowerAnswers(n: Node, m: Msg)
    requires NodeOk(n) && n.loop.InFollower?
    ensures var e := FollowerMessage(n, m);
            && e.node.nextIndex == n.nextIndex && e.node.matchIndex == n.matchIndex && e.node.term >= n.term
            && forall x :: x in e.out && x.IsReplication() ==>
                 m.AppendEntries? && x == Ack(n.term, n.id, m.leader, M.Accepts(n, Receive(m)))
  {
  }

  lemma CandidateAnswers(n: Node, m: Msg)
    requires NodeOk(n) && n.loop.InCandidate?
    ensures var e := CandidateMessage(n, m);
            && e.node.nextIndex == n.nextIndex && e.node.matchIndex == n.matchIndex && e.node.term >= n.term
            && forall x :: x in e.out ==> !x.IsReplication()
  {
  }

  /** Outside the leader loop the rows stand still, and only appends are answered. */
  lemma FollowerTurn(n: Node, ev: Event)
    requires NodeOk(n) && Enabled(n, ev) && !n.loop.InLeader? && !Act(n, ev).node.loop.InLeader?
    ensures var n' := Act(n, ev).node;
            n'.nextIndex == n.nextIndex && n'.matchIndex == n.matchIndex && n'.term >= n.term
    ensures forall m :: m in Act(n, ev).out && m.IsReplication() ==>
              && n.loop.InFollower? && ev.Receive? && ev.msg.AppendEntries?
              && m == Ack(n.term, n.id, ev.msg.leader, M.Accepts(n, ev))
  {
    match ev
    case Receive(m) =>
      if n.loop.InFollower? {
        FollowerAnswers(n, m);
      } else {
        CandidateAnswers(n, m);
      }
    case _ =>
  }

  /** A broadcast reaches the nodes that were up to date, with the entry after the old end of the log. */
  lemma AppendTurn(n: Node, ev: Event)
    requires NodeOk(n) && Enabled(n, ev) && n.loop.InLeader? && M.Appended(n, ev).Some?
    ensures var n' := Act(n, ev).node;
            && n'.log == n.log + [M.Appended(n, ev).value]
            && n'.loop.InLeader? && n'.term == n.term && n'.commitIndex == n.commitIndex
            && forall f :: 0 <= f < n.size && f != n.id ==>
                 && n'.matchIndex[f] == n.matchIndex[f]
                 && n'.nextIndex[f] == if n.nextIndex[f].None? then Some(|n.log|) else n.nextIndex[f]
    ensures forall m :: m in Act(n, ev).out ==>
              m.AppendEntries? && m.receiver < n.size && n.nextIndex[m.receiver].None? && m.prevIndex == |n.log| - 1 &&
              m.term == n.term && m.leader == n.id
  {
    match ev
    case Receive(m) =>
      BroadcastsAre(Extended(n, m.entry), n.nextIndex, |n.log|, n.size);
    case TakeClient =>
      var n' := n.(clientQueue := n.clientQueue[1..]);
      BroadcastsAre(Extended(n', n.clientQueue[0]), n.nextIndex, |n.log|, n.size);
  }

  /** The opening of a reign puts every other node behind by the new entry. */
  lemma OpeningTurn(n: Node, ev: Event)
    requires NodeOk(n) && Enabled(n, ev) && !n.loop.InLeader? && Act(n, ev).node.loop.InLeader?
    ensures ev.Enter? && n.role.Leader?
    ensures var n' := Act(n, ev).node;
            && |n'.log| == |n.log| + 1 && n.log <= n'.log
            && n'.term == n.term && n'.commitIndex == n.commitIndex
            && forall f :: 0 <= f < n.size && f != n.id ==>
                 n'.matchIndex[f] == n.commitIndex && n'.nextIndex[f] == Some(|n.log|)
    ensures forall m :: m in Act(n, ev).out && m.IsReplication() ==>
              m.AppendEntries? && m.prevIndex == |n.log| - 1 && m.term == n.term && m.leader == n.id
  {
    if ev.Enter? && n.role.Leader? {
      var n' := Crowned(n);
      BroadcastsAre(Extended(n', Entry(n.term, "Leader Entry", -1)), n'.nextIndex, |n.log|, n.size);
    }
  }

  /** Leader turns that neither append, nor read an answer, nor resend leave all bookkeeping alone. */
  lemma OtherTurn(n: Node, ev: Event)
    requires NodeOk(n) && Enabled(n, ev) && n.loop.InLeader?
    requires M.Appended(n, ev).None? && !ev.Resend? && !(ev.Receive? && ev.msg.Ack?)
    ensures var n' := Act(n, ev).node;
            && n'.log == n.log && n'.nextIndex == n.nextIndex && n'.matchIndex == n.matchIndex
            && n'.commitIndex == n.commitIndex && n'.term >= n.term
            && (n'.loop.InLeader? ==> n'.term == n.term)
    ensures forall m :: m in Act(n, ev).out ==> !m.IsReplication()
  {
  }

  // ---- steps of the cluster ----

  lemma LoseKeepsInv(s: Sys, a: Action)
    requires Inv(s) && CanAct(s, a) && a.Lose?
    ensures Inv(Step(s, a))
  {
    var s' := Step(s, a);
    if s.reigning.Some? {
      assert forall f :: 0 <= f < |s.nodes| && f != s.reigning.value ==> FollowerOk(s, f) ==> FollowerOk(s', f);
    }
  }

  /** Messages of the step are at the end of the network. */
  lemma NewMessages(s: Sys, a: Action, i: nat)
    requires CanAct(s, a) && !a.Lose? && i in Step(s, a).live
    ensures var net := Step(s, a).net;
            i in s.live || (|s.net| <= i < |net| && net[i].IsReplication() && net[i] in EffectOf(s, a).out)
    ensures a.Deliver? && i == a.position ==> i >= |s.net|
  {
  }

  /** The turn of a follower, seen from the leader's row for it. */
  lemma AnswerIsTrue(n: Node, ev: Event, r: Reign, row: Row)
    requires NodeOk(n) && Enabled(n, ev) && !n.loop.InLeader? && !Act(n, ev).node.loop.InLeader?
    requires M.LogsMatch(n.log, r.log)
    requires RowOk(r, row, n)
    requires forall p :: p in r.commits ==> p <= r.log && p <= n.log
    requires n.loop.InFollower? && ev.Receive? && ev.msg.AppendEntries? ==>
               ev.msg.term == r.term && M.Carries(r.log, ev.msg) && MsgTruth(r, row, n, ev.msg)
    ensures RowOk(r, row, Act(n, ev).node)
    ensures forall p :: p in r.commits ==> p <= Act(n, ev).node.log
    ensures forall m :: m in Act(n, ev).out && m.IsReplication() ==> MsgTruth(r, row, Act(n, ev).node, m)
    ensures !M.Accepts(n, ev) ==>
              forall m :: MsgTruth(r, row, n, m) ==> MsgTruth(r, row, Act(n, ev).node, m)
  {
    FollowerTurn(n, ev);
    M.TurnLogs(n, ev);
    var n' := Act(n, ev).node;
    if M.Accepts(n, ev) {
      M.CarriedAppend(n.log, r.log, ev.msg);
      AcceptKeepsRow(r, row, n, n');
    } else {
      RaisedTermKeepsRow(r, row, n, n');
    }
  }

  /** A node outside the latest reign acts: its own row stays true. */
  lemma FollowerKeepsRow(s: Sys, a: Action)
    requires Inv(s) && Matching(s) && CanAct(s, a) && !a.Lose? && OrderlyDelivery(s, a)
    requires s.reigning.Some? && a.v != s.reigning.value
    requires !EffectOf(s, a).node.loop.InLeader?
    ensures SysOk(Step(s, a)) && FollowerOk(Step(s, a), a.v)
    ensures forall p :: p in s.commits ==> p <= EffectOf(s, a).node.log
  {
    var n, ev, s' := s.nodes[a.v], EventOf(s, a), Step(s, a);
    var r, row := ReignOf(s), RowOf(s.nodes[s.reigning.value], a.v, s.acked);
    StepKeepsSysOk(s, a);
    assert FollowerOk(s, a.v);
    assert a.Deliver? && ev.msg.IsReplication() ==> a.position in s.live && s.net[a.position] == ev.msg;
    assert Follows(n.log, r.log);
    AnswerIsTrue(n, ev, r, row);
    forall i | i in s'.live && i < |s'.net| && Concerns(s'.net[i], a.v)
      ensures MsgTruth(r, row, s'.nodes[a.v], s'.net[i])
    {
      NewMessages(s, a, i);
      if i in s.live {
        assert MsgTruth(r, row, n, s.net[i]);
        assert !M.Accepts(n, ev);
      }
    }
  }

  /** What a step of `a.v` must leave alone for the rows of the other nodes. */
  ghost predicate SameReign(s: Sys, s': Sys) {
    && s'.reigning == s.reigning && s'.reignTerm == s.reignTerm && s'.startCommit == s.startCommit
    && s'.reigns == s.reigns && s'.commits == s.commits && s'.acked == s.acked
  }

  /** The rows of nodes that neither acted nor are spoken about. */
  lemma OtherRowsStay(s: Sys, a: Action, f: NodeId)
    requires Inv(s) && CanAct(s, a) && !a.Lose? && s.reigning.Some? && SysOk(Step(s, a))
    requires SameReign(s, Step(s, a))
    requires f < |s.nodes| && f != a.v && f != s.reigning.value
    requires var l, l' := s.nodes[s.reigning.value], Step(s, a).nodes[s.reigning.value];
             l'.nextIndex == l.nextIndex && l'.matchIndex == l.matchIndex
    requires forall m :: m in EffectOf(s, a).out ==> !Concerns(m, f)
    ensures FollowerOk(Step(s, a), f)
  {
    var s' := Step(s, a);
    assert FollowerOk(s, f);
    forall i | i in s'.live && i < |s'.net| && Concerns(s'.net[i], f)
      ensures i in s.live && i < |s.net| && s'.net[i] == s.net[i]
    {
      NewMessages(s, a, i);
    }
  }

  /** Acks go to the leader of the reign, so the outstanding messages stay the reign's own. */
  lemma AcksStayInReign(s: Sys, a: Action)
    requires Inv(s) && CanAct(s, a) && !a.Lose? && OrderlyDelivery(s, a) && s.reigning.Some?
    requires !s.nodes[a.v].loop.InLeader? && !EffectOf(s, a).node.loop.InLeader?
    ensures LiveOk(Step(s, a).net, Step(s, a).live, s.reigning.value, s.reignTerm)
    ensures forall m, f :: m in EffectOf(s, a).out && Concerns(m, f) ==> f == a.v && f != s.reigning.value
  {
    FollowerTurn(s.nodes[a.v], EventOf(s, a));
    assert a.Deliver? && s.net[a.position].IsReplication() ==> a.position in s.live;
    forall i | i in Step(s, a).live
      ensures LiveOk(Step(s, a).net, {i}, s.reigning.value, s.reignTerm)
    {
      NewMessages(s, a, i);
    }
  }

  /** A turn outside the leader loop, by a node of the reign or by its former leader. */
  lemma FollowerStep(s: Sys, a: Action)
    requires Inv(s) && Matching(s) && CanAct(s, a) && !a.Lose? && OrderlyDelivery(s, a) && s.reigning.Some?
    requires !s.nodes[a.v].loop.InLeader? && !EffectOf(s, a).node.loop.InLeader?
    ensures Inv(Step(s, a))
  {
    var n, ev, s' := s.nodes[a.v], EventOf(s, a), Step(s, a);
    StepKeepsSysOk(s, a);
    FollowerTurn(n, ev);
    AcksStayInReign(s, a);
    if a.v != s.reigning.value {
      FollowerKeepsRow(s, a);
    } else {
      M.TurnLogs(n, ev);
      assert a.Deliver? && ev.msg.IsReplication() ==> a.position in s.live;
      assert !M.Accepts(n, ev);
    }
    forall f | 0 <= f < |s.nodes| && f != s.reigning.value
      ensures FollowerOk(s', f)
    {
      if f != a.v {
        OtherRowsStay(s, a, f);
      }
    }
  }

  /** Before any reign there is nothing to replicate. */
  lemma EarlyStep(s: Sys, a: Action)
    requires Inv(s) && Matching(s) && CanAct(s, a) && !a.Lose? && OrderlyDelivery(s, a) && s.reigning.None?
    requires !EffectOf(s, a).node.loop.InLeader?
    ensures Inv(Step(s, a))
  {
    StepKeepsSysOk(s, a);
    FollowerTurn(s.nodes[a.v], EventOf(s, a));
    forall i | i in Step(s, a).live
      ensures false
    {
      NewMessages(s, a, i);
    }
  }

  /** The first appends of a reign start above everything committed. */
  lemma OpeningIsAbove(s: Sys, a: Action)
    requires Inv(s) && CanAct(s, a) && !a.Lose?
    requires !s.nodes[a.v].loop.InLeader? && EffectOf(s, a).node.loop.InLeader?
    ensures forall p :: p in s.commits ==> p <= EffectOf(s, a).node.log && |p| <= |s.nodes[a.v].log|
  {
    OpeningTurn(s.nodes[a.v], EventOf(s, a));
    forall p | p in s.commits
      ensures p <= EffectOf(s, a).node.log && |p| <= |s.nodes[a.v].log|
    {
      assert p <= s.nodes[a.v].log;
    }
  }

  lemma OpeningIsLive(s: Sys, a: Action)
    requires CanAct(s, a) && OrderlyDelivery(s, a) && !a.Lose?
    requires !s.nodes[a.v].loop.InLeader? && EffectOf(s, a).node.loop.InLeader?
    ensures var n, s' := s.nodes[a.v], Step(s, a);
            && LiveOk(s'.net, s'.live, a.v, n.term)
            && forall i :: i in s'.live ==> s'.net[i].AppendEntries? && s'.net[i].prevIndex == |n.log| - 1
  {
    var n, s' := s.nodes[a.v], Step(s, a);
    OpeningTurn(n, EventOf(s, a));
    assert s.live == {};
    forall i | i in s'.live
      ensures LiveOk(s'.net, {i}, a.v, n.term) && s'.net[i].AppendEntries? && s'.net[i].prevIndex == |n.log| - 1
    {
      NewMessages(s, a, i);
    }
  }

  lemma OpeningKeepsFollower(s: Sys, a: Action, f: NodeId)
    requires Inv(s) && CanAct(s, a) && !a.Lose? && OrderlyDelivery(s, a) && SysOk(Step(s, a))
    requires !s.nodes[a.v].loop.InLeader? && EffectOf(s, a).node.loop.InLeader?
    requires f < |s.nodes| && f != a.v
    ensures var s' := Step(s, a); s'.reigning == Some(a.v) && s'.reignTerm in s'.reigns && FollowerOk(s', f)
  {
    OpeningTurn(s.nodes[a.v], EventOf(s, a));
    OpeningIsLive(s, a);
    OpeningIsAbove(s, a);
  }

  /**
   * A reign opens on drained channels: the rows say nothing yet, except that the appends start
   * above all commits.
   */
  lemma OpeningStep(s: Sys, a: Action)
    requires Inv(s) && CanAct(s, a) && !a.Lose? && OrderlyDelivery(s, a)
    requires !s.nodes[a.v].loop.InLeader? && EffectOf(s, a).node.loop.InLeader?
    ensures Inv(Step(s, a))
  {
    var s' := Step(s, a);
    StepKeepsSysOk(s, a);
    OpeningTurn(s.nodes[a.v], EventOf(s, a));
    OpeningIsLive(s, a);
    OpeningIsAbove(s, a);
    forall f | 0 <= f < |s.nodes| && f != a.v
      ensures FollowerOk(s', f)
    {
      OpeningKeepsFollower(s, a, f);
    }
  }

  /** A leader of the latest reign is about to act. */
  ghost predicate LeaderActs(s: Sys, a: Action) {
    && Inv(s) && Matching(s) && CanAct(s, a) && !a.Lose? && s.nodes[a.v].loop.InLeader?
  }

  /** In its reign the recorded log is the leader's own. */
  lemma LeaderOwnsReign(s: Sys, a: Action)
    requires LeaderActs(s, a)
    ensures s.reigning == Some(a.v) && s.nodes[a.v].term == s.reignTerm
    ensures s.reigns[s.reignTerm] == s.nodes[a.v].log
    ensures s.nodes[a.v].commitIndex >= s.startCommit
  {
  }

  lemma OtherLeaderStep(s: Sys, a: Action)
    requires LeaderActs(s, a)
    requires var n, ev := s.nodes[a.v], EventOf(s, a);
             M.Appended(n, ev).None? && !ev.Resend? && !(ev.Receive? && ev.msg.Ack?)
    ensures Inv(Step(s, a))
  {
    var s' := Step(s, a);
    StepKeepsSysOk(s, a);
    LeaderOwnsReign(s, a);
    OtherTurn(s.nodes[a.v], EventOf(s, a));
    forall i | i in s'.live
      ensures i in s.live && i < |s.net|
    {
      NewMessages(s, a, i);
    }
    assert s'.reigns == s.reigns;
    forall f | 0 <= f < |s.nodes| && f != a.v
      ensures FollowerOk(s', f)
    {
      assert FollowerOk(s, f);
    }
  }

  lemma ResendStep(s: Sys, a: Action)
    requires LeaderActs(s, a) && EventOf(s, a).Resend?
    ensures Inv(Step(s, a))
  {
    var s' := Step(s, a);
    StepKeepsSysOk(s, a);
    LeaderOwnsReign(s, a);
    assert s'.reigns == s.reigns;
    forall i | i in s'.live
      ensures LiveOk(s'.net, {i}, a.v, s.reignTerm)
    {
      NewMessages(s, a, i);
    }
    forall f | 0 <= f < |s.nodes| && f != a.v
      ensures FollowerOk(s', f)
    {
      assert FollowerOk(s, f);
      forall i | i in s'.live && i < |s'.net| && Concerns(s'.net[i], f)
        ensures MsgTruth(ReignOf(s), RowOf(s.nodes[a.v], f, s.acked), s.nodes[f], s'.net[i])
      {
        NewMessages(s, a, i);
      }
    }
  }

  /** A new entry: whoever was up to date is sent it, from the end of everything committed. */
  lemma AppendKeepsRow(s: Sys, a: Action, f: NodeId)
    requires LeaderActs(s, a) && M.Appended(s.nodes[a.v], EventOf(s, a)).Some?
    requires f < |s.nodes| && f != a.v && SysOk(Step(s, a))
    ensures Step(s, a).reigning == Some(a.v) && s.reignTerm in Step(s, a).reigns && Step(s, a).reignTerm == s.reignTerm
    ensures FollowerOk(Step(s, a), f)
  {
    var n, ev, s' := s.nodes[a.v], EventOf(s, a), Step(s, a);
    var r, row := ReignOf(s), RowOf(s.nodes[a.v], f, s.acked);
    LeaderOwnsReign(s, a);
    AppendTurn(n, ev);
    assert FollowerOk(s, f);
    NewEntryKeepsRow(r, M.Appended(n, ev).value, row, s.nodes[f]);
    assert RowOf(s'.nodes[a.v], f, s'.acked) == Behind(r, row);
    forall i | i in s'.live && i < |s'.net| && Concerns(s'.net[i], f)
      ensures MsgTruth(ReignOf(s'), Behind(r, row), s.nodes[f], s'.net[i])
    {
      NewMessages(s, a, i);
      if i in s.live {
        assert MsgTruth(r, row, s.nodes[f], s.net[i]);
      }
    }
  }

  lemma AppendStep(s: Sys, a: Action)
    requires LeaderActs(s, a) && M.Appended(s.nodes[a.v], EventOf(s, a)).Some?
    ensures Inv(Step(s, a))
  {
    var n, ev, s' := s.nodes[a.v], EventOf(s, a), Step(s, a);
    StepKeepsSysOk(s, a);
    LeaderOwnsReign(s, a);
    AppendTurn(n, ev);
    forall i | i in s'.live
      ensures LiveOk(s'.net, {i}, a.v, s.reignTerm)
    {
      NewMessages(s, a, i);
    }
    forall p | p in s.commits
      ensures p <= s'.nodes[a.v].log
    {
      assert p <= n.log;
    }
    forall f | 0 <= f < |s.nodes| && f != a.v
      ensures FollowerOk(s', f)
    {
      AppendKeepsRow(s, a, f);
    }
  }

  // ---- acknowledgements ----

  /** The step delivers to the leader the answer of a follower that is behind. */
  ghost predicate AnswerArrives(s: Sys, a: Action) {
    && LeaderActs(s, a) && OrderlyDelivery(s, a)
    && a.Deliver? && s.net[a.position].Ack?
    && s.nodes[a.v].nextIndex[s.net[a.position].sender].Some?
  }

  /** The leader's tables after the answer, before the scan. */
  function Moved(s: Sys, a: Action): Effect
    requires AnswerArrives(s, a)
  {
    UpdateProgress(s.nodes[a.v], s.net[a.position].sender, s.net[a.position].success)
  }

  /** The answer moves the sender's row and touches no other. */
  lemma AnswerMovesRow(s: Sys, a: Action, f: NodeId)
    requires AnswerArrives(s, a) && f < |s.nodes| && f != a.v && s.reignTerm in s.reigns
    requires s.reigns[s.reignTerm] == s.nodes[a.v].log
    ensures var m, row := s.net[a.position], RowOf(s.nodes[a.v], f, s.acked);
            RowOf(Moved(s, a).node, f, Step(s, a).acked) ==
            if f == m.sender then RowAfter(ReignOf(s), row, m.success) else row
  {
  }

  lemma AnswerKeepsTruth(s: Sys, a: Action, f: NodeId)
    requires AnswerArrives(s, a) && f < |s.nodes| && f != a.v
    ensures s.reignTerm in s.reigns
    ensures RowOk(ReignOf(s), RowOf(Moved(s, a).node, f, Step(s, a).acked), s.nodes[f])
  {
    var m := s.net[a.position];
    LeaderOwnsReign(s, a);
    AnswerMovesRow(s, a, f);
    assert FollowerOk(s, f);
    if f == m.sender {
      assert a.position in s.live && Concerns(m, f);
      AnswerKeepsRow(ReignOf(s), RowOf(s.nodes[a.v], f, s.acked), s.nodes[f], m);
    }
  }

  /** What the scan then does: nothing, or commit an index that every row has really matched. */
  lemma ScanAfterAnswer(s: Sys, a: Action)
    requires AnswerArrives(s, a)
    ensures var n, moved, n' := s.nodes[a.v], Moved(s, a).node, EffectOf(s, a).node;
            && n'.log == n.log && n'.term == n.term && n'.loop.InLeader?
            && n'.nextIndex == moved.nextIndex && n'.matchIndex == moved.matchIndex
            && n'.commitIndex >= n.commitIndex
            && (n'.commitIndex > n.commitIndex ==>
                  && n'.commitIndex < |n.log|
                  && forall f :: 0 <= f < n.size ==> n'.commitIndex <= moved.matchIndex[f])
    ensures forall m :: m in EffectOf(s, a).out && m.IsReplication() ==> m in Moved(s, a).out
  {
    var n, moved := s.nodes[a.v], Moved(s, a);
    var best := MinOf(moved.node.matchIndex);
    assert best <= moved.node.matchIndex[a.v];
    assert EffectOf(s, a) == LeaderAck(n, s.net[a.position].sender, s.net[a.position].success);
  }

  /** The reign after an answer: its leader, term and log stay. */
  lemma AnswerKeepsReign(s: Sys, a: Action)
    requires AnswerArrives(s, a) && SysOk(Step(s, a))
    ensures var s' := Step(s, a);
            && s'.reigning == Some(a.v) && s'.reigns == s.reigns && s'.reignTerm == s.reignTerm
            && s.reignTerm in s.reigns && s'.startCommit == s.startCommit
            && s'.nodes[a.v].nextIndex == Moved(s, a).node.nextIndex
            && s'.nodes[a.v].matchIndex == Moved(s, a).node.matchIndex
  {
    LeaderOwnsReign(s, a);
    ScanAfterAnswer(s, a);
    assert Step(s, a).reigns == s.reigns;
  }

  /** The reign as the scan leaves it. */
  lemma AnswerReign(s: Sys, a: Action)
    requires AnswerArrives(s, a) && SysOk(Step(s, a))
    ensures var n, s' := s.nodes[a.v], Step(s, a);
            var c := s'.nodes[a.v].commitIndex;
            && s.reignTerm in s.reigns && s'.reignTerm in s'.reigns && c >= n.commitIndex >= s.startCommit
            && (c > n.commitIndex ==> c < |n.log| && ReignOf(s).log == n.log)
            && ReignOf(s') ==
               if c > n.commitIndex then ReignOf(s).(commits := s.commits + {n.log[..c + 1]}) else ReignOf(s)
  {
    LeaderOwnsReign(s, a);
    ScanAfterAnswer(s, a);
    AnswerKeepsReign(s, a);
  }

  /** What the scan commits is on the follower, and the row stays true of it. */
  lemma AnswerKeepsFollowerRow(s: Sys, a: Action, f: NodeId)
    requires AnswerArrives(s, a) && f < |s.nodes| && f != a.v && SysOk(Step(s, a))
    ensures var s', c := Step(s, a), Step(s, a).nodes[a.v].commitIndex;
            && s'.reignTerm in s'.reigns
            && RowOk(ReignOf(s'), RowOf(s'.nodes[a.v], f, s'.acked), s.nodes[f])
            && (c > s.nodes[a.v].commitIndex ==>
                  c < |s.nodes[a.v].log| && s.nodes[a.v].log[..c + 1] <= s.nodes[f].log)
  {
    var s' := Step(s, a);
    AnswerReign(s, a);
    AnswerKeepsTruth(s, a, f);
    ScanAfterAnswer(s, a);
    AnswerKeepsReign(s, a);
    var c, row := s'.nodes[a.v].commitIndex, RowOf(s'.nodes[a.v], f, s'.acked);
    if c > s.nodes[a.v].commitIndex {
      CommitKeepsRow(ReignOf(s), row, s.nodes[f], c);
    }
  }

  /** The next append to the sender is the only message about it; the others' stay. */
  lemma AnswerKeepsFollower(s: Sys, a: Action, f: NodeId)
    requires AnswerArrives(s, a) && f < |s.nodes| && f != a.v && SysOk(Step(s, a))
    ensures var s', c := Step(s, a), EffectOf(s, a).node.commitIndex;
            && s'.reigning == Some(a.v) && s'.reignTerm in s'.reigns
            && FollowerOk(s', f)
            && (c > s.nodes[a.v].commitIndex ==>
                  c < |s.nodes[a.v].log| && s.nodes[a.v].log[..c + 1] <= s.nodes[f].log)
  {
    var s' := Step(s, a);
    LeaderOwnsReign(s, a);
    AnswerKeepsReign(s, a);
    AnswerKeepsFollowerRow(s, a, f);
    assert FollowerOk(s, f);
    forall i | i in s'.live && i < |s'.net| && Concerns(s'.net[i], f)
      ensures MsgTruth(ReignOf(s'), RowOf(s'.nodes[a.v], f, s'.acked), s.nodes[f], s'.net[i])
    {
      AnswerKeepsMessage(s, a, f, i);
    }
  }

  lemma AnswerKeepsMessage(s: Sys, a: Action, f: NodeId, i: nat)
    requires AnswerArrives(s, a) && f < |s.nodes| && f != a.v && SysOk(Step(s, a))
    requires i in Step(s, a).live && i < |Step(s, a).net| && Concerns(Step(s, a).net[i], f)
    ensures var s' := Step(s, a);
            && s'.reignTerm in s'.reigns
            && MsgTruth(ReignOf(s'), RowOf(s'.nodes[a.v], f, s'.acked), s.nodes[f], s'.net[i])
  {
    LeaderOwnsReign(s, a);
    AnswerKeepsReign(s, a);
    AnswerMovesRow(s, a, f);
    ScanAfterAnswer(s, a);
    NewMessages(s, a, i);
    if i in s.live {
      assert FollowerOk(s, f);
      assert f != s.net[a.position].sender;
    }
  }

  lemma AnswerKeepsLive(s: Sys, a: Action)
    requires AnswerArrives(s, a)
    ensures LiveOk(Step(s, a).net, Step(s, a).live, a.v, s.reignTerm)
  {
    LeaderOwnsReign(s, a);
    ScanAfterAnswer(s, a);
    forall i | i in Step(s, a).live
      ensures LiveOk(Step(s, a).net, {i}, a.v, s.reignTerm)
    {
      NewMessages(s, a, i);
    }
  }

  lemma AnswerStep(s: Sys, a: Action)
    requires AnswerArrives(s, a)
    ensures Inv(Step(s, a))
  {
    var s', n := Step(s, a), s.nodes[a.v];
    StepKeepsSysOk(s, a);
    LeaderOwnsReign(s, a);
    AnswerKeepsReign(s, a);
    AnswerKeepsLive(s, a);
    ScanAfterAnswer(s, a);
    forall f | 0 <= f < |s.nodes| && f != a.v
      ensures FollowerOk(s', f)
      ensures forall p :: p in s'.commits ==> p <= s'.nodes[f].log
    {
      AnswerKeepsFollower(s, a, f);
    }
  }

  /** An answer to a row that is up to date (as the leader's own always is) is dropped. */
  lemma DroppedAnswerStep(s: Sys, a: Action)
    requires LeaderActs(s, a) && a.Deliver? && s.net[a.position].Ack?
    requires s.nodes[a.v].nextIndex[s.net[a.position].sender].None?
    ensures Inv(Step(s, a))
  {
    var s' := Step(s, a);
    StepKeepsSysOk(s, a);
    LeaderOwnsReign(s, a);
    assert EffectOf(s, a) == Effect(s.nodes[a.v], []);
    assert s'.reigns == s.reigns;
    forall i | i in s'.live
      ensures i in s.live && i < |s.net|
    {
      NewMessages(s, a, i);
    }
    forall f | 0 <= f < |s.nodes| && f != a.v
      ensures FollowerOk(s', f)
    {
      assert FollowerOk(s, f);
    }
  }

  // ---- the theorem ----

  lemma StepKeepsInv(s: Sys, a: Action)
    requires Inv(s) && Matching(s) && CanAct(s, a) && OrderlyDelivery(s, a)
    ensures Inv(Step(s, a))
  {
    if a.Lose? {
      LoseKeepsInv(s, a);
      return;
    }
    var n, ev := s.nodes[a.v], EventOf(s, a);
    if !n.loop.InLeader? {
      if EffectOf(s, a).node.loop.InLeader? {
        OpeningStep(s, a);
      } else if s.reigning.Some? {
        FollowerStep(s, a);
      } else {
        EarlyStep(s, a);
      }
    } else if M.Appended(n, ev).Some? {
      AppendStep(s, a);
    } else if ev.Resend? {
      ResendStep(s, a);
    } else if !(ev.Receive? && ev.msg.Ack?) {
      OtherLeaderStep(s, a);
    } else if n.nextIndex[ev.msg.sender].Some? {
      AnswerStep(s, a);
    } else {
      DroppedAnswerStep(s, a);
    }
  }

  ghost predicate OrderlyRun(states: seq<Sys>, actions: seq<Action>) {
    && IsRun(states, actions)
    && forall k :: 0 <= k < |actions| ==> Moves(states[k], actions[k], states[k + 1]) && Orderly(states[k], actions[k])
  }

  /** An orderly run meets the assumptions of election safety and of Log Matching. */
  lemma OrderlyRunMatches(states: seq<Sys>, actions: seq<Action>, k: nat)
    requires OrderlyRun(states, actions) && k <= |actions|
    ensures E.Inv(states[k]) && M.Inv(states[k])
  {
    forall i | 0 <= i < |actions|
      ensures Moves(states[i], actions[i], states[i + 1]) &&
              NoStaleVote(states[i], actions[i]) && OwnTermStamp(states[i], actions[i])
    {
      assert Moves(states[i], actions[i], states[i + 1]) && Orderly(states[i], actions[i]);
    }
    E.NoTermHasTwoLeaders(states, actions, k);
    M.AllLogsMatch(states, actions, k);
  }

  lemma NothingCommittedYet(size: nat)
    ensures Inv(Init(size))
  {
  }

  lemma OrderlyStart(states: seq<Sys>, actions: seq<Action>)
    requires OrderlyRun(states, actions)
    ensures Inv(states[0])
  {
    var size: nat :| states[0] == Init(size);
    NothingCommittedYet(size);
  }

  lemma OrderlyMove(states: seq<Sys>, actions: seq<Action>, k: nat)
    requires OrderlyRun(states, actions) && k < |actions| && Inv(states[k])
    ensures Inv(states[k + 1])
  {
    OrderlyRunMatches(states, actions, k);
    MatchingHolds(states[k]);
    assert Moves(states[k], actions[k], states[k + 1]);
    StepKeepsInv(states[k], actions[k]);
  }

  lemma {:induction false} OrderlyRunKeepsInv(states: seq<Sys>, actions: seq<Action>, k: nat)
    requires OrderlyRun(states, actions) && k <= |actions|
    ensures Inv(states[k])
  {
    if k > 0 {
      OrderlyRunKeepsInv(states, actions, k - 1);
      OrderlyMove(states, actions, k - 1);
    } else {
      OrderlyStart(states, actions);
    }
  }

  lemma {:induction false} CommitsOnlyGrow(states: seq<Sys>, actions: seq<Action>, j: nat, k: nat)
    requires IsRun(states, actions) && j <= k <= |actions|
    ensures states[j].commits <= states[k].commits && |states[j].nodes| == |states[k].nodes|
  {
    if j < k {
      CommitsOnlyGrow(states, actions, j, k - 1);
      assert Moves(states[k - 1], actions[k - 1], states[k]);
    }
  }

  /**
   * Committed entries are never lost: once a leader's scan has moved its commit index to `c`, in
   * that state and in every later one every node's log begins with the leader's entries 0..c.
   */
  lemma CommittedForever(states: seq<Sys>, actions: seq<Action>, j: nat, k: nat, v: NodeId)
    requires OrderlyRun(states, actions) && j < k <= |actions|
    requires !actions[j].Lose? && actions[j].v < |states[j].nodes| && v < |states[j].nodes|
    requires states[j].nodes[actions[j].v].loop.InLeader? && states[j + 1].nodes[actions[j].v].loop.InLeader?
    requires states[j + 1].nodes[actions[j].v].commitIndex > states[j].nodes[actions[j].v].commitIndex
    ensures var leader := states[j + 1].nodes[actions[j].v];
            && leader.commitIndex < |leader.log|
            && v < |states[k].nodes|
            && leader.log[..leader.commitIndex + 1] <= states[k].nodes[v].log
  {
    assert Moves(states[j], actions[j], states[j + 1]);
    ReignGrows(states[j].nodes[actions[j].v], EventOf(states[j], actions[j]));
    CommitsOnlyGrow(states, actions, j, k);
    CommitsOnlyGrow(states, actions, j + 1, k);
    OrderlyRunKeepsInv(states, actions, k);
  }

  /**
   * Truthful bookkeeping: in every state of an orderly run, the match index of a follower that has
   * acked in this reign tells the truth: its log agrees with the leader's through it. Before the
   * first success the match index is the commit index that the reign began with (raft.py:382).
   */
  lemma MatchIsTrue(states: seq<Sys>, actions: seq<Action>, k: nat, v: NodeId, f: NodeId)
    requires OrderlyRun(states, actions) && k <= |actions|
    requires v < |states[k].nodes| && f < |states[k].nodes| && v != f
    requires states[k].nodes[v].loop.InLeader?
    ensures NodeOk(states[k].nodes[v]) && states[k].nodes[v].size == |states[k].nodes|
    ensures var l, n, s := states[k].nodes[v], states[k].nodes[f], states[k];
            if f in s.acked then l.matchIndex[f] < |l.log| && l.log[..l.matchIndex[f] + 1] <= n.log
            else l.matchIndex[f] == s.startCommit
  {
    OrderlyRunKeepsInv(states, actions, k);
    OrderlyRunMatches(states, actions, k);
    assert FollowerOk(states[k], f);
  }
}
