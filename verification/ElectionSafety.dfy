/**
 * Election safety (section 5.2 of the Raft paper) for the code's way of counting votes
 * (raft.py:308-319): no term ever has two leaders, provided a vote response is tallied once and
 * only in its own term.
 */
module ElectionSafety {
  import opened RaftTypes
  import opened RaftSpec
  import opened RaftSystem
  import opened SetSizes
  import D = VoteDiscipline

  predicate IsGrantTo(net: seq<Msg>, i: nat, c: NodeId, t: nat) {
    i < |net| && net[i].Vote? && net[i].granted && net[i].receiver == c && net[i].term == t
  }

  /** Whose votes `c` has tallied in term `t`. */
  function Voters(net: seq<Msg>, counted: set<nat>, c: NodeId, t: nat): set<NodeId> {
    set i | i in counted && IsGrantTo(net, i, c, t) :: net[i].sender
  }

  ghost predicate HasQuorum(s: Sys, c: NodeId, t: nat) {
    |s.nodes| == 1 || 2 * |Voters(s.net, s.counted, c, t)| > |s.nodes|
  }

  /** What is known of the winner `v` of term `t`. */
  ghost predicate WinnerOk(s: Sys, v: NodeId, t: nat) {
    && v < |s.nodes|
    && t <= s.nodes[v].term
    && HasQuorum(s, v, t)
    && D.GrantsOnce(s.net, v, t)
    && (s.nodes[v].term == t ==> s.nodes[v].votedFor.Some? && !s.nodes[v].loop.InCandidate?)
  }

  ghost predicate NodeElected(s: Sys, v: NodeId)
    requires v < |s.nodes|
  {
    var n := s.nodes[v];
    && (n.loop.InCandidate? ==> n.loop.votesForMe <= |Voters(s.net, s.counted, v, n.term)|)
    && (n.loop.InLeader? || n.role.Leader? ==> (n.term, v) in s.elected)
    && (n.role.Leader? ==> !n.loop.InFollower? && !n.loop.InCandidate?)
  }

  ghost predicate Inv(s: Sys) {
    && D.Inv(s)
    && (forall i :: i in s.counted ==> i < |s.net|)
    && (forall v :: 0 <= v < |s.nodes| ==> NodeElected(s, v))
    && (forall t, v :: (t, v) in s.elected ==> WinnerOk(s, v, t))
    && OneLeaderPerTerm(s)
  }

  // ---- counting ----

  /** Two majorities of the same cluster share a node. */
  lemma QuorumsMeet(a: set<NodeId>, b: set<NodeId>, size: nat) returns (v: NodeId)
    requires forall x :: x in a || x in b ==> x < size
    requires 2 * |a| > size && 2 * |b| > size
    ensures v in a && v in b
  {
    assert a * b == {} ==> |a + b| == |a| + |b|;
    SubsetSize(a + b, NodesBelow(size));
    v :| v in a * b;
  }

  lemma VotersAreNodes(s: Sys, c: NodeId, t: nat)
    requires SysOk(s)
    ensures forall x :: x in Voters(s.net, s.counted, c, t) ==> x < |s.nodes|
  {
    forall i | i in s.counted && IsGrantTo(s.net, i, c, t)
      ensures s.net[i].sender < |s.nodes|
    {
      assert MsgOk(s.net[i], |s.nodes|);
    }
  }

  /** Tallies only gain voters. */
  lemma VotersGrow(net: seq<Msg>, out: seq<Msg>, counted: set<nat>, counted': set<nat>, c: NodeId, t: nat)
    requires counted <= counted'
    ensures |Voters(net, counted, c, t)| <= |Voters(net + out, counted', c, t)|
  {
    forall x | x in Voters(net, counted, c, t)
      ensures x in Voters(net + out, counted', c, t)
    {
      var i :| i in counted && IsGrantTo(net, i, c, t) && net[i].sender == x;
      assert IsGrantTo(net + out, i, c, t) && (net + out)[i].sender == x;
    }
    SubsetSize(Voters(net, counted, c, t), Voters(net + out, counted', c, t));
  }

  /** A candidate never tallies two votes of the same node in its term. */
  lemma VotersAreFresh(s: Sys, c: NodeId, i: nat)
    requires Inv(s) && c < |s.nodes| && s.nodes[c].loop.InCandidate?
    requires i !in s.counted && IsGrantTo(s.net, i, c, s.nodes[c].term)
    ensures s.net[i].sender !in Voters(s.net, s.counted, c, s.nodes[c].term)
  {
    var t, w := s.nodes[c].term, s.net[i].sender;
    assert D.IsGrant(s.net, i, w, t);
    assert D.Disciplined(s.net, w, t) && D.NodeVotes(s.nodes[c], s.net);
    forall j | j in s.counted && IsGrantTo(s.net, j, c, t)
      ensures s.net[j].sender != w
    {
      assert D.IsGrant(s.net, j, s.net[j].sender, t);
    }
  }

  lemma TallyGrows(s: Sys, c: NodeId, i: nat)
    requires Inv(s) && c < |s.nodes| && s.nodes[c].loop.InCandidate?
    requires i !in s.counted && IsGrantTo(s.net, i, c, s.nodes[c].term)
    ensures |Voters(s.net, s.counted + {i}, c, s.nodes[c].term)| == |Voters(s.net, s.counted, c, s.nodes[c].term)| + 1
  {
    VotersAreFresh(s, c, i);
    var t := s.nodes[c].term;
    assert Voters(s.net, s.counted + {i}, c, t) == Voters(s.net, s.counted, c, t) + {s.net[i].sender};
  }

  // ---- one turn ----

  /** How a turn moves the tally, and what a victory takes. */
  ghost predicate TallyOf(n: Node, ev: Event, n': Node) {
    && (n'.loop.InCandidate? ==>
          || n'.loop.votesForMe == 0
          || (n.loop.InCandidate? && n'.term == n.term && n'.loop.votesForMe == n.loop.votesForMe)
          || (n.loop.InCandidate? && n'.term == n.term && ev.Receive? && ev.msg.Vote? && ev.msg.granted
              && n'.loop.votesForMe == n.loop.votesForMe + 1))
    && (Wins(n, n') && !n.role.Leader? ==>
          && n'.term == n.term && n'.votedFor == n.votedFor && ev.Receive? && ev.msg.Vote?
          && (n.size == 1 || n.loop.votesForMe + (if ev.msg.granted then 1 else 0) > n.size / 2))
    && (n'.role.Leader? && !n.role.Leader? ==> Wins(n, n'))
    && (n'.role.Leader? && n.role.Leader? && n.loop.Idle? ==> n'.loop.Idle? || n'.loop.InLeader?)
    && (n'.role.Leader? && (n.role.Leader? ==> !n.loop.InFollower? && !n.loop.InCandidate?) ==> n'.term == n.term)
    && (n'.role.Leader? && n.loop.Crashed? ==> n'.loop.Crashed?)
    && (n'.loop.InLeader? ==> n'.term == n.term)
    && (n'.loop.InLeader? ==> n.loop.InLeader? || n.role.Leader?)
    && (n.role.Leader? && n.loop.InLeader? && n'.role.Leader? ==> !n'.loop.InFollower? && !n'.loop.InCandidate?)
  }

  lemma FollowerTallies(n: Node, m: Msg)
    requires NodeOk(n) && n.loop.InFollower?
    ensures TallyOf(n, Receive(m), FollowerMessage(n, m).node)
  {
  }

  lemma CandidateTallies(n: Node, m: Msg)
    requires NodeOk(n) && n.loop.InCandidate?
    ensures TallyOf(n, Receive(m), CandidateMessage(n, m).node)
  {
  }

  lemma LeaderTallies(n: Node, m: Msg)
    requires NodeOk(n) && n.loop.InLeader?
    ensures TallyOf(n, Receive(m), LeaderMessage(n, m).node)
  {
  }

  lemma TurnTallies(n: Node, ev: Event)
    requires NodeOk(n) && Enabled(n, ev)
    ensures TallyOf(n, ev, Act(n, ev).node)
  {
    match ev
    case Receive(m) =>
      if n.loop.InFollower? {
        FollowerTallies(n, m);
      } else if n.loop.InCandidate? {
        CandidateTallies(n, m);
      } else {
        LeaderTallies(n, m);
      }
    case _ =>
  }

  // ---- the invariant ----

  /** The actor's tally keeps up with its voters. */
  lemma StepKeepsTally(s: Sys, a: Action)
    requires Inv(s) && CanAct(s, a) && !a.Lose? && NoStaleVote(s, a)
    ensures var s' := Step(s, a); var n' := s'.nodes[a.v];
            n'.loop.InCandidate? ==> n'.loop.votesForMe <= |Voters(s'.net, s'.counted, a.v, n'.term)|
  {
    var n, ev, s' := s.nodes[a.v], EventOf(s, a), Step(s, a);
    assert NodeElected(s, a.v);
    TurnTallies(n, ev);
    VotersGrow(s.net, EffectOf(s, a).out, s'.counted, s'.counted, a.v, n.term);
    if Counts(s, a) && s.net[a.position].granted {
      TallyGrows(s, a.v, a.position);
    }
    VotersGrow(s.net, EffectOf(s, a).out, s.counted, s'.counted, a.v, n.term);
  }

  /** A victory is backed by a majority of distinct voters. */
  lemma VictoryHasQuorum(s: Sys, a: Action)
    requires Inv(s) && CanAct(s, a) && !a.Lose? && NoStaleVote(s, a)
    requires Wins(s.nodes[a.v], EffectOf(s, a).node)
    ensures HasQuorum(Step(s, a), a.v, s.nodes[a.v].term)
  {
    var n, ev, s' := s.nodes[a.v], EventOf(s, a), Step(s, a);
    assert NodeElected(s, a.v);
    TurnTallies(n, ev);
    VotersGrow(s.net, EffectOf(s, a).out, s'.counted, s'.counted, a.v, n.term);
    if Counts(s, a) && s.net[a.position].granted {
      TallyGrows(s, a.v, a.position);
    }
    VotersGrow(s.net, EffectOf(s, a).out, s.counted, s'.counted, a.v, n.term);
  }

  /**
   * The heart of the proof: two winners of one term share a voter, whose earlier vote of the two
   * went to itself; but a winner, and a candidate, has granted only once.
   */
  lemma WinnersAgree(s: Sys, v: NodeId, w: NodeId, t: nat)
    requires SysOk(s) && |s.nodes| > 0
    requires forall x :: D.Disciplined(s.net, x, t)
    requires v < |s.nodes| && w < |s.nodes|
    requires HasQuorum(s, v, t) && D.GrantsOnce(s.net, v, t)
    requires HasQuorum(s, w, t) && D.GrantsOnce(s.net, w, t)
    ensures v == w
  {
    if |s.nodes| > 1 {
      VotersAreNodes(s, v, t);
      VotersAreNodes(s, w, t);
      var x := QuorumsMeet(Voters(s.net, s.counted, v, t), Voters(s.net, s.counted, w, t), |s.nodes|);
      var i :| i in s.counted && IsGrantTo(s.net, i, v, t) && s.net[i].sender == x;
      var j :| j in s.counted && IsGrantTo(s.net, j, w, t) && s.net[j].sender == x;
      assert D.IsGrant(s.net, i, x, t) && D.IsGrant(s.net, j, x, t);
      assert D.Disciplined(s.net, x, t);
    }
  }

  /** What was known of a winner stays known. */
  lemma StepKeepsWinner(s: Sys, a: Action, v: NodeId, t: nat)
    requires Inv(s) && CanAct(s, a) && !a.Lose? && (t, v) in s.elected
    ensures WinnerOk(Step(s, a), v, t)
  {
    var n, ev, e := s.nodes[a.v], EventOf(s, a), EffectOf(s, a);
    assert WinnerOk(s, v, t);
    VotersGrow(s.net, e.out, s.counted, Step(s, a).counted, v, t);
    D.TurnVotes(n, ev);
    D.NetGrows(s.net, e.out);
    if v != a.v {
      D.OthersKeepQuiet(s, a, v);
    }
  }

  lemma NewWinner(s: Sys, a: Action)
    requires Inv(s) && CanAct(s, a) && !a.Lose? && NoStaleVote(s, a)
    requires Wins(s.nodes[a.v], EffectOf(s, a).node)
    ensures WinnerOk(Step(s, a), a.v, EffectOf(s, a).node.term)
  {
    var n, ev, e := s.nodes[a.v], EventOf(s, a), EffectOf(s, a);
    assert D.NodeVotes(n, s.net) && NodeElected(s, a.v);
    TurnTallies(n, ev);
    VictoryHasQuorum(s, a);
    D.TurnVotes(n, ev);
    D.NetGrows(s.net, e.out);
  }

  lemma StepKeepsInv(s: Sys, a: Action)
    requires Inv(s) && CanAct(s, a) && NoStaleVote(s, a)
    ensures Inv(Step(s, a))
  {
    D.StepKeepsInv(s, a);
    if !a.Lose? {
      var s' := Step(s, a);
      TurnTallies(s.nodes[a.v], EventOf(s, a));
      forall v | 0 <= v < |s.nodes|
        ensures NodeElected(s', v)
      {
        assert NodeElected(s, v);
        if v == a.v {
          StepKeepsTally(s, a);
        } else {
          VotersGrow(s.net, EffectOf(s, a).out, s.counted, s'.counted, v, s.nodes[v].term);
        }
      }
      forall t, v | (t, v) in s'.elected
        ensures WinnerOk(s', v, t)
      {
        if (t, v) in s.elected {
          StepKeepsWinner(s, a, v, t);
        } else {
          NewWinner(s, a);
        }
      }
      forall t, v, w | (t, v) in s'.elected && (t, w) in s'.elected
        ensures v == w
      {
        assert WinnerOk(s', v, t) && WinnerOk(s', w, t);
        WinnersAgree(s', v, w, t);
      }
    } else {
      var s' := Step(s, a);
      assert forall v :: 0 <= v < |s.nodes| ==> NodeElected(s, v) ==> NodeElected(s', v);
      assert forall t, v :: (t, v) in s.elected ==> WinnerOk(s, v, t) ==> WinnerOk(s', v, t);
    }
  }

  predicate Leads(s: Sys, v: NodeId) {
    v < |s.nodes| && s.nodes[v].loop.InLeader?
  }

  ghost predicate NoStaleVotes(states: seq<Sys>, actions: seq<Action>) {
    IsRun(states, actions) &&
    forall k :: 0 <= k < |actions| ==> Moves(states[k], actions[k], states[k + 1]) && NoStaleVote(states[k], actions[k])
  }

  /**
   * Election safety: whatever is lost, reordered, repeated or delayed, and whoever pauses, no term
   * has two leaders; and whoever is in the leader loop was elected in its term.
   */
  lemma {:induction false} NoTermHasTwoLeaders(states: seq<Sys>, actions: seq<Action>, k: nat)
    requires NoStaleVotes(states, actions) && k <= |actions|
    ensures Inv(states[k])
    ensures OneLeaderPerTerm(states[k])
    ensures forall v: NodeId, w: NodeId :: Leads(states[k], v) && Leads(states[k], w) ==>
              states[k].nodes[v].term == states[k].nodes[w].term ==> v == w
  {
    if k > 0 {
      NoTermHasTwoLeaders(states, actions, k - 1);
      assert Moves(states[k - 1], actions[k - 1], states[k]);
      StepKeepsInv(states[k - 1], actions[k - 1]);
    }
    forall v: NodeId | Leads(states[k], v)
      ensures (states[k].nodes[v].term, v) in states[k].elected
    {
      assert NodeElected(states[k], v);
    }
  }
}
