/**
 * What elections compare and count, over whole runs (raft.py:206-219, 284-319): a follower's vote goes by
 * the commit index of the candidate as it began its campaign, and a campaign is won by the very vote that
 * makes the grants counted in it more than half.
 */
module ElectionRule {
  import opened RaftTypes
  import opened RaftSpec
  import opened RaftLocal
  import opened RaftSystem
  import opened RaftTurns
  import D = VoteDiscipline

  // ---- what a request tells ----

  /** The index that a vote compares is the commit index. */
  predicate AppliedIsCommitted(n: Node) {
    n.lastAppliedIndex == n.commitIndex
  }

  lemma TurnKeepsApplied(n: Node, ev: Event)
    requires NodeOk(n) && Enabled(n, ev) && AppliedIsCommitted(n)
    ensures AppliedIsCommitted(Act(n, ev).node)
  {
    if n.loop.InLeader? && ev.Receive? && ev.msg.Ack? {
      if TakesAck(n, ev.msg) {
        AckCommitsIff(n, ev.msg);
      } else {
        OtherAcks(n, ev.msg);
      }
    }
  }

  lemma {:induction false} RunKeepsApplied(states: seq<Sys>, actions: seq<Action>, k: nat)
    requires IsRun(states, actions) && k <= |actions|
    ensures forall v :: 0 <= v < |states[k].nodes| ==> AppliedIsCommitted(states[k].nodes[v])
  {
    if k > 0 {
      RunKeepsApplied(states, actions, k - 1);
      var s, a := states[k - 1], actions[k - 1];
      assert Moves(s, a, states[k]);
      if !a.Lose? {
        TurnKeepsApplied(s.nodes[a.v], EventOf(s, a));
      }
    }
  }

  /** At step `j` the sender of the request opens the campaign of its term, and tells what it has committed. */
  ghost predicate Campaigns(states: seq<Sys>, actions: seq<Action>, j: nat, m: Msg)
    requires m.RequestVotes?
  {
    && j < |actions| && j < |states| && m.sender < |states[j].nodes|
    && var c := states[j].nodes[m.sender];
    && actions[j] == Turn(m.sender, Enter) && c.role.Candidate? && c.loop.Idle?
    && m.term == c.term + 1 && m.lastIndex == c.commitIndex && m.lastTerm == c.lastAppliedTerm
  }

  /** Every request for votes in the network comes from such a step. */
  lemma {:induction false} RequestsAreCampaigns(states: seq<Sys>, actions: seq<Action>, k: nat, i: nat) returns (j: nat)
    requires IsRun(states, actions) && k <= |actions|
    requires i < |states[k].net| && states[k].net[i].RequestVotes?
    ensures j < k && Campaigns(states, actions, j, states[k].net[i])
  {
    if k == 0 {
      assert false;
    } else {
      var s, a := states[k - 1], actions[k - 1];
      assert Moves(s, a, states[k]);
      if i < |s.net| {
        j := RequestsAreCampaigns(states, actions, k - 1, i);
      } else {
        j := k - 1;
        RunKeepsApplied(states, actions, j);
        assert states[k].net[i] in EffectOf(s, a).out;
        QuietTurns(s.nodes[a.v], EventOf(s, a));
        CampaignOpens(s.nodes[a.v]);
      }
    }
  }

  /**
   * The vote, in every run over any network: a follower that hears a candidate's request sends it one
   * vote. The vote is granted exactly if the follower's vote in the request's term is free, and when
   * the candidate began its campaign its commit index and the term of its last commit were no smaller
   * than the follower's are now. Log entries beyond the commit index are not compared at all.
   */
  lemma VotesCompareCommits(states: seq<Sys>, actions: seq<Action>, k: nat, v: NodeId, i: nat) returns (j: nat)
    requires IsRun(states, actions) && k < |actions| && actions[k] == Deliver(v, i)
    requires v < |states[k].nodes| && states[k].nodes[v].loop.InFollower?
    requires i < |states[k].net| && states[k].net[i].RequestVotes?
    ensures j < k && Campaigns(states, actions, j, states[k].net[i])
    ensures var m, f := states[k].net[i], states[k].nodes[v]; var c := states[j].nodes[m.sender];
            states[k + 1].net == states[k].net +
              [Vote(Max(f.term, m.term), v, m.sender,
                    && (m.term > f.term || f.votedFor.None?)
                    && c.commitIndex >= f.commitIndex && c.lastAppliedTerm >= f.lastAppliedTerm)]
  {
    j := RequestsAreCampaigns(states, actions, k, i);
    RunKeepsApplied(states, actions, k);
    assert Moves(states[k], actions[k], states[k + 1]);
    assert AppliedIsCommitted(states[k].nodes[v]);
    FollowerVotes(states[k].nodes[v], states[k].net[i]);
  }

  // ---- what a campaign counts ----

  /** The granted votes that `v` has heard as a candidate since it last opened a campaign. */
  ghost function Grants(states: seq<Sys>, actions: seq<Action>, v: NodeId, k: nat): nat
    requires k <= |actions| <= |states|
  {
    if k == 0 || actions[k - 1] == Turn(v, Enter) then 0
    else Grants(states, actions, v, k - 1) + if HearsGrant(states[k - 1], actions[k - 1], v) then 1 else 0
  }

  predicate HearsGrant(s: Sys, a: Action, v: NodeId) {
    && HearsVote(s, a, v) && s.net[a.position].granted
  }

  predicate HearsVote(s: Sys, a: Action, v: NodeId) {
    && a.Deliver? && a.v == v && a.position < |s.net| && s.net[a.position].Vote?
    && v < |s.nodes| && s.nodes[v].loop.InCandidate?
  }

  /** The tally of a candidate. Outside the leader loop only a victory that was not entered yet makes a leader. */
  predicate TallyOk(n: Node, grants: nat) {
    && (n.loop.InCandidate? ==> n.loop.votesForMe == grants)
    && (n.loop.InCandidate? || n.loop.InFollower? ==> !n.role.Leader?)
  }

  lemma TurnKeepsTally(n: Node, ev: Event, grants: nat)
    requires NodeOk(n) && Enabled(n, ev) && TallyOk(n, grants)
    ensures var counted := if ev.Enter? then 0
                           else grants + if n.loop.InCandidate? && ev.Receive? && ev.msg.Vote? && ev.msg.granted then 1
                                         else 0;
            TallyOk(Act(n, ev).node, counted)
  {
  }

  lemma {:induction false} TalliesAreGrants(states: seq<Sys>, actions: seq<Action>, k: nat, v: NodeId)
    requires IsRun(states, actions) && k <= |actions| && v < |states[k].nodes|
    ensures TallyOk(states[k].nodes[v], Grants(states, actions, v, k))
  {
    if k > 0 {
      var s, a := states[k - 1], actions[k - 1];
      assert Moves(s, a, states[k]);
      TalliesAreGrants(states, actions, k - 1, v);
      if !a.Lose? && a.v == v {
        TurnKeepsTally(s.nodes[v], EventOf(s, a), Grants(states, actions, v, k - 1));
      }
    }
  }

  /** A candidate wins by hearing a vote, and only then. */
  lemma OnlyVotesWin(n: Node, ev: Event)
    requires NodeOk(n) && Enabled(n, ev) && n.loop.InCandidate? && !n.role.Leader? && Wins(n, Act(n, ev).node)
    ensures ev.Receive? && ev.msg.Vote?
  {
  }

  /**
   * In every run over any network a step makes its candidate the winner exactly if it hears a vote, and
   * the grants heard since it opened its campaign are then more than half of the cluster, or it is
   * alone in it.
   */
  lemma WinsIffMajority(states: seq<Sys>, actions: seq<Action>, k: nat, v: NodeId)
    requires IsRun(states, actions) && k < |actions|
    requires v < |states[k].nodes| && states[k].nodes[v].loop.InCandidate?
    ensures v < |states[k + 1].nodes|
    ensures Wins(states[k].nodes[v], states[k + 1].nodes[v]) <==>
            && HearsVote(states[k], actions[k], v)
            && (2 * Grants(states, actions, v, k + 1) > |states[k].nodes| || |states[k].nodes| == 1)
  {
    var s, a := states[k], actions[k];
    assert Moves(s, a, states[k + 1]);
    TalliesAreGrants(states, actions, k, v);
    if !a.Lose? && a.v == v {
      if HearsVote(s, a, v) {
        VoteIsTallied(s.nodes[v], s.net[a.position]);
      } else if Wins(s.nodes[v], states[k + 1].nodes[v]) {
        OnlyVotesWin(s.nodes[v], EventOf(s, a));
      }
    }
  }

  // ---- terms ----

  /**
   * A term heard of is never forgotten: after a node has heard a request for votes, or outside the
   * leader loop a heartbeat, its term is no smaller at any later moment. If that made it leave a
   * campaign or a reign, it has left it.
   */
  lemma HeardTermsStay(states: seq<Sys>, actions: seq<Action>, k: nat, v: NodeId, i: nat, l: nat)
    requires IsRun(states, actions) && k < l <= |actions| && actions[k] == Deliver(v, i)
    requires v < |states[k].nodes| && i < |states[k].net|
    requires states[k].net[i].RequestVotes? || (states[k].net[i].Heartbeat? && !states[k].nodes[v].loop.InLeader?)
    ensures v < |states[l].nodes| && v < |states[k + 1].nodes|
    ensures states[l].nodes[v].term >= states[k].net[i].term
    ensures states[k].net[i].term > states[k].nodes[v].term ==>
              !states[k + 1].nodes[v].loop.InCandidate? && !states[k + 1].nodes[v].loop.InLeader?
  {
    assert Moves(states[k], actions[k], states[k + 1]);
    if states[k].net[i].RequestVotes? {
      RequestRaisesTerm(states[k].nodes[v], states[k].net[i]);
      if !states[k].nodes[v].loop.InFollower? {
        HigherTermDemotes(states[k].nodes[v], states[k].net[i]);
      }
    } else {
      HeartbeatRaisesTerm(states[k].nodes[v], states[k].net[i]);
    }
    D.TermsOnlyGrow(states, actions, k + 1, l, v);
  }
}
