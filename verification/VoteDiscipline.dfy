/**
 * How nodes vote, with no assumption on the network at all (raft.py:206-226, 284-338, 465-473,
 * 541-556, 683-699).
 */
module VoteDiscipline {
  import opened Options
  import opened RaftTypes
  import opened RaftSpec
  import opened RaftLocal
  import opened RaftSystem

  /** Position `i` of the network is a vote that `v` granted in term `t`. */
  predicate IsGrant(net: seq<Msg>, i: int, v: NodeId, t: nat) {
    0 <= i < |net| && net[i].Vote? && net[i].granted && net[i].sender == v && net[i].term == t
  }

  predicate IsCampaign(net: seq<Msg>, i: int, v: NodeId, t: nat) {
    0 <= i < |net| && net[i].RequestVotes? && net[i].sender == v && net[i].term == t
  }

  predicate IsHeartbeat(net: seq<Msg>, i: int, t: nat) {
    0 <= i < |net| && net[i].Heartbeat? && net[i].term == t
  }

  ghost predicate CampaignBefore(net: seq<Msg>, v: NodeId, t: nat, end: int) {
    exists i :: i < end && IsCampaign(net, i, v, t)
  }

  ghost predicate HeartbeatBefore(net: seq<Msg>, t: nat, end: int) {
    exists i :: i < end && IsHeartbeat(net, i, t)
  }

  ghost predicate GrantsOnce(net: seq<Msg>, v: NodeId, t: nat) {
    forall i, j :: IsGrant(net, i, v, t) && IsGrant(net, j, v, t) ==> i == j
  }

  /** Whatever `v` granted in `t`, it granted to itself, as a candidate of `t`. */
  ghost predicate GrantsItself(net: seq<Msg>, v: NodeId, t: nat) {
    forall i :: IsGrant(net, i, v, t) ==> net[i].receiver == v && CampaignBefore(net, v, t, i)
  }

  /**
   * The discipline: a second grant in a term is preceded by a heartbeat of that term, its voter
   * was a candidate of that term whose first vote went to itself, and there is no third.
   */
  ghost predicate Disciplined(net: seq<Msg>, v: NodeId, t: nat) {
    forall i, j :: i < j && IsGrant(net, i, v, t) && IsGrant(net, j, v, t) ==>
      && net[i].receiver == v
      && CampaignBefore(net, v, t, i)
      && HeartbeatBefore(net, t, j)
      && forall k :: IsGrant(net, k, v, t) ==> k == i || k == j
  }

  ghost predicate CampaignsOnce(net: seq<Msg>, v: NodeId, t: nat) {
    forall i, j :: IsCampaign(net, i, v, t) && IsCampaign(net, j, v, t) ==> i == j
  }

  /** What a node's term and vote say about the grants it has sent. */
  ghost predicate NodeVotes(n: Node, net: seq<Msg>) {
    && (forall i, t: nat :: IsGrant(net, i, n.id, t) ==> t <= n.term)
    && (forall i, t: nat :: IsCampaign(net, i, n.id, t) ==> t <= n.term)
    && (n.loop.InCandidate? ==>
          n.votedFor.Some? && GrantsOnce(net, n.id, n.term) && GrantsItself(net, n.id, n.term))
    && (n.votedFor.None? ==>
          && GrantsOnce(net, n.id, n.term)
          && GrantsItself(net, n.id, n.term)
          && forall i :: IsGrant(net, i, n.id, n.term) ==> HeartbeatBefore(net, n.term, |net|))
  }

  ghost predicate Inv(s: Sys) {
    && SysOk(s)
    && (forall v :: 0 <= v < |s.nodes| ==> NodeVotes(s.nodes[v], s.net))
    && (forall v, t :: Disciplined(s.net, v, t))
    && (forall v, t :: CampaignsOnce(s.net, v, t))
  }

  // ---- one turn ----

  /** The votes among the messages of one turn. */
  ghost predicate VotesOf(n: Node, e: Effect) {
    && (forall k :: 0 <= k < |e.out| && e.out[k].Vote? ==>
          && e.out[k].sender == n.id && e.out[k].term == e.node.term && e.node.votedFor == Some(e.out[k].receiver)
          && (e.out[k].granted ==> e.node.term > n.term || n.votedFor.None?))
    && (forall k, l :: 0 <= k < |e.out| && 0 <= l < |e.out| && e.out[k].Vote? && e.out[l].Vote? ==> k == l)
    && (forall k :: 0 <= k < |e.out| && e.out[k].RequestVotes? ==>
          k == 0 && e.out[k].sender == n.id && e.out[k].term == e.node.term > n.term)
  }

  /** A candidate after the turn was one before, silent, or has just opened its campaign. */
  ghost predicate CampaignOf(n: Node, e: Effect) {
    e.node.loop.InCandidate? ==>
      || (&& n.loop.InCandidate? && e.node.term == n.term && e.node.votedFor == n.votedFor && e.out == [])
      || (&& e.node.term == n.term + 1 && e.node.votedFor == Some(n.id) && |e.out| == 2
          && e.out[0].RequestVotes? && e.out[0].sender == n.id && e.out[0].term == e.node.term
          && e.out[1] == Vote(e.node.term, n.id, n.id, true))
  }

  /**
   * A turn leaves the vote free in a fresh term, or where it was free, or because a candidate
   * heard a heartbeat of its own term (raft.py:333-335).
   */
  ghost predicate FreedBy(n: Node, ev: Event, e: Effect) {
    e.node.votedFor.None? ==>
      && (forall k :: 0 <= k < |e.out| ==> !e.out[k].Vote?)
      && (|| e.node.term > n.term
          || n.votedFor.None?
          || (n.loop.InCandidate? && ev.Receive? && ev.msg.Heartbeat? && ev.msg.term == n.term))
  }

  /** All that the discipline needs to know of a turn. */
  ghost predicate VoteTurn(n: Node, ev: Event, e: Effect) {
    && VotesOf(n, e) && CampaignOf(n, e) && FreedBy(n, ev, e)
    && e.node.term >= n.term && e.node.id == n.id
  }

  lemma FollowerVotes(n: Node, m: Msg)
    requires NodeOk(n) && n.loop.InFollower?
    ensures VoteTurn(n, Receive(m), FollowerMessage(n, m))
  {
  }

  lemma CandidateVotes(n: Node, m: Msg)
    requires NodeOk(n) && n.loop.InCandidate?
    ensures VoteTurn(n, Receive(m), CandidateMessage(n, m))
  {
  }

  /** A turn that sends only replication messages and committals, and does not touch the vote. */
  lemma SilentVotes(n: Node, ev: Event, e: Effect)
    requires forall m :: m in e.out ==> m.AppendEntries? || m.Committal?
    requires e.node.votedFor == n.votedFor && e.node.term == n.term && e.node.id == n.id && !e.node.loop.InCandidate?
    ensures VoteTurn(n, ev, e)
  {
    assert forall k :: 0 <= k < |e.out| ==> e.out[k] in e.out;
  }

  lemma DemotedVotes(n: Node, m: Msg)
    requires NodeOk(n) && n.loop.InLeader? && m.RequestVotes?
    ensures VoteTurn(n, Receive(m), LeaderMessage(n, m))
  {
  }

  lemma AckVotes(n: Node, m: Msg)
    requires NodeOk(n) && n.loop.InLeader? && m.Ack?
    ensures VoteTurn(n, Receive(m), LeaderMessage(n, m))
  {
    SilentVotes(n, Receive(m), LeaderMessage(n, m));
  }

  lemma LeaderVotes(n: Node, m: Msg)
    requires NodeOk(n) && n.loop.InLeader?
    ensures VoteTurn(n, Receive(m), LeaderMessage(n, m))
  {
    if m.RequestVotes? {
      DemotedVotes(n, m);
    } else if m.Ack? {
      AckVotes(n, m);
    } else {
      if m.ClientRequest? {
        BroadcastIsReplication(n, m.entry);
      }
      SilentVotes(n, Receive(m), LeaderMessage(n, m));
    }
  }

  lemma OpeningVotes(n: Node)
    requires NodeOk(n)
    ensures VoteTurn(n, Enter, StartReign(n))
  {
    var n' := Crowned(n);
    BroadcastIsReplication(n', Entry(n.term, "Leader Entry", -1));
    var e := StartReign(n);
    assert forall k :: 1 <= k < |e.out| ==> e.out[k] in e.out[1..];
  }

  lemma TakingVotes(n: Node)
    requires NodeOk(n) && n.loop.InLeader?
    ensures VoteTurn(n, TakeClient, Act(n, TakeClient))
  {
    if n.clientQueue != [] {
      BroadcastIsReplication(n.(clientQueue := n.clientQueue[1..]), n.clientQueue[0]);
    }
    SilentVotes(n, TakeClient, Act(n, TakeClient));
  }

  lemma TurnVotes(n: Node, ev: Event)
    requires NodeOk(n) && Enabled(n, ev)
    ensures VoteTurn(n, ev, Act(n, ev))
  {
    match ev
    case Receive(m) =>
      if n.loop.InFollower? {
        FollowerVotes(n, m);
      } else if n.loop.InCandidate? {
        CandidateVotes(n, m);
      } else {
        LeaderVotes(n, m);
      }
    case Enter =>
      if n.role.Leader? {
        OpeningVotes(n);
      }
    case TakeClient =>
      TakingVotes(n);
    case _ =>
  }

  // ---- the network grows ----

  /** Old positions keep their meaning when messages are added. */
  lemma NetGrows(net: seq<Msg>, out: seq<Msg>)
    ensures forall i, v, t: nat ::
              IsGrant(net + out, i, v, t) <==> IsGrant(net, i, v, t) || IsGrant(out, i - |net|, v, t)
    ensures forall i, v, t: nat ::
              IsCampaign(net + out, i, v, t) <==> IsCampaign(net, i, v, t) || IsCampaign(out, i - |net|, v, t)
    ensures forall v, t: nat, end :: CampaignBefore(net, v, t, end) ==> CampaignBefore(net + out, v, t, end)
    ensures forall t: nat, end :: HeartbeatBefore(net, t, end) ==> HeartbeatBefore(net + out, t, end)
  {
    forall v, t: nat, end | CampaignBefore(net, v, t, end)
      ensures CampaignBefore(net + out, v, t, end)
    {
      var i :| i < end && IsCampaign(net, i, v, t);
      assert IsCampaign(net + out, i, v, t);
    }
    forall t: nat, end | HeartbeatBefore(net, t, end)
      ensures HeartbeatBefore(net + out, t, end)
    {
      var i :| i < end && IsHeartbeat(net, i, t);
      assert IsHeartbeat(net + out, i, t);
    }
  }

  // ---- the invariant ----

  /** A turn of another node adds no vote or campaign of `v`. */
  lemma OthersKeepQuiet(s: Sys, a: Action, v: NodeId)
    requires CanAct(s, a) && !a.Lose? && v != a.v
    ensures forall i, t: nat :: !IsGrant(EffectOf(s, a).out, i, v, t)
    ensures forall i, t: nat :: !IsCampaign(EffectOf(s, a).out, i, v, t)
  {
    TurnVotes(s.nodes[a.v], EventOf(s, a));
  }

  lemma QuietKeepsNode(n: Node, net: seq<Msg>, out: seq<Msg>)
    requires NodeVotes(n, net)
    requires forall i, t: nat :: !IsGrant(out, i, n.id, t)
    requires forall i, t: nat :: !IsCampaign(out, i, n.id, t)
    ensures NodeVotes(n, net + out)
  {
    NetGrows(net, out);
  }

  /** The acting node in its new term, or still in its old one. */
  lemma TurnKeepsActor(n: Node, ev: Event, e: Effect, net: seq<Msg>)
    requires NodeVotes(n, net) && VoteTurn(n, ev, e)
    requires ev.Receive? && ev.msg.Heartbeat? ==> HeartbeatBefore(net, ev.msg.term, |net|)
    ensures NodeVotes(e.node, net + e.out)
  {
    var n', net' := e.node, net + e.out;
    NetGrows(net, e.out);
    if n'.loop.InCandidate? && n'.term > n.term {
      assert IsCampaign(net', |net|, n.id, n'.term);
    }
  }

  lemma StepKeepsActor(s: Sys, a: Action)
    requires Inv(s) && CanAct(s, a) && !a.Lose?
    ensures NodeVotes(EffectOf(s, a).node, s.net + EffectOf(s, a).out)
  {
    var n, ev, e := s.nodes[a.v], EventOf(s, a), EffectOf(s, a);
    TurnVotes(n, ev);
    if ev.Receive? && ev.msg.Heartbeat? {
      assert IsHeartbeat(s.net, a.position, ev.msg.term);
    }
    TurnKeepsActor(n, ev, e, s.net);
  }

  /**
   * A new grant is the first of its term, or its voter was free: then the only earlier grant of
   * the term went to the voter itself, and a heartbeat had freed it.
   */
  lemma NewGrant(n: Node, ev: Event, e: Effect, net: seq<Msg>, k: int, t: nat)
    requires NodeVotes(n, net) && VoteTurn(n, ev, e)
    requires IsGrant(e.out, k, n.id, t)
    ensures forall i :: IsGrant(net, i, n.id, t) ==>
              net[i].receiver == n.id && CampaignBefore(net, n.id, t, i) && HeartbeatBefore(net, t, |net|)
    ensures GrantsOnce(net, n.id, t)
    ensures forall l :: IsGrant(e.out, l, n.id, t) ==> l == k
  {
    assert e.out[k].Vote?;
  }

  lemma QuietKeepsDiscipline(net: seq<Msg>, out: seq<Msg>, v: NodeId, t: nat)
    requires Disciplined(net, v, t) && forall i :: !IsGrant(out, i, v, t)
    ensures Disciplined(net + out, v, t)
  {
    NetGrows(net, out);
    assert forall i :: IsGrant(net + out, i, v, t) ==> IsGrant(net, i, v, t) || IsGrant(out, i - |net|, v, t);
  }

  /** The discipline of the acting node. */
  lemma TurnKeepsDiscipline(n: Node, ev: Event, e: Effect, net: seq<Msg>, t: nat)
    requires NodeVotes(n, net) && VoteTurn(n, ev, e) && Disciplined(net, n.id, t)
    ensures Disciplined(net + e.out, n.id, t)
  {
    var v, net' := n.id, net + e.out;
    if k :| IsGrant(e.out, k, v, t) {
      NetGrows(net, e.out);
      NewGrant(n, ev, e, net, k, t);
      forall i, j | i < j && IsGrant(net', i, v, t) && IsGrant(net', j, v, t)
        ensures && net'[i].receiver == v && CampaignBefore(net', v, t, i) && HeartbeatBefore(net', t, j)
                && forall l :: IsGrant(net', l, v, t) ==> l == i || l == j
      {
        assert IsGrant(net, i, v, t) && j == |net| + k;
        assert HeartbeatBefore(net', t, |net|);
      }
    } else {
      QuietKeepsDiscipline(net, e.out, v, t);
    }
  }

  lemma StepKeepsDiscipline(s: Sys, a: Action, v: NodeId, t: nat)
    requires Inv(s) && CanAct(s, a) && !a.Lose?
    ensures Disciplined(s.net + EffectOf(s, a).out, v, t)
  {
    assert Disciplined(s.net, v, t);
    if v == a.v {
      TurnVotes(s.nodes[v], EventOf(s, a));
      TurnKeepsDiscipline(s.nodes[v], EventOf(s, a), EffectOf(s, a), s.net, t);
    } else {
      OthersKeepQuiet(s, a, v);
      QuietKeepsDiscipline(s.net, EffectOf(s, a).out, v, t);
    }
  }

  /** A campaign opens a term that is new to the node. */
  lemma TurnKeepsCampaigns(n: Node, ev: Event, e: Effect, net: seq<Msg>, t: nat)
    requires NodeVotes(n, net) && VoteTurn(n, ev, e) && CampaignsOnce(net, n.id, t)
    ensures CampaignsOnce(net + e.out, n.id, t)
  {
    NetGrows(net, e.out);
  }

  lemma StepKeepsCampaigns(s: Sys, a: Action, v: NodeId, t: nat)
    requires Inv(s) && CanAct(s, a) && !a.Lose?
    ensures CampaignsOnce(s.net + EffectOf(s, a).out, v, t)
  {
    assert CampaignsOnce(s.net, v, t);
    if v == a.v {
      TurnVotes(s.nodes[v], EventOf(s, a));
      TurnKeepsCampaigns(s.nodes[v], EventOf(s, a), EffectOf(s, a), s.net, t);
    } else {
      NetGrows(s.net, EffectOf(s, a).out);
      OthersKeepQuiet(s, a, v);
    }
  }

  lemma StepKeepsInv(s: Sys, a: Action)
    requires Inv(s) && CanAct(s, a)
    ensures Inv(Step(s, a))
  {
    StepKeepsSysOk(s, a);
    if !a.Lose? {
      StepKeepsActor(s, a);
      forall v | 0 <= v < |s.nodes| && v != a.v
        ensures NodeVotes(s.nodes[v], Step(s, a).net)
      {
        OthersKeepQuiet(s, a, v);
        QuietKeepsNode(s.nodes[v], s.net, EffectOf(s, a).out);
      }
      forall v: NodeId, t: nat
        ensures Disciplined(Step(s, a).net, v, t) && CampaignsOnce(Step(s, a).net, v, t)
      {
        StepKeepsDiscipline(s, a, v, t);
        StepKeepsCampaigns(s, a, v, t);
      }
    }
  }

  /**
   * In every run over any network: a node is a candidate at most once per term, grants at most one
   * vote in a term until a heartbeat of that term exists, and afterwards grants again only if it
   * was a candidate of the term and its first vote went to itself, and then only once.
   */
  lemma {:induction false} VotesAreDisciplined(states: seq<Sys>, actions: seq<Action>, k: nat)
    requires IsRun(states, actions) && k <= |actions|
    ensures Inv(states[k])
    ensures forall v, t :: Disciplined(states[k].net, v, t) && CampaignsOnce(states[k].net, v, t)
  {
    if k > 0 {
      VotesAreDisciplined(states, actions, k - 1);
      assert Moves(states[k - 1], actions[k - 1], states[k]);
      StepKeepsInv(states[k - 1], actions[k - 1]);
    }
  }

  /** In every run no node's term ever decreases. */
  lemma {:induction false} TermsOnlyGrow(states: seq<Sys>, actions: seq<Action>, j: nat, k: nat, v: NodeId)
    requires IsRun(states, actions) && j <= k <= |actions| && v < |states[j].nodes|
    ensures v < |states[k].nodes| && states[j].nodes[v].term <= states[k].nodes[v].term
  {
    if j < k {
      TermsOnlyGrow(states, actions, j, k - 1, v);
      assert Moves(states[k - 1], actions[k - 1], states[k]);
      if !actions[k - 1].Lose? {
        TurnVotes(states[k - 1].nodes[actions[k - 1].v], EventOf(states[k - 1], actions[k - 1]));
      }
    }
  }
}
