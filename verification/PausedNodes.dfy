/**
 * Pausing (raft.py:138-162, 163-183): the loops and timers move a node only between roles, and a node that
 * has come to rest stays as it is until it is un-paused, but for the requests that clients queue.
 */
module PausedNodes {
  import opened RaftTypes
  import opened RaftSpec
  import opened RaftSystem

  /** Timers of followers and candidates, pause and un_pause, and leaving a loop change the role and the loop alone. */
  lemma RoleTurns(n: Node, ev: Event)
    requires NodeOk(n) && Enabled(n, ev)
    requires ev.Timeout? || ev.Pause? || ev.Unpause? || ev.Leave? || (ev.Enter? && n.role.Follower?)
    ensures var e := Act(n, ev); var n' := e.node;
            && e.out == [] && n' == n.(role := n'.role, loop := n'.loop)
            && (ev.Timeout? ==> n'.role.Candidate? && n'.loop.Idle?)
            && (ev.Pause? ==> n'.role.Paused? && n'.loop == n.loop)
            && (ev.Unpause? ==> n'.role.Follower? && n'.loop == n.loop)
            && (ev.Leave? ==> n'.role == n.role && n'.loop.Idle?)
            && (ev.Enter? ==> n'.role.Follower? && n'.loop.InFollower?)
  {
  }

  /** Paused, and out of the loop that it was in. */
  predicate Rests(n: Node) {
    n.role.Paused? && n.loop.Idle?
  }

  /** A loop that finds the node paused can leave, and the node then rests. */
  lemma LoopsComeToRest(n: Node)
    requires NodeOk(n) && n.role.Paused? && (n.loop.InFollower? || n.loop.InCandidate? || n.loop.InLeader?)
    ensures Enabled(n, Leave) && Rests(Act(n, Leave).node)
  {
  }

  /** A candidate that hears the message sets its role: it wins, or sees a higher term or another leader. */
  predicate EndsCampaign(n: Node, m: Msg)
    requires n.loop.InCandidate?
  {
    match m
    case Vote(_, _, _, granted) => 2 * (n.loop.votesForMe + if granted then 1 else 0) > n.size || n.size == 1
    case RequestVotes(term, _, _, _) => term > n.term
    case Heartbeat(term, _) => term >= n.term
    case _ => false
  }

  /**
   * Until then a pause can be lost: a loop that had begun its turn overwrites the role exactly if the
   * timer of a follower or candidate runs out in it, or a candidate's campaign ends, or a leader sees
   * a higher term (raft.py:259, 318, 329, 337, 344, 469).
   */
  lemma PauseIsLostIff(n: Node, ev: Event)
    requires NodeOk(n) && Enabled(n, ev) && n.role.Paused? && !ev.Unpause?
    ensures !Act(n, ev).node.role.Paused? <==>
            || ev.Timeout?
            || (ev.Receive? && n.loop.InCandidate? && EndsCampaign(n, ev.msg))
            || (ev.Receive? && n.loop.InLeader? && ev.msg.RequestVotes? && ev.msg.term > n.term)
  {
  }

  /** Of a node at rest only `un_pause`, another pause and a client's request can be a turn. */
  lemma RestingTurns(n: Node, ev: Event)
    requires NodeOk(n) && Enabled(n, ev) && Rests(n)
    ensures ev.Unpause? || ev.Pause? || ev.Enqueue?
    ensures !ev.Unpause? ==>
              var e := Act(n, ev); e.out == [] && e.node == n.(clientQueue := e.node.clientQueue)
  {
  }

  predicate Unpauses(a: Action, v: NodeId) {
    a.Turn? && a.v == v && a.event.Unpause?
  }

  /** `n'` is `n` but for the requests that clients have queued. */
  predicate SameButQueue(n: Node, n': Node) {
    n' == n.(clientQueue := n'.clientQueue)
  }

  lemma StepRests(s: Sys, a: Action, v: NodeId)
    requires CanAct(s, a) && v < |s.nodes| && Rests(s.nodes[v]) && !Unpauses(a, v)
    ensures var s' := Step(s, a);
            && v < |s'.nodes| && SameButQueue(s.nodes[v], s'.nodes[v])
            && (!a.Lose? && a.v == v ==> s'.net == s.net)
  {
    if !a.Lose? && a.v == v {
      RestingTurns(s.nodes[v], EventOf(s, a));
    }
  }

  /**
   * From the moment that a node rests until it is un-paused, whatever the others do and whatever is
   * sent, it keeps its term, vote, log, commit index and tables.
   */
  lemma {:induction false} PausedNodeRests(states: seq<Sys>, actions: seq<Action>, j: nat, k: nat, v: NodeId)
    requires IsRun(states, actions) && j <= k <= |actions|
    requires v < |states[j].nodes| && Rests(states[j].nodes[v])
    requires forall i :: j <= i < k ==> !Unpauses(actions[i], v)
    ensures v < |states[k].nodes| && SameButQueue(states[j].nodes[v], states[k].nodes[v])
  {
    if j < k {
      PausedNodeRests(states, actions, j, k - 1, v);
      assert Moves(states[k - 1], actions[k - 1], states[k]);
      StepRests(states[k - 1], actions[k - 1], v);
    }
  }

  /** And its turns send nothing. */
  lemma PausedNodeIsSilent(states: seq<Sys>, actions: seq<Action>, j: nat, k: nat, v: NodeId)
    requires IsRun(states, actions) && j <= k < |actions|
    requires v < |states[j].nodes| && Rests(states[j].nodes[v])
    requires forall i :: j <= i <= k ==> !Unpauses(actions[i], v)
    ensures !actions[k].Lose? && actions[k].v == v ==> states[k + 1].net == states[k].net
  {
    PausedNodeRests(states, actions, j, k, v);
    assert Moves(states[k], actions[k], states[k + 1]);
    StepRests(states[k], actions[k], v);
  }
}
