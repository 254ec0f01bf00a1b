/**
 * A cluster of Raft nodes and every message ever sent. Any message may be delivered at any time, any
 * number of times, in any order, or never; what a theorem needs beyond this is a predicate on steps.
 */
module RaftSystem {
  import opened Options
  import opened RaftTypes
  import opened RaftSpec
  import opened RaftLocal

  /**
   * `nodes` and `net` are the system. The other fields are history that no node reads:
   * `counted` - the vote responses that candidates have tallied, as positions in `net`;
   * `elected` - who won which term;
   * `reigns` - the log of the leader of a term, at the latest moment of its reign;
   * `live` - the replication messages (AppendEntries and acks) neither delivered nor lost;
   * `commits` - the log prefixes that leaders' scans have committed;
   * `acked` - the nodes whose success the leader of the latest reign has taken into their row;
   * `reigning`, `reignTerm`, `startCommit` - the leader and term of the latest reign, and the
   * leader's commit index as it began.
   */
  datatype Sys = Sys(
    nodes: seq<Node>,
    net: seq<Msg>,
    counted: set<nat>,
    elected: set<(nat, NodeId)>,
    reigns: map<nat, seq<Entry>>,
    live: set<nat>,
    commits: set<seq<Entry>>,
    acked: set<NodeId>,
    reigning: Option<NodeId>,
    reignTerm: nat,
    startCommit: nat)

  datatype Action =
    | Deliver(v: NodeId, position: nat)
    | Lose(position: nat)
    | Turn(v: NodeId, event: Event)

  /** The senders are nodes of the cluster. */
  predicate MsgOk(m: Msg, size: nat) {
    match m
    case AppendEntries(_, leader, _, _, _, _, _) => leader < size
    case Heartbeat(_, leader) => leader < size
    case Committal(leader, _, _, _) => leader < size
    case _ => m.sender < size
  }

  predicate SysOk(s: Sys) {
    && (forall v :: 0 <= v < |s.nodes| ==> NodeOk(s.nodes[v]) && s.nodes[v].id == v && s.nodes[v].size == |s.nodes|)
    && (forall i :: 0 <= i < |s.net| ==> MsgOk(s.net[i], |s.nodes|))
  }

  function Init(size: nat): (s: Sys)
    ensures SysOk(s)
  {
    Sys(seq(size, v requires 0 <= v < size => InitNode(v, size)), [], {}, {}, map[], {}, {}, {}, None, 0, 0)
  }

  /** The event an action is for its node. */
  function EventOf(s: Sys, a: Action): Event
    requires !a.Lose?
    requires a.Deliver? ==> a.position < |s.net|
  {
    if a.Deliver? then Receive(s.net[a.position]) else a.event
  }

  predicate CanAct(s: Sys, a: Action) {
    && SysOk(s)
    && (match a
        case Deliver(v, i) => v < |s.nodes| && i < |s.net| && Enabled(s.nodes[v], Receive(s.net[i]))
        case Lose(i) => i in s.live
        case Turn(v, ev) => v < |s.nodes| && !ev.Receive? && Enabled(s.nodes[v], ev))
  }

  function EffectOf(s: Sys, a: Action): Effect
    requires CanAct(s, a) && !a.Lose?
  {
    Act(s.nodes[a.v], EventOf(s, a))
  }

  // ---- history ----

  predicate Counts(s: Sys, a: Action)
    requires CanAct(s, a)
  {
    a.Deliver? && s.net[a.position].Vote? && s.nodes[a.v].loop.InCandidate?
  }

  predicate Wins(n: Node, n': Node) {
    n.loop.InCandidate? && n'.role.Leader? && n'.loop.Idle?
  }

  predicate OpensReign(n: Node, n': Node) {
    !n.loop.InLeader? && n'.loop.InLeader?
  }

  /** In the leader loop only the scan moves the commit index. */
  predicate Commits(n: Node, n': Node) {
    n.loop.InLeader? && n'.commitIndex > n.commitIndex && n'.commitIndex < |n'.log|
  }

  /** The leader of the step takes a success into its row for the sender (raft.py:422-427). */
  predicate TakesSuccess(s: Sys, a: Action)
    requires CanAct(s, a)
  {
    && a.Deliver? && s.net[a.position].Ack? && s.net[a.position].success
    && s.nodes[a.v].loop.InLeader? && s.nodes[a.v].nextIndex[s.net[a.position].sender].Some?
  }

  /** Positions of the replication messages in `net` from `start` on. */
  function NewLive(start: nat, net: seq<Msg>): set<nat> {
    set i: nat | start <= i < |net| && net[i].IsReplication()
  }

  function Step(s: Sys, a: Action): Sys
    requires CanAct(s, a)
  {
    if a.Lose? then s.(live := s.live - {a.position})
    else
      var n, e := s.nodes[a.v], EffectOf(s, a);
      var n' := e.node;
      Sys(s.nodes[a.v := n'],
          s.net + e.out,
          if Counts(s, a) then s.counted + {a.position} else s.counted,
          if Wins(n, n') then s.elected + {(n'.term, a.v)} else s.elected,
          if n'.loop.InLeader? then s.reigns[n'.term := n'.log] else s.reigns,
          (if a.Deliver? then s.live - {a.position} else s.live) + NewLive(|s.net|, s.net + e.out),
          if Commits(n, n') then s.commits + {n'.log[..n'.commitIndex + 1]} else s.commits,
          if OpensReign(n, n') then {}
          else if TakesSuccess(s, a) then s.acked + {s.net[a.position].sender}
          else s.acked,
          if OpensReign(n, n') then Some(a.v) else s.reigning,
          if OpensReign(n, n') then n'.term else s.reignTerm,
          if OpensReign(n, n') then n.commitIndex else s.startCommit)
  }

  // ---- assumptions ----

  /** A vote response is tallied at most once, and only by a candidate still in the response's term. */
  ghost predicate NoStaleVote(s: Sys, a: Action)
    requires CanAct(s, a)
  {
    Counts(s, a) ==> a.position !in s.counted && s.net[a.position].term == s.nodes[a.v].term
  }

  /** The client entry a leader is about to append carries the leader's own term. */
  ghost predicate OwnTermStamp(s: Sys, a: Action)
    requires CanAct(s, a)
  {
    && (a.Deliver? && s.net[a.position].ClientRequest? && s.nodes[a.v].loop.InLeader? ==>
          s.net[a.position].entry.term == s.nodes[a.v].term)
    && (a.Turn? && a.event.TakeClient? && s.nodes[a.v].clientQueue != [] ==>
          s.nodes[a.v].clientQueue[0].term == s.nodes[a.v].term)
  }

  ghost predicate OneLeaderPerTerm(s: Sys) {
    forall t, v, w :: (t, v) in s.elected && (t, w) in s.elected ==> v == w
  }

  /** The node other than the leader that a replication message is about. */
  predicate Concerns(m: Msg, f: NodeId) {
    (m.AppendEntries? && m.receiver == f && m.leader != f) || (m.Ack? && m.sender == f && m.receiver != f)
  }

  /** At most one AppendEntries or ack is outstanding for each follower. */
  ghost predicate StopAndWait(s: Sys) {
    forall f, i, j :: (i in s.live && j in s.live && i < |s.net| && j < |s.net| &&
                       Concerns(s.net[i], f) && Concerns(s.net[j], f)) ==> i == j
  }

  /** A replication message is delivered once, and not after it was lost. */
  ghost predicate DeliveredOnce(s: Sys, a: Action)
    requires CanAct(s, a)
  {
    a.Deliver? && s.net[a.position].IsReplication() ==> a.position in s.live
  }

  /** A reign begins when no other node leads and the replication messages of earlier reigns are drained. */
  ghost predicate DisjointReigns(s: Sys, a: Action)
    requires CanAct(s, a)
  {
    a.Turn? && a.event.Enter? && s.nodes[a.v].role.Leader? ==>
      s.live == {} && forall w :: 0 <= w < |s.nodes| ==> !s.nodes[w].loop.InLeader?
  }

  /**
   * A leader's copy of its own broadcast (raft.py:644-648 sends to itself too) is drained by its
   * leader loop: it does not come back to it as a follower of the same term.
   */
  ghost predicate NoSelfAppend(s: Sys, a: Action)
    requires CanAct(s, a)
  {
    (a.Deliver? && s.net[a.position].AppendEntries? && s.nodes[a.v].loop.InFollower? &&
     s.net[a.position].leader == a.v) ==> s.net[a.position].term < s.nodes[a.v].term
  }

  // ---- runs ----

  /** `states` is a run of the cluster from its start under `actions`. */
  ghost predicate IsRun(states: seq<Sys>, actions: seq<Action>) {
    && |states| == |actions| + 1
    && (exists size: nat :: states[0] == Init(size))
    && forall k :: 0 <= k < |actions| ==> Moves(states[k], actions[k], states[k + 1])
  }

  ghost predicate Moves(s: Sys, a: Action, s': Sys) {
    CanAct(s, a) && s' == Step(s, a)
  }

  lemma OutIsOk(n: Node, ev: Event)
    requires NodeOk(n) && Enabled(n, ev)
    ensures forall m :: m in Act(n, ev).out ==> MsgOk(m, n.size)
  {
    match ev
    case Receive(m) =>
      if n.loop.InFollower? {
        FollowerOutOk(n, m);
      } else if n.loop.InCandidate? {
        CandidateOutOk(n, m);
      } else {
        LeaderOutOk(n, m);
      }
    case Enter =>
      if n.role.Leader? {
        BroadcastOutOk(Crowned(n), Entry(n.term, "Leader Entry", -1));
      }
    case TakeClient =>
      if n.clientQueue != [] {
        BroadcastOutOk(n.(clientQueue := n.clientQueue[1..]), n.clientQueue[0]);
      }
    case _ =>
  }

  lemma FollowerOutOk(n: Node, m: Msg)
    requires NodeOk(n) && n.loop.InFollower?
    ensures forall x :: x in FollowerMessage(n, m).out ==> MsgOk(x, n.size)
  {
  }

  lemma CandidateOutOk(n: Node, m: Msg)
    requires NodeOk(n) && n.loop.InCandidate?
    ensures forall x :: x in CandidateMessage(n, m).out ==> MsgOk(x, n.size)
  {
  }

  lemma LeaderOutOk(n: Node, m: Msg)
    requires NodeOk(n) && n.loop.InLeader?
    ensures forall x :: x in LeaderMessage(n, m).out ==> MsgOk(x, n.size)
  {
    if m.ClientRequest? {
      BroadcastOutOk(n, m.entry);
    }
  }

  lemma BroadcastOutOk(n: Node, entry: Entry)
    requires n.id < n.size == |n.nextIndex| == |n.matchIndex| && |n.log| > 0
    ensures forall m :: m in BroadcastAppend(n, entry).out ==> MsgOk(m, n.size)
  {
    BroadcastsAre(Extended(n, entry), n.nextIndex, |n.log|, n.size);
  }

  lemma StepKeepsSysOk(s: Sys, a: Action)
    requires CanAct(s, a)
    ensures SysOk(Step(s, a))
    ensures |Step(s, a).nodes| == |s.nodes|
  {
    if !a.Lose? {
      ActKeepsNodeOk(s.nodes[a.v], EventOf(s, a));
      OutIsOk(s.nodes[a.v], EventOf(s, a));
    }
  }

  /** No node of any run ever reads outside its log, whatever the network does. */
  lemma {:induction false} RunKeepsSysOk(states: seq<Sys>, actions: seq<Action>, k: nat)
    requires IsRun(states, actions) && k <= |actions|
    ensures SysOk(states[k])
  {
    if k > 0 {
      assert Moves(states[k - 1], actions[k - 1], states[k]);
      StepKeepsSysOk(states[k - 1], actions[k - 1]);
    }
  }
}
