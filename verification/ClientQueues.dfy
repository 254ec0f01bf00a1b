/**
 * Client requests over whole runs (raft.py:101-118, 228-232, 456-459, 475-478, 502-509): each node's queue is
 * first in, first out, what leaves it is appended by a leader or handed to one, and no log ever holds
 * an entry that nobody has asked for.
 */
module ClientQueues {
  import opened RaftTypes
  import opened RaftSpec
  import opened RaftLocal
  import opened RaftSystem
  import opened RaftTurns
  import M = LogMatching

  // ---- first in, first out ----

  /** The entries that clients have given to `v` in the first `k` steps, stamped with its term of the moment. */
  ghost function Given(states: seq<Sys>, actions: seq<Action>, v: NodeId, k: nat): seq<Entry>
    requires k <= |actions| <= |states|
  {
    if k == 0 then []
    else Given(states, actions, v, k - 1) + GivenBy(states[k - 1], actions[k - 1], v)
  }

  function GivenBy(s: Sys, a: Action, v: NodeId): seq<Entry> {
    if a.Turn? && a.v == v < |s.nodes| && a.event.Enqueue? then
      [Entry(s.nodes[v].term, a.event.value, a.event.id)]
    else []
  }

  /** The entries of the client requests among some messages. */
  function Requested(out: seq<Msg>): seq<Entry> {
    if out == [] then []
    else (if out[0].ClientRequest? then [out[0].entry] else []) + Requested(out[1..])
  }

  /** What a turn does with client requests of its own: a leader's go to its log, a follower's to the network. */
  function Served(n: Node, ev: Event, e: Effect): seq<Entry> {
    (if ev.TakeClient? && |n.log| <= |e.node.log| then e.node.log[|n.log|..] else []) + Requested(e.out)
  }

  /** All that `v` has appended or handed on of its clients' entries in the first `k` steps. */
  ghost function Taken(states: seq<Sys>, actions: seq<Action>, v: NodeId, k: nat): seq<Entry>
    requires k <= |actions| <= |states|
  {
    if k == 0 then []
    else Taken(states, actions, v, k - 1) + TakenBy(states[k - 1], actions[k - 1], v)
  }

  ghost function TakenBy(s: Sys, a: Action, v: NodeId): seq<Entry> {
    if CanAct(s, a) && !a.Lose? && a.v == v then Served(s.nodes[v], EventOf(s, a), EffectOf(s, a)) else []
  }

  lemma {:induction false} NothingRequested(out: seq<Msg>)
    requires forall m :: m in out ==> !m.ClientRequest?
    ensures Requested(out) == []
  {
    if out != [] {
      assert out[0] in out;
      NothingRequested(out[1..]);
    }
  }

  /** Only a follower that hears a heartbeat hands requests on. */
  lemma OnlyHeartbeatsHandOn(n: Node, ev: Event)
    requires NodeOk(n) && Enabled(n, ev) && !(n.loop.InFollower? && ev.Receive? && ev.msg.Heartbeat?)
    ensures forall m :: m in Act(n, ev).out ==> !m.ClientRequest?
  {
    match ev
    case Receive(m) =>
      if n.loop.InLeader? {
        if m.ClientRequest? {
          BroadcastIsReplication(n, m.entry);
        }
      }
    case Enter =>
      if n.role.Leader? {
        BroadcastIsReplication(Crowned(n), Entry(n.term, "Leader Entry", -1));
      }
    case TakeClient =>
      if n.clientQueue != [] {
        BroadcastIsReplication(n.(clientQueue := n.clientQueue[1..]), n.clientQueue[0]);
      }
    case _ =>
  }

  /** In each turn the queue loses at its front what the turn serves, and gains at its end what it is given. */
  lemma TurnIsFifo(n: Node, ev: Event)
    requires NodeOk(n) && Enabled(n, ev)
    ensures n.clientQueue + (if ev.Enqueue? then [Entry(n.term, ev.value, ev.id)] else []) ==
            Served(n, ev, Act(n, ev)) + Act(n, ev).node.clientQueue
  {
    var e := Act(n, ev);
    if n.loop.InFollower? && ev.Receive? && ev.msg.Heartbeat? {
      HeartbeatRaisesTerm(n, ev.msg);
      if n.clientQueue != [] {
        assert Requested(e.out) == [n.clientQueue[0]] + Requested([]);
      }
    } else {
      OnlyHeartbeatsHandOn(n, ev);
      NothingRequested(e.out);
      if ev.TakeClient? {
        OldestIsAppended(n);
        assert n.clientQueue != [] ==> e.node.log[|n.log|..] == [n.clientQueue[0]];
      } else {
        OthersKeepQueue(n, ev);
      }
    }
  }

  lemma OthersKeepQueue(n: Node, ev: Event)
    requires NodeOk(n) && Enabled(n, ev) && !ev.TakeClient?
    requires !(n.loop.InFollower? && ev.Receive? && ev.msg.Heartbeat?)
    ensures Act(n, ev).node.clientQueue ==
            n.clientQueue + if ev.Enqueue? then [Entry(n.term, ev.value, ev.id)] else []
  {
  }

  /**
   * In every run, at every moment: what clients have given a node is what it has served, in order,
   * followed by what is still in its queue. So requests are served first in, first out, each once.
   */
  lemma {:induction false} QueueIsFifo(states: seq<Sys>, actions: seq<Action>, k: nat, v: NodeId)
    requires IsRun(states, actions) && k <= |actions| && v < |states[k].nodes|
    ensures Given(states, actions, v, k) == Taken(states, actions, v, k) + states[k].nodes[v].clientQueue
  {
    if k == 0 {
      var size: nat :| states[0] == Init(size);
    } else {
      assert Moves(states[k - 1], actions[k - 1], states[k]);
      QueueIsFifo(states, actions, k - 1, v);
      var s, a := states[k - 1], actions[k - 1];
      StepIsFifo(s, a, v);
      FifoAdds(Given(states, actions, v, k - 1), Taken(states, actions, v, k - 1), s.nodes[v].clientQueue,
               GivenBy(s, a, v), TakenBy(s, a, v), states[k].nodes[v].clientQueue);
    }
  }

  lemma FifoAdds(given: seq<Entry>, taken: seq<Entry>, queue: seq<Entry>,
                 more: seq<Entry>, served: seq<Entry>, queue': seq<Entry>)
    requires given == taken + queue && queue + more == served + queue'
    ensures given + more == taken + served + queue'
  {
    assert taken + queue + more == taken + (queue + more);
    assert taken + served + queue' == taken + (served + queue');
  }

  lemma StepIsFifo(s: Sys, a: Action, v: NodeId)
    requires CanAct(s, a) && v < |s.nodes|
    ensures v < |Step(s, a).nodes|
    ensures s.nodes[v].clientQueue + GivenBy(s, a, v) == TakenBy(s, a, v) + Step(s, a).nodes[v].clientQueue
  {
    if !a.Lose? && a.v == v {
      TurnIsFifo(s.nodes[v], EventOf(s, a));
    }
  }

  /** A request goes to the node whose heartbeat was heard, from the node that was asked, one at a time. */
  lemma RequestsGoToTheLeader(n: Node, ev: Event, m: Msg)
    requires NodeOk(n) && Enabled(n, ev) && m in Act(n, ev).out && m.ClientRequest?
    ensures n.loop.InFollower? && ev.Receive? && ev.msg.Heartbeat?
    ensures n.clientQueue != [] && Act(n, ev).out == [ClientRequest(n.id, ev.msg.leader, n.clientQueue[0])]
  {
    if n.loop.InFollower? && ev.Receive? && ev.msg.Heartbeat? {
      HeartbeatRaisesTerm(n, ev.msg);
    } else {
      OnlyHeartbeatsHandOn(n, ev);
    }
  }

  // ---- nothing is invented ----

  /** The entry starts every log, or opens a reign, or is one of those given. */
  ghost predicate Genuine(given: iset<Entry>, x: Entry) {
    x == INIT_ENTRY || (x.value == "Leader Entry" && x.id == -1) || x in given
  }

  ghost predicate NodeGenuine(given: iset<Entry>, n: Node) {
    (forall x :: x in n.log ==> Genuine(given, x)) && forall x :: x in n.clientQueue ==> Genuine(given, x)
  }

  ghost predicate MsgGenuine(given: iset<Entry>, m: Msg) {
    m.AppendEntries? || m.ClientRequest? ==> Genuine(given, m.entry)
  }

  /** A turn makes up no entry but that which opens a reign. */
  lemma TurnIsGenuine(n: Node, ev: Event, given: iset<Entry>)
    requires NodeOk(n) && Enabled(n, ev) && NodeGenuine(given, n)
    requires ev.Receive? ==> MsgGenuine(given, ev.msg)
    requires ev.Enqueue? ==> Entry(n.term, ev.value, ev.id) in given
    ensures var e := Act(n, ev); NodeGenuine(given, e.node) && forall m :: m in e.out ==> MsgGenuine(given, m)
  {
    QueueIsGenuine(n, ev, given);
    LogIsGenuine(n, ev, given);
    M.TurnReplicates(n, ev);
    forall m | m in Act(n, ev).out && m.ClientRequest?
      ensures m.entry in n.clientQueue
    {
      RequestsGoToTheLeader(n, ev, m);
    }
  }

  lemma QueueIsGenuine(n: Node, ev: Event, given: iset<Entry>)
    requires NodeOk(n) && Enabled(n, ev) && NodeGenuine(given, n)
    requires ev.Enqueue? ==> Entry(n.term, ev.value, ev.id) in given
    ensures forall x :: x in Act(n, ev).node.clientQueue ==> Genuine(given, x)
  {
    TurnIsFifo(n, ev);
    var e := Act(n, ev);
    assert forall x :: x in e.node.clientQueue ==> x in Served(n, ev, e) + e.node.clientQueue;
  }

  lemma LogIsGenuine(n: Node, ev: Event, given: iset<Entry>)
    requires NodeOk(n) && Enabled(n, ev) && NodeGenuine(given, n)
    requires ev.Receive? ==> MsgGenuine(given, ev.msg)
    ensures forall x :: x in Act(n, ev).node.log ==> Genuine(given, x)
  {
    M.TurnLogs(n, ev);
  }

  /** In the first `k` steps a client has given the entry to some node. */
  ghost predicate WasGiven(states: seq<Sys>, actions: seq<Action>, k: nat, x: Entry)
    requires k <= |actions| <= |states|
  {
    exists w :: GivenTo(states, actions, w, k, x)
  }

  ghost predicate GivenTo(states: seq<Sys>, actions: seq<Action>, w: NodeId, k: nat, x: Entry)
    requires k <= |actions| <= |states|
  {
    x in Given(states, actions, w, k)
  }

  ghost function AllGiven(states: seq<Sys>, actions: seq<Action>, k: nat): iset<Entry>
    requires k <= |actions| <= |states|
  {
    iset x | WasGiven(states, actions, k, x)
  }

  predicate GivesBy(s: Sys, a: Action, v: NodeId, x: Entry) {
    x in GivenBy(s, a, v)
  }

  lemma MoreGiven(states: seq<Sys>, actions: seq<Action>, j: nat, k: nat)
    requires j + 1 == k <= |actions| <= |states|
    ensures AllGiven(states, actions, j) <= AllGiven(states, actions, k)
    ensures forall v, x :: GivesBy(states[j], actions[j], v, x) ==> x in AllGiven(states, actions, k)
  {
    forall v, x | GivenTo(states, actions, v, j, x) || GivesBy(states[j], actions[j], v, x)
      ensures x in AllGiven(states, actions, k)
    {
      assert GivenTo(states, actions, v, k, x);
    }
  }

  ghost predicate SysGenuine(given: iset<Entry>, s: Sys) {
    && (forall v :: 0 <= v < |s.nodes| ==> NodeGenuine(given, s.nodes[v]))
    && forall i :: 0 <= i < |s.net| ==> MsgGenuine(given, s.net[i])
  }

  lemma StepIsGenuine(s: Sys, a: Action, given: iset<Entry>)
    requires CanAct(s, a) && SysGenuine(given, s)
    requires forall v, x :: GivesBy(s, a, v, x) ==> x in given
    ensures SysGenuine(given, Step(s, a))
  {
    if !a.Lose? {
      var n, ev, e := s.nodes[a.v], EventOf(s, a), EffectOf(s, a);
      assert ev.Enqueue? ==> GivesBy(s, a, a.v, Entry(n.term, ev.value, ev.id));
      TurnIsGenuine(n, ev, given);
      assert forall i :: |s.net| <= i < |Step(s, a).net| ==> Step(s, a).net[i] in e.out;
    }
  }

  lemma {:induction false} RunIsGenuine(states: seq<Sys>, actions: seq<Action>, k: nat)
    requires IsRun(states, actions) && k <= |actions|
    ensures SysGenuine(AllGiven(states, actions, k), states[k])
  {
    if k == 0 {
      var size: nat :| states[0] == Init(size);
    } else {
      RunIsGenuine(states, actions, k - 1);
      MoreGiven(states, actions, k - 1, k);
      assert Moves(states[k - 1], actions[k - 1], states[k]);
      MoveIsGenuine(states[k - 1], actions[k - 1], AllGiven(states, actions, k - 1), AllGiven(states, actions, k));
    }
  }

  lemma MoveIsGenuine(s: Sys, a: Action, before: iset<Entry>, given: iset<Entry>)
    requires CanAct(s, a) && SysGenuine(before, s) && before <= given
    requires forall v, x :: GivesBy(s, a, v, x) ==> x in given
    ensures SysGenuine(given, Step(s, a))
  {
    assert forall n :: NodeGenuine(before, n) ==> NodeGenuine(given, n);
    StepIsGenuine(s, a, given);
  }

  /**
   * In every run over any network each entry of each log is the initial one, or opened a reign, or was
   * given to some node by a client.
   */
  lemma NothingIsInvented(states: seq<Sys>, actions: seq<Action>, k: nat, v: NodeId, x: Entry)
    requires IsRun(states, actions) && k <= |actions| && v < |states[k].nodes| && x in states[k].nodes[v].log
    ensures || x == INIT_ENTRY
            || (x.value == "Leader Entry" && x.id == -1)
            || WasGiven(states, actions, k, x)
  {
    RunIsGenuine(states, actions, k);
    assert NodeGenuine(AllGiven(states, actions, k), states[k].nodes[v]);
  }
}
