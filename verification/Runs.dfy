/**
 * Runs built step by step, with a record of which assumptions their steps meet. Each kind of step is
 * a lemma that takes a state and returns the next one: `Quiet`, `Asked`, `Tallied`, `Answers`,
 * `Answered`, `Sends` and `Drop`, and from these a campaign, a reign's opening and a client's append.
 * The effect of a step is an argument, so that a scenario names it and proves it on its own; and
 * states that can be continued are elements of a set, so that nothing is known of them but that.
 */
module Runs {
  import opened Options
  import opened RaftTypes
  import opened RaftSpec
  import opened RaftSystem
  import C = CommitSafety

  datatype Assumption = FreshVotes | OwnStamps | OneOutstanding | OnceOnly | ReignsApart | NoOwnCopy

  /** Which assumptions the steps of a run meet. */
  datatype Demand = All | AllBut(dropped: Assumption)

  ghost predicate Meets(s: Sys, a: Action, d: Demand)
    requires CanAct(s, a)
  {
    if d.All? then C.Orderly(s, a)
    else
      && (d.dropped.FreshVotes? || NoStaleVote(s, a))
      && (d.dropped.OwnStamps? || OwnTermStamp(s, a))
      && (d.dropped.OneOutstanding? || StopAndWait(s))
      && (d.dropped.OnceOnly? || DeliveredOnce(s, a))
      && (d.dropped.ReignsApart? || DisjointReigns(s, a))
      && (d.dropped.NoOwnCopy? || NoSelfAppend(s, a))
  }

  /** `s` is the end of a run that meets the demand. */
  ghost predicate Reachable(s: Sys, d: Demand) {
    exists states, actions :: EndsIn(states, actions, s, d)
  }

  ghost predicate EndsIn(states: seq<Sys>, actions: seq<Action>, s: Sys, d: Demand) {
    IsRun(states, actions) && states[|actions|] == s && StepsMeet(states, actions, d)
  }

  ghost predicate StepsMeet(states: seq<Sys>, actions: seq<Action>, d: Demand)
    requires |states| == |actions| + 1
  {
    forall k :: 0 <= k < |actions| ==> CanAct(states[k], actions[k]) && Meets(states[k], actions[k], d)
  }

  lemma StartIsReachable(size: nat, d: Demand)
    ensures Reachable(Init(size), d)
  {
    assert EndsIn([Init(size)], [], Init(size), d);
  }

  /** What meets every assumption meets all but one. */
  lemma DemandLess(s: Sys, x: Assumption)
    requires Reachable(s, All)
    ensures Reachable(s, AllBut(x))
    ensures s in Calm(All) ==> s in Calm(AllBut(x))
  {
    var states, actions :| EndsIn(states, actions, s, All);
    assert forall k :: 0 <= k < |actions| ==>
             Meets(states[k], actions[k], All) ==> Meets(states[k], actions[k], AllBut(x));
    assert EndsIn(states, actions, s, AllBut(x));
  }

  lemma RunGoesOn(states: seq<Sys>, actions: seq<Action>, s: Sys, a: Action)
    requires IsRun(states, actions) && states[|actions|] == s && CanAct(s, a)
    ensures IsRun(states + [Step(s, a)], actions + [a])
  {
    var states', actions' := states + [Step(s, a)], actions + [a];
    forall k | 0 <= k < |actions'|
      ensures Moves(states'[k], actions'[k], states'[k + 1])
    {
      if k < |actions| {
        assert Moves(states[k], actions[k], states[k + 1]);
      }
    }
  }

  lemma StepsStillMeet(states: seq<Sys>, actions: seq<Action>, s: Sys, a: Action, s': Sys, d: Demand)
    requires |states| == |actions| + 1 && states[|actions|] == s
    requires StepsMeet(states, actions, d) && CanAct(s, a) && Meets(s, a, d)
    ensures StepsMeet(states + [s'], actions + [a], d)
  {
    forall k | 0 <= k < |actions + [a]|
      ensures CanAct((states + [s'])[k], (actions + [a])[k]) && Meets((states + [s'])[k], (actions + [a])[k], d)
    {
      if k < |actions| {
        assert CanAct(states[k], actions[k]) && Meets(states[k], actions[k], d);
      }
    }
  }

  lemma StepIsReachable(s: Sys, a: Action, d: Demand)
    requires Reachable(s, d) && CanAct(s, a) && Meets(s, a, d)
    ensures Reachable(Step(s, a), d)
  {
    var states, actions :| EndsIn(states, actions, s, d);
    RunGoesOn(states, actions, s, a);
    StepsStillMeet(states, actions, s, a, Step(s, a), d);
    assert EndsIn(states + [Step(s, a)], actions + [a], Step(s, a), d);
  }

  // ---- one step ----

  /** What a run that is being built sees of a state. */
  ghost predicate At(s: Sys, nodes: seq<Node>, net: seq<Msg>, live: set<nat>, counted: set<nat>) {
    s.nodes == nodes && s.net == net && s.live == live && s.counted == counted
  }

  lemma StepLooks(s: Sys, a: Action, e: Effect)
    requires CanAct(s, a) && !a.Lose? && EffectOf(s, a) == e
    ensures var s' := Step(s, a);
            && SysOk(s')
            && At(s', s.nodes[a.v := e.node], s.net + e.out,
                  (if a.Deliver? then s.live - {a.position} else s.live) + NewLive(|s.net|, s.net + e.out),
                  if Counts(s, a) then s.counted + {a.position} else s.counted)
            && s.elected <= s'.elected && s.commits <= s'.commits
            && (Wins(s.nodes[a.v], e.node) ==> (e.node.term, a.v) in s'.elected)
            && (Commits(s.nodes[a.v], e.node) ==> e.node.log[..e.node.commitIndex + 1] in s'.commits)
  {
    StepKeepsSysOk(s, a);
  }

  /** A state from which a quiet step meets the demand. */
  ghost predicate IsCalm(s: Sys, d: Demand) {
    && Reachable(s, d) && SysOk(s)
    && (forall i :: i in s.live ==> i < |s.net|)
    && ((d.AllBut? && d.dropped.OneOutstanding?) || StopAndWait(s))
  }

  /** All such states. */
  ghost function Calm(d: Demand): iset<Sys> {
    iset s | IsCalm(s, d)
  }

  ghost predicate NoReplication(out: seq<Msg>) {
    forall m :: m in out ==> !m.IsReplication()
  }

  /** What a quiet step leaves. */
  ghost predicate After(s: Sys, v: NodeId, e: Effect, counted: set<nat>, s': Sys) {
    && v < |s.nodes|
    && s'.nodes == s.nodes[v := e.node] && s'.net == s.net + e.out && s'.live == s.live && s'.counted == counted
    && s.elected <= s'.elected && s.commits <= s'.commits
  }

  /** A quiet turn adds no replication message. */
  lemma NothingLive(net: seq<Msg>, out: seq<Msg>)
    requires forall m :: m in out ==> !m.IsReplication()
    ensures NewLive(|net|, net + out) == {}
  {
    assert forall i :: |net| <= i < |net + out| ==> (net + out)[i] in out;
  }

  /** A turn that reads no message, opens no reign, appends nothing and sends no replication message. */
  lemma Quiet(s: Sys, v: NodeId, ev: Event, e: Effect, d: Demand) returns (s': Sys)
    requires s in Calm(d) && v < |s.nodes| && !ev.Receive? && Enabled(s.nodes[v], ev) && Act(s.nodes[v], ev) == e
    requires !(ev.Enter? && s.nodes[v].role.Leader?) && !ev.TakeClient? && NoReplication(e.out)
    ensures s' in Calm(d) && After(s, v, e, s.counted, s')
  {
    var a := Turn(v, ev);
    NothingLive(s.net, e.out);
    StepIsReachable(s, a, d);
    StepLooks(s, a, e);
    s' := Step(s, a);
  }

  /** A request for votes is heard. */
  lemma Asked(s: Sys, v: NodeId, i: nat, m: Msg, e: Effect, d: Demand) returns (s': Sys)
    requires s in Calm(d) && v < |s.nodes| && i < |s.net| && s.net[i] == m && m.RequestVotes? && i !in s.live
    requires Enabled(s.nodes[v], Receive(m)) && Act(s.nodes[v], Receive(m)) == e && NoReplication(e.out)
    ensures s' in Calm(d) && After(s, v, e, s.counted, s')
  {
    var a := Deliver(v, i);
    NothingLive(s.net, e.out);
    StepIsReachable(s, a, d);
    StepLooks(s, a, e);
    s' := Step(s, a);
    assert s.live - {i} == s.live;
  }

  /** A candidate tallies a vote. */
  lemma Tallied(s: Sys, v: NodeId, i: nat, m: Msg, n': Node, d: Demand) returns (s': Sys)
    requires s in Calm(d) && v < |s.nodes| && i < |s.net| && s.net[i] == m && m.Vote? && m.receiver == v && i !in s.live
    requires s.nodes[v].loop.InCandidate? && s.nodes[v].id == v && CountVote(s.nodes[v], m.granted) == n'
    requires (d.AllBut? && d.dropped.FreshVotes?) || (i !in s.counted && m.term == s.nodes[v].term)
    ensures s' in Calm(d) && After(s, v, Effect(n', []), s.counted + {i}, s')
    ensures Wins(s.nodes[v], n') ==> (n'.term, v) in s'.elected
  {
    var a := Deliver(v, i);
    NothingLive(s.net, []);
    StepIsReachable(s, a, d);
    StepLooks(s, a, Effect(n', []));
    s' := Step(s, a);
    assert s.live - {i} == s.live;
  }

  /** A follower answers an append. */
  lemma Answers(s: Sys, v: NodeId, i: nat, m: Msg, n': Node, answer: Msg, d: Demand) returns (s': Sys)
    requires s in Calm(d) && v < |s.nodes| && i in s.live && s.net[i] == m && m.AppendEntries? && m.receiver == v
    requires s.nodes[v].loop.InFollower? && s.nodes[v].id == v && Act(s.nodes[v], Receive(m)) == Effect(n', [answer])
    requires answer.Ack? && answer.sender == v && answer.receiver == m.leader
    requires m.leader != v || m.term < s.nodes[v].term || (d.AllBut? && d.dropped.NoOwnCopy?)
    ensures s' in Calm(d) && s'.nodes == s.nodes[v := n'] && s'.net == s.net + [answer]
    ensures s'.live == s.live - {i} + {|s.net|} && s'.counted == s.counted && s.commits <= s'.commits
  {
    var a := Deliver(v, i);
    StepIsReachable(s, a, d);
    StepLooks(s, a, Effect(n', [answer]));
    s' := Step(s, a);
    assert NewLive(|s.net|, s.net + [answer]) == {|s.net|};
    AnswerIsCalm(s, s', i, answer, d);
  }

  /** An answer takes the place of the message it answers. */
  lemma AnswerIsCalm(s: Sys, s': Sys, i: nat, answer: Msg, d: Demand)
    requires s in Calm(d) && Reachable(s', d) && SysOk(s') && i in s.live && s.net[i].AppendEntries? && answer.Ack?
    requires answer.sender == s.net[i].receiver && answer.receiver == s.net[i].leader
    requires s'.net == s.net + [answer] && s'.live == s.live - {i} + {|s.net|}
    ensures s' in Calm(d)
  {
    assert forall j :: j in s.live ==> s'.net[j] == s.net[j];
    assert forall f :: Concerns(answer, f) ==> Concerns(s.net[i], f);
  }

  /** The leader reads an answer and has nothing more to send to its follower. */
  lemma Answered(s: Sys, v: NodeId, i: nat, m: Msg, e: Effect, d: Demand) returns (s': Sys)
    requires s in Calm(d) && v < |s.nodes| && i < |s.net| && s.net[i] == m && m.Ack? && m.receiver == v
    requires i in s.live || (d.AllBut? && d.dropped.OnceOnly?)
    requires s.nodes[v].loop.InLeader? && s.nodes[v].id == v
    requires Act(s.nodes[v], Receive(m)) == e && NoReplication(e.out)
    ensures s' in Calm(d) && s'.nodes == s.nodes[v := e.node] && s'.net == s.net + e.out
    ensures s'.live == s.live - {i} && s'.counted == s.counted && s.commits <= s'.commits
    ensures Commits(s.nodes[v], e.node) ==> e.node.log[..e.node.commitIndex + 1] in s'.commits
  {
    var a := Deliver(v, i);
    NothingLive(s.net, e.out);
    StepIsReachable(s, a, d);
    StepLooks(s, a, e);
    s' := Step(s, a);
    assert forall j :: j in s.live ==> s'.net[j] == s.net[j];
  }

  /** The leader reads an answer and sends its follower the next entry. */
  lemma AnsweredOn(s: Sys, v: NodeId, i: nat, m: Msg, e: Effect, d: Demand) returns (s': Sys)
    requires s in Calm(d) && v < |s.nodes| && i in s.live && s.net[i] == m && m.Ack? && m.receiver == v && m.sender != v
    requires s.nodes[v].loop.InLeader? && s.nodes[v].id == v && Act(s.nodes[v], Receive(m)) == e
    requires e.out != [] && e.out[0].AppendEntries? && e.out[0].receiver == m.sender && NoReplication(e.out[1..])
    ensures s' in Calm(d) && s'.nodes == s.nodes[v := e.node] && s'.net == s.net + e.out
    ensures s'.live == s.live - {i} + {|s.net|} && s'.counted == s.counted && s.commits <= s'.commits
  {
    var a := Deliver(v, i);
    StepIsReachable(s, a, d);
    StepLooks(s, a, e);
    s' := Step(s, a);
    OneIsLive(s.net, e.out);
    NextIsCalm(s, s', i, e.out, d);
  }

  lemma OneIsLive(net: seq<Msg>, out: seq<Msg>)
    requires out != [] && out[0].IsReplication() && NoReplication(out[1..])
    ensures NewLive(|net|, net + out) == {|net|}
  {
    forall i | |net| < i < |net + out|
      ensures !(net + out)[i].IsReplication()
    {
      assert (net + out)[i] == out[1..][i - |net| - 1];
    }
  }

  /** The next entry takes the place of the answer. */
  lemma NextIsCalm(s: Sys, s': Sys, i: nat, out: seq<Msg>, d: Demand)
    requires s in Calm(d) && Reachable(s', d) && SysOk(s') && i in s.live && s.net[i].Ack?
    requires out != [] && out[0].AppendEntries? && out[0].receiver == s.net[i].sender
    requires s.net[i].sender != s.net[i].receiver
    requires s'.net == s.net + out && s'.live == s.live - {i} + {|s.net|}
    ensures s' in Calm(d)
  {
    assert forall j :: j in s.live ==> s'.net[j] == s.net[j];
    assert s'.net[|s.net|] == out[0];
    assert forall f :: Concerns(out[0], f) ==> Concerns(s.net[i], f);
  }

  /** The messages `out` concern different followers, none of which has a message outstanding. */
  ghost predicate Apart(s: Sys, out: seq<Msg>) {
    forall j, f :: 0 <= j < |out| && Concerns(out[j], f) ==>
      && (forall i :: i in s.live && i < |s.net| ==> !Concerns(s.net[i], f))
      && (forall k :: 0 <= k < |out| && Concerns(out[k], f) ==> k == j)
  }

  /** A leader's turn that sends replication messages. */
  lemma Sends(s: Sys, v: NodeId, ev: Event, e: Effect, d: Demand) returns (s': Sys)
    requires s in Calm(d) && v < |s.nodes| && !ev.Receive? && Enabled(s.nodes[v], ev) && Act(s.nodes[v], ev) == e
    requires ev.Enter? && s.nodes[v].role.Leader? ==>
               (d.AllBut? && d.dropped.ReignsApart?) || DisjointReigns(s, Turn(v, ev))
    requires ev.TakeClient? ==> (d.AllBut? && d.dropped.OwnStamps?) || OwnTermStamp(s, Turn(v, ev))
    requires (d.AllBut? && d.dropped.OneOutstanding?) || Apart(s, e.out)
    ensures s' in Calm(d) && s'.nodes == s.nodes[v := e.node] && s'.net == s.net + e.out
    ensures s'.live == s.live + NewLive(|s.net|, s.net + e.out)
    ensures s'.counted == s.counted && s.commits <= s'.commits
  {
    var a := Turn(v, ev);
    StepIsReachable(s, a, d);
    StepLooks(s, a, e);
    s' := Step(s, a);
    SendingIsCalm(s, s', e.out, d);
  }

  lemma SendingIsCalm(s: Sys, s': Sys, out: seq<Msg>, d: Demand)
    requires s in Calm(d) && Reachable(s', d) && SysOk(s')
    requires s'.net == s.net + out && s'.live == s.live + NewLive(|s.net|, s.net + out)
    requires (d.AllBut? && d.dropped.OneOutstanding?) || Apart(s, out)
    ensures s' in Calm(d)
  {
    if !(d.AllBut? && d.dropped.OneOutstanding?) {
      forall f, i, j | i in s'.live && j in s'.live && Concerns(s'.net[i], f) && Concerns(s'.net[j], f)
        ensures i == j
      {
        assert i >= |s.net| ==> s'.net[i] == out[i - |s.net|];
        assert j >= |s.net| ==> s'.net[j] == out[j - |s.net|];
      }
    }
  }

  /** A client gives the leader a value, which it appends with its own term and sends. */
  lemma ClientAppends(s: Sys, v: NodeId, value: string, id: int, e: Effect, d: Demand) returns (s': Sys)
    requires s in Calm(d) && v < |s.nodes| && s.nodes[v].loop.InLeader? && s.nodes[v].clientQueue == []
    requires NodeOk(s.nodes[v].(clientQueue := [Entry(s.nodes[v].term, value, id)]))
    requires Act(s.nodes[v].(clientQueue := [Entry(s.nodes[v].term, value, id)]), TakeClient) == e
    requires (d.AllBut? && d.dropped.OneOutstanding?) || Apart(s, e.out)
    ensures s' in Calm(d) && s'.nodes == s.nodes[v := e.node] && s'.net == s.net + e.out
    ensures s'.live == s.live + NewLive(|s.net|, s.net + e.out)
    ensures s'.counted == s.counted && s.commits <= s'.commits
  {
    var n := s.nodes[v].(clientQueue := [Entry(s.nodes[v].term, value, id)]);
    assert [] + [Entry(s.nodes[v].term, value, id)] == n.clientQueue;
    s' := Quiet(s, v, Enqueue(value, id), Effect(n, []), d);
    assert s'.net == s.net && s'.nodes[v] == n;
    s' := Sends(s', v, TakeClient, e, d);
  }

  /** A replication message is lost. */
  lemma Drop(s: Sys, i: nat, d: Demand) returns (s': Sys)
    requires s in Calm(d) && i in s.live
    ensures s' in Calm(d) && At(s', s.nodes, s.net, s.live - {i}, s.counted)
  {
    s' := Step(s, Lose(i));
    StepIsReachable(s, Lose(i), d);
  }

  /** All outstanding replication messages are lost. */
  lemma {:induction false} DropAll(s: Sys, d: Demand) returns (s': Sys)
    requires s in Calm(d)
    ensures s' in Calm(d) && At(s', s.nodes, s.net, {}, s.counted)
    decreases s.live
  {
    if s.live == {} {
      s' := s;
    } else {
      var i :| i in s.live;
      s' := Drop(s, i, d);
      s' := DropAll(s', d);
    }
  }

  // ---- campaigns and reigns ----

  /** A node that has just opened a campaign. */
  function Candidacy(n: Node): Node {
    n.(role := Candidate, loop := InCandidate(0, 0), term := n.term + 1, votedFor := Some(n.id))
  }

  function CampaignOut(n: Node): seq<Msg> {
    [RequestVotes(n.term + 1, n.id, n.lastAppliedIndex, n.lastAppliedTerm), Vote(n.term + 1, n.id, n.id, true)]
  }

  /** A follower's or a candidate's timer runs out, and it campaigns. */
  lemma Campaigns(s: Sys, v: NodeId, d: Demand) returns (s': Sys)
    requires s in Calm(d) && v < |s.nodes| && (s.nodes[v].loop.InFollower? || s.nodes[v].loop.InCandidate?)
    ensures s' in Calm(d) && After(s, v, Effect(Candidacy(s.nodes[v]), CampaignOut(s.nodes[v])), s.counted, s')
  {
    var n := s.nodes[v];
    s' := Quiet(s, v, Timeout, Effect(n.(role := Candidate, loop := Idle), []), d);
    s' := Quiet(s', v, Enter, Effect(Candidacy(n), CampaignOut(n)), d);
  }

  /** The rows of a leader whose followers are all behind by its last entry. */
  function Waiting(size: nat, id: NodeId, index: nat): (r: seq<Option<nat>>)
    ensures |r| == size
  {
    seq(size, f => if f == id then None else Some(index))
  }

  /** A node as it opens its reign. */
  function Reigning(n: Node): (n': Node)
    requires NodeOk(n)
    ensures |n'.log| == |n.log| + 1
  {
    Extended(n, Entry(n.term, "Leader Entry", -1)).(
      leaderId := Some(n.id), loop := InLeader,
      nextIndex := Waiting(n.size, n.id, |n.log|), matchIndex := Rows(n.size, n.commitIndex)[n.id := |n.log|])
  }

  /** The last entry of a leader, to each node in turn. */
  function Copies(n: Node, count: nat): (r: seq<Msg>)
    requires |n.log| > 1
    ensures |r| == count && forall f :: 0 <= f < count ==> r[f] == ReplicationOf(n, f, |n.log| - 1)
  {
    seq(count, (f: nat) => ReplicationOf(n, f, |n.log| - 1))
  }

  lemma {:induction false} BroadcastsToAll(n: Node, size: nat, k: nat)
    requires |n.log| > 1 && k <= size
    ensures Broadcasts(n, Rows(size, None), |n.log| - 1, k) == Copies(n, k)
  {
    if k > 0 {
      BroadcastsToAll(n, size, k - 1);
      assert Copies(n, k) == Copies(n, k - 1) + [ReplicationOf(n, k - 1, |n.log| - 1)];
    } else {
      assert Copies(n, 0) == [];
    }
  }

  /** Only the fields that a message carries matter for the copies. */
  lemma SameCopies(n: Node, n': Node, count: nat)
    requires |n.log| > 1 && n.log == n'.log && n.id == n'.id && n.term == n'.term && n.commitIndex == n'.commitIndex
    ensures Copies(n, count) == Copies(n', count)
  {
  }

  /** The opening of a reign sends the first entry to everyone. */
  lemma OpeningIs(n: Node)
    requires NodeOk(n)
    ensures StartReign(n) == Effect(Reigning(n), [Heartbeat(n.term, n.id)] + Copies(Reigning(n), n.size))
  {
    var n0 := Crowned(n);
    var n' := Extended(n0, Entry(n.term, "Leader Entry", -1));
    BroadcastsToAll(n', n.size, n.size);
    SameCopies(n', Reigning(n), n.size);
    assert MarkBehind(n0.nextIndex, |n.log|, n.size)[n.id := None] == Waiting(n.size, n.id, |n.log|);
  }

  /** The positions of the copies that an opening puts behind `p` older messages. */
  function CopiesAt(p: nat, size: nat): (r: set<nat>)
    ensures forall i :: i in r <==> p < i <= p + size
  {
    if size == 0 then {} else CopiesAt(p, size - 1) + {p + size}
  }

  lemma CopiesLive(net: seq<Msg>, beat: Msg, n: Node, size: nat)
    requires |n.log| > 1 && beat.Heartbeat?
    ensures NewLive(|net|, net + ([beat] + Copies(n, size))) == CopiesAt(|net|, size)
  {
    var out := [beat] + Copies(n, size);
    forall i | |net| <= i < |net + out|
      ensures (net + out)[i].IsReplication() <==> i > |net|
    {
      assert (net + out)[i] == out[i - |net|];
    }
  }

  lemma CopiesApart(s: Sys, beat: Msg, n: Node, size: nat)
    requires |n.log| > 1 && beat.Heartbeat? && s.live == {}
    ensures Apart(s, [beat] + Copies(n, size))
  {
    var out := [beat] + Copies(n, size);
    forall j, f | 0 <= j < |out| && Concerns(out[j], f)
      ensures f == j - 1
    {
    }
  }

  /** A reign opens with no replication message outstanding. */
  lemma Opens(s: Sys, v: NodeId, d: Demand) returns (s': Sys)
    requires s in Calm(d) && s.live == {} && v < |s.nodes| && s.nodes[v].loop.Idle? && s.nodes[v].role.Leader?
    requires (d.AllBut? && d.dropped.ReignsApart?) || forall w :: 0 <= w < |s.nodes| ==> !s.nodes[w].loop.InLeader?
    ensures NodeOk(s.nodes[v]) && s' in Calm(d)
    ensures var n := s.nodes[v];
            At(s', s.nodes[v := Reigning(n)], s.net + ([Heartbeat(n.term, n.id)] + Copies(Reigning(n), n.size)),
               CopiesAt(|s.net|, n.size), s.counted)
  {
    var n := s.nodes[v];
    var beat := Heartbeat(n.term, n.id);
    OpeningIs(n);
    CopiesLive(s.net, beat, Reigning(n), n.size);
    CopiesApart(s, beat, Reigning(n), n.size);
    s' := Sends(s, v, Enter, Effect(Reigning(n), [beat] + Copies(Reigning(n), n.size)), d);
  }
}
