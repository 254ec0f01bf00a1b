/**
 * Agreement under one leader, whatever the network does and whatever terms client entries carry: from
 * the opening of a reign on equal logs every log is a prefix of the leader's (raft.py:245-251, 578-652).
 */
module StableReign {
  import opened RaftTypes
  import opened RaftSpec
  import opened RaftSystem
  import M = LogMatching

  // ---- a reign that opens on equal logs ----

  /** The step opens a reign when nobody else leads and all logs are `base`. */
  ghost predicate OpensOn(s: Sys, a: Action, base: seq<Entry>) {
    && CanAct(s, a) && !a.Lose? && OpensReign(s.nodes[a.v], EffectOf(s, a).node)
    && forall v :: 0 <= v < |s.nodes| ==> s.nodes[v].log == base && !s.nodes[v].loop.InLeader?
  }

  ghost predicate OpensNothing(s: Sys, a: Action)
    requires CanAct(s, a)
  {
    !a.Lose? ==> !OpensReign(s.nodes[a.v], EffectOf(s, a).node)
  }

  /** Of the appends sent before position `from`, the step delivers only what carries an entry of `base`. */
  ghost predicate CarriesOld(s: Sys, a: Action, base: seq<Entry>, from: nat)
    requires CanAct(s, a)
  {
    a.Deliver? && a.position < from ==> M.Carries(base, s.net[a.position])
  }

  /** All logs are prefixes of the reign's log, and all appends sent since carry entries of it. */
  ghost predicate Agreed(s: Sys, base: seq<Entry>, from: nat) {
    && SysOk(s)
    && s.reigning.Some? && s.reigning.value < |s.nodes| && s.reignTerm in s.reigns
    && var log := s.reigns[s.reignTerm];
    && base <= log
    && (forall v :: 0 <= v < |s.nodes| ==> s.nodes[v].log <= log)
    && (forall i :: from <= i < |s.net| ==> M.Carries(log, s.net[i]))
    && (forall v :: 0 <= v < |s.nodes| && s.nodes[v].loop.InLeader? ==>
          v == s.reigning.value && s.nodes[v].term == s.reignTerm && s.nodes[v].log == log)
  }

  /** The actor's log after its turn, and what it sends, against the reign's log. */
  lemma TurnAgrees(n: Node, ev: Event, log: seq<Entry>)
    requires NodeOk(n) && Enabled(n, ev) && n.log <= log
    requires n.loop.InLeader? ==> n.log == log
    requires Act(n, ev).node.loop.InLeader? ==> n.loop.InLeader?
    requires ev.Receive? ==> M.Carries(log, ev.msg)
    ensures var e := Act(n, ev); var log' := if e.node.loop.InLeader? then e.node.log else log;
            && log <= log' && e.node.log <= log'
            && (e.node.loop.InLeader? ==> e.node.term == n.term)
            && forall m :: m in e.out ==> M.Carries(log', m)
  {
    M.TurnLogs(n, ev);
    M.TurnReplicates(n, ev);
    if M.Accepts(n, ev) {
      var k := ev.msg.prevIndex;
      assert n.log[..k + 1] + [ev.msg.entry] == log[..k + 2];
    }
  }

  lemma StepKeepsAgreement(s: Sys, a: Action, base: seq<Entry>, from: nat)
    requires Agreed(s, base, from) && CanAct(s, a) && OpensNothing(s, a) && CarriesOld(s, a, base, from)
    ensures Agreed(Step(s, a), base, from)
  {
    StepKeepsSysOk(s, a);
    if !a.Lose? {
      var n, e, s' := s.nodes[a.v], EffectOf(s, a), Step(s, a);
      var log := s.reigns[s.reignTerm];
      TurnAgrees(n, EventOf(s, a), log);
      forall i | from <= i < |s'.net|
        ensures M.Carries(s'.reigns[s'.reignTerm], s'.net[i])
      {
        if i < |s.net| {
          assert M.Carries(log, s.net[i]);
        } else {
          assert s'.net[i] in e.out;
        }
      }
    }
  }

  lemma OpeningAgrees(s: Sys, a: Action, base: seq<Entry>)
    requires OpensOn(s, a, base)
    ensures Agreed(Step(s, a), base, |s.net|)
  {
    var n, ev, e, s' := s.nodes[a.v], EventOf(s, a), EffectOf(s, a), Step(s, a);
    StepKeepsSysOk(s, a);
    M.TurnLogs(n, ev);
    M.TurnReplicates(n, ev);
    forall i | |s.net| <= i < |s'.net|
      ensures M.Replicates(e.node, s'.net[i])
    {
      assert s'.net[i] in e.out;
    }
  }

  /**
   * From step `j` on there is one reign: it opens on equal logs, no other reign opens after it, and
   * whatever append of an earlier reign is still delivered carries an entry of the common log.
   */
  ghost predicate StableFrom(states: seq<Sys>, actions: seq<Action>, j: nat, base: seq<Entry>) {
    && IsRun(states, actions) && j < |actions|
    && OpensOn(states[j], actions[j], base)
    && forall i :: j < i < |actions| ==> Steady(states[i], actions[i], base, |states[j].net|)
  }

  ghost predicate Steady(s: Sys, a: Action, base: seq<Entry>, from: nat) {
    CanAct(s, a) && OpensNothing(s, a) && CarriesOld(s, a, base, from)
  }

  lemma {:induction false} StableKeepsAgreement(states: seq<Sys>, actions: seq<Action>, j: nat, base: seq<Entry>,
                                                     k: nat)
    requires StableFrom(states, actions, j, base) && j < k <= |actions|
    ensures Agreed(states[k], base, |states[j].net|)
  {
    assert Moves(states[k - 1], actions[k - 1], states[k]);
    if k == j + 1 {
      OpeningAgrees(states[j], actions[j], base);
    } else {
      StableKeepsAgreement(states, actions, j, base, k - 1);
      assert Steady(states[k - 1], actions[k - 1], base, |states[j].net|);
      StepKeepsAgreement(states[k - 1], actions[k - 1], base, |states[j].net|);
    }
  }

  /**
   * In a reign that opened on equal logs, first or later, any node's log is a prefix of its leader's
   * while it leads.
   */
  lemma LogsArePrefixes(states: seq<Sys>, actions: seq<Action>, j: nat, base: seq<Entry>, k: nat, leader: NodeId,
                        v: NodeId)
    requires StableFrom(states, actions, j, base) && j < k <= |actions|
    requires leader < |states[k].nodes| && v < |states[k].nodes| && states[k].nodes[leader].loop.InLeader?
    ensures base <= states[k].nodes[leader].log
    ensures states[k].nodes[v].log <= states[k].nodes[leader].log
  {
    StableKeepsAgreement(states, actions, j, base, k);
  }

  // ---- the first reign of a cluster ----

  /** Before any reign the logs are those of the start, and nothing has been replicated. */
  ghost predicate Unled(s: Sys) {
    && SysOk(s) && s.reigning.None? && s.live == {} && s.commits == {}
    && (forall v :: 0 <= v < |s.nodes| ==>
          s.nodes[v].log == [INIT_ENTRY] && s.nodes[v].logHash == map[] && !s.nodes[v].loop.InLeader?)
    && (forall i :: 0 <= i < |s.net| ==> !s.net[i].IsReplication())
  }

  /** Outside the leader loop only an append is answered, and only a leader appends. */
  lemma UnledTurn(n: Node, ev: Event)
    requires NodeOk(n) && Enabled(n, ev) && !n.loop.InLeader? && !Act(n, ev).node.loop.InLeader?
    requires ev.Receive? ==> !ev.msg.IsReplication()
    ensures Act(n, ev).node.log == n.log && Act(n, ev).node.logHash == n.logHash
    ensures forall m :: m in Act(n, ev).out ==> !m.IsReplication()
  {
    match ev
    case Receive(m) =>
      if n.loop.InFollower? {
        UnledFollower(n, m);
      } else {
        UnledCandidate(n, m);
      }
    case _ =>
  }

  lemma UnledFollower(n: Node, m: Msg)
    requires NodeOk(n) && n.loop.InFollower? && !m.IsReplication()
    ensures var e := FollowerMessage(n, m);
            e.node.log == n.log && e.node.logHash == n.logHash && forall x :: x in e.out ==> !x.IsReplication()
  {
  }

  lemma UnledCandidate(n: Node, m: Msg)
    requires NodeOk(n) && n.loop.InCandidate?
    ensures var e := CandidateMessage(n, m);
            e.node.log == n.log && e.node.logHash == n.logHash && forall x :: x in e.out ==> !x.IsReplication()
  {
  }

  lemma StepKeepsUnled(s: Sys, a: Action)
    requires Unled(s) && CanAct(s, a) && Step(s, a).reigning.None?
    ensures Unled(Step(s, a))
  {
    StepKeepsSysOk(s, a);
    if !a.Lose? {
      var s', out := Step(s, a), EffectOf(s, a).out;
      UnledTurn(s.nodes[a.v], EventOf(s, a));
      forall i | |s.net| <= i < |s'.net|
        ensures !s'.net[i].IsReplication()
      {
        assert s'.net[i] in out;
      }
      assert s'.live == {};
    }
  }

  lemma {:induction false} UnledUntilFirst(states: seq<Sys>, actions: seq<Action>, k: nat)
    requires IsRun(states, actions) && k <= |actions| && states[k].reigning.None?
    ensures Unled(states[k])
  {
    if k > 0 {
      assert Moves(states[k - 1], actions[k - 1], states[k]);
      UnledUntilFirst(states, actions, k - 1);
      StepKeepsUnled(states[k - 1], actions[k - 1]);
    }
  }

  /** A step opens a reign only if none has opened before. */
  ghost predicate FirstReign(s: Sys, a: Action)
    requires CanAct(s, a)
  {
    !a.Lose? && OpensReign(s.nodes[a.v], EffectOf(s, a).node) ==> s.reigning.None?
  }

  ghost predicate OneReign(states: seq<Sys>, actions: seq<Action>) {
    && IsRun(states, actions)
    && forall k :: 0 <= k < |actions| ==> MovesFirst(states[k], actions[k], states[k + 1])
  }

  ghost predicate MovesFirst(s: Sys, a: Action, s': Sys) {
    Moves(s, a, s') && FirstReign(s, a)
  }

  /** The step at which the first reign opens. */
  lemma {:induction false} FirstOpening(states: seq<Sys>, actions: seq<Action>, k: nat) returns (j: nat)
    requires IsRun(states, actions) && k <= |actions| && states[k].reigning.Some?
    ensures j < k && states[j].reigning.None? && states[j + 1].reigning.Some?
  {
    if k == 0 {
      assert false;
    } else {
      assert Moves(states[k - 1], actions[k - 1], states[k]);
      if states[k - 1].reigning.None? {
        j := k - 1;
      } else {
        j := FirstOpening(states, actions, k - 1);
      }
    }
  }

  lemma {:induction false} StaysReigning(states: seq<Sys>, actions: seq<Action>, j: nat, i: nat)
    requires IsRun(states, actions) && j <= i <= |actions| && states[j].reigning.Some?
    ensures states[i].reigning.Some?
  {
    if j < i {
      StaysReigning(states, actions, j, i - 1);
      assert Moves(states[i - 1], actions[i - 1], states[i]);
    }
  }

  /** The first reign of a cluster is a stable one, on the log that every node starts with. */
  lemma FirstReignIsStable(states: seq<Sys>, actions: seq<Action>, k: nat) returns (j: nat)
    requires OneReign(states, actions) && k <= |actions| && states[k].reigning.Some?
    ensures j < k && StableFrom(states, actions, j, [INIT_ENTRY]) && Unled(states[j])
  {
    j := FirstOpening(states, actions, k);
    UnledUntilFirst(states, actions, j);
    assert Moves(states[j], actions[j], states[j + 1]);
    forall i | j < i < |actions|
      ensures Steady(states[i], actions[i], [INIT_ENTRY], |states[j].net|)
    {
      SentStays(states, actions, j, i);
      StaysReigning(states, actions, j + 1, i);
      assert MovesFirst(states[i], actions[i], states[i + 1]);
    }
  }

  /** What was sent stays in the network. */
  lemma {:induction false} SentStays(states: seq<Sys>, actions: seq<Action>, j: nat, i: nat)
    requires IsRun(states, actions) && j <= i <= |actions|
    ensures states[j].net <= states[i].net
  {
    if j < i {
      SentStays(states, actions, j, i - 1);
      assert Moves(states[i - 1], actions[i - 1], states[i]);
    }
  }

  /** So in a run with one reign every log is a prefix of the leader's. */
  lemma FirstLogsArePrefixes(states: seq<Sys>, actions: seq<Action>, k: nat, leader: NodeId, v: NodeId)
    requires OneReign(states, actions) && k <= |actions|
    requires leader < |states[k].nodes| && v < |states[k].nodes| && states[k].nodes[leader].loop.InLeader?
    ensures states[k].nodes[v].log <= states[k].nodes[leader].log
  {
    if states[k].reigning.None? {
      UnledUntilFirst(states, actions, k);
    } else {
      var j := FirstReignIsStable(states, actions, k);
      LogsArePrefixes(states, actions, j, [INIT_ENTRY], k, leader, v);
    }
  }
}
