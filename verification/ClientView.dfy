/**
 * What a client's query without an id sees (raft.py:120-132): in a reign that opens on equal logs the
 * commit index of every node, also of a follower that takes a Committal unchecked, points into its log.
 */
module ClientView {
  import opened Options
  import opened RaftTypes
  import opened RaftSpec
  import opened RaftLocal
  import opened RaftSystem
  import C = CommitSafety
  import M = LogMatching
  import S = StableReign

  predicate InLog(n: Node) {
    n.commitIndex < |n.log|
  }

  /** A Committal points below something that was committed. */
  ghost predicate CommittalOk(commits: set<seq<Entry>>, m: Msg) {
    m.Committal? ==> exists p :: p in commits && m.index < |p|
  }

  /** While the follower would accept appends, its log ends no later than the entry it is to be sent. */
  ghost predicate NotLonger(s: Sys, f: NodeId)
    requires SysOk(s) && f < |s.nodes| && s.reigning.Some? && s.reigning.value < |s.nodes|
  {
    var next := s.nodes[s.reigning.value].nextIndex[f];
    next.Some? && s.nodes[f].term <= s.reignTerm ==> |s.nodes[f].log| <= next.value + 1
  }

  ghost predicate CommittalsOk(s: Sys) {
    forall i :: 0 <= i < |s.net| ==> CommittalOk(s.commits, s.net[i])
  }

  ghost predicate AllInLog(s: Sys) {
    forall v :: 0 <= v < |s.nodes| ==> InLog(s.nodes[v])
  }

  ghost predicate Inv(s: Sys) {
    && SysOk(s) && AllInLog(s) && CommittalsOk(s)
    && s.reigning.Some? && s.reigning.value < |s.nodes|
    && forall f :: 0 <= f < |s.nodes| && f != s.reigning.value ==> NotLonger(s, f)
  }

  /** All that is known in a stable reign with orderly delivery; what is outstanding was sent in it. */
  ghost predicate Context(s: Sys, base: seq<Entry>, from: nat) {
    C.Inv(s) && C.Matching(s) && S.Agreed(s, base, from) && forall i :: i in s.live ==> from <= i
  }

  /** Prefixes of one log match, whatever the terms in it. */
  lemma PrefixesMatch(s: Sys, base: seq<Entry>, from: nat)
    requires S.Agreed(s, base, from) && forall i :: i in s.live ==> from <= i
    ensures C.Matching(s)
  {
  }

  ghost predicate Fine(s: Sys, a: Action)
    requires CanAct(s, a)
  {
    C.OrderlyDelivery(s, a) && S.OpensNothing(s, a)
  }

  /** A step in the reign, in a state of which all is known. */
  ghost predicate InReign(s: Sys, a: Action, base: seq<Entry>, from: nat) {
    Inv(s) && Context(s, base, from) && CanAct(s, a) && Fine(s, a)
  }

  lemma StepKeepsContext(s: Sys, a: Action, base: seq<Entry>, from: nat)
    requires Context(s, base, from) && CanAct(s, a) && Fine(s, a) && from <= |s.net|
    ensures Context(Step(s, a), base, from)
  {
    var s' := Step(s, a);
    assert S.CarriesOld(s, a, base, from);
    S.StepKeepsAgreement(s, a, base, from);
    C.StepKeepsInv(s, a);
    assert forall i :: i in s'.live ==> i in s.live || i >= |s.net|;
    PrefixesMatch(s', base, from);
  }

  // ---- committals ----

  lemma BroadcastsNoCommittal(n: Node, ev: Event)
    requires NodeOk(n) && Enabled(n, ev)
    ensures !(n.loop.InLeader? && ev.Receive? && ev.msg.Ack?) ==> forall m :: m in Act(n, ev).out ==> !m.Committal?
  {
    match ev
    case Receive(m) =>
      if n.loop.InLeader? && m.ClientRequest? {
        BroadcastIsReplication(n, m.entry);
      }
    case Enter =>
      if n.role.Leader? {
        BroadcastIsReplication(Crowned(n), Entry(n.term, "Leader Entry", -1));
      }
    case TakeClient =>
      if n.clientQueue != [] {
        BroadcastIsReplication(n.(clientQueue := n.clientQueue[1..]), n.clientQueue[0]);
      }
    case _ =>
  }

  /** The leader tells of the index it has just committed. */
  lemma AckCommittals(n: Node, f: NodeId, success: bool)
    requires NodeOk(n) && n.loop.InLeader? && f < n.size
    ensures var e := LeaderAck(n, f, success);
            forall m :: m in e.out && m.Committal? ==>
              m.index == e.node.commitIndex > n.commitIndex && e.node.commitIndex < |e.node.log|
  {
    if n.nextIndex[f].Some? {
      var moved := UpdateProgress(n, f, success);
      assert forall m :: m in moved.out ==> m.AppendEntries?;
      assert moved.node.matchIndex[n.id] == n.LastIndex();
    }
  }

  lemma StepKeepsCommittals(s: Sys, a: Action)
    requires CommittalsOk(s) && CanAct(s, a) && !a.Lose?
    ensures CommittalsOk(Step(s, a))
  {
    var n, ev, e, s' := s.nodes[a.v], EventOf(s, a), EffectOf(s, a), Step(s, a);
    BroadcastsNoCommittal(n, ev);
    if n.loop.InLeader? && ev.Receive? && ev.msg.Ack? {
      AckCommittals(n, ev.msg.sender, ev.msg.success);
    }
    forall i | 0 <= i < |s'.net|
      ensures CommittalOk(s'.commits, s'.net[i])
    {
      if i < |s.net| {
        assert CommittalOk(s.commits, s.net[i]);
      } else {
        assert s'.net[i] in e.out;
        if s'.net[i].Committal? {
          assert e.node.log[..e.node.commitIndex + 1] in s'.commits;
        }
      }
    }
  }

  /** In every run over any network a Committal points below something that was committed. */
  lemma {:induction false} RunKeepsCommittals(states: seq<Sys>, actions: seq<Action>, k: nat)
    requires IsRun(states, actions) && k <= |actions|
    ensures CommittalsOk(states[k])
  {
    if k > 0 {
      RunKeepsCommittals(states, actions, k - 1);
      assert Moves(states[k - 1], actions[k - 1], states[k]);
      if !actions[k - 1].Lose? {
        StepKeepsCommittals(states[k - 1], actions[k - 1]);
      }
    }
  }

  // ---- the acting node ----

  /** Where a turn can put the commit index. */
  lemma TurnCommits(n: Node, ev: Event)
    requires NodeOk(n) && Enabled(n, ev)
    ensures var n' := Act(n, ev).node;
            || n'.commitIndex == n.commitIndex
            || (&& n.loop.InFollower? && ev.Receive? && ev.msg.Committal?
                && n'.commitIndex == ev.msg.index && n'.log == n.log)
            || (M.Accepts(n, ev) && n'.commitIndex == ev.msg.prevIndex)
            || (n.loop.InLeader? && n'.loop.InLeader? && n'.commitIndex > n.commitIndex)
  {
  }

  /**
   * When a turn keeps the commit index inside the log: an accepted append must commit, or cut nothing
   * at or below the commit index; and a follower's Committal must point into the log.
   */
  lemma StaysInLogIff(n: Node, ev: Event)
    requires NodeOk(n) && Enabled(n, ev) && InLog(n)
    ensures InLog(Act(n, ev).node) <==>
            && (M.Accepts(n, ev) ==> ev.msg.leaderCommit > n.commitIndex || n.commitIndex <= ev.msg.prevIndex + 1)
            && (n.loop.InFollower? && ev.Receive? && ev.msg.Committal? ==> ev.msg.index < |n.log|)
  {
    TurnCommits(n, ev);
    M.TurnLogs(n, ev);
    if n.loop.InLeader? && Act(n, ev).node.loop.InLeader? {
      ReignGrows(n, ev);
    }
    if M.Accepts(n, ev) {
      AcceptCommits(n, ev.msg);
    } else if n.loop.InFollower? && ev.Receive? && ev.msg.Committal? {
      assert Act(n, ev).node == CommitEntry(n, ev.msg.index, ev.msg.indexTerm);
    }
  }

  lemma AcceptCommits(n: Node, m: Msg)
    requires NodeOk(n) && n.loop.InFollower? && M.Accepts(n, Receive(m))
    ensures FollowerMessage(n, m).node.commitIndex ==
            if m.leaderCommit > n.commitIndex then m.prevIndex else n.commitIndex
  {
  }

  /** With orderly delivery an append cuts at most the entry that it brings again. */
  lemma AcceptCutsLittle(s: Sys, a: Action, base: seq<Entry>, from: nat)
    requires InReign(s, a, base, from) && !a.Lose? && M.Accepts(s.nodes[a.v], EventOf(s, a))
    ensures var log, m := s.nodes[a.v].log, EventOf(s, a).msg;
            |log| <= m.prevIndex + 2 && (|log| == m.prevIndex + 2 ==> log[m.prevIndex + 1] == m.entry)
  {
    var m := EventOf(s, a).msg;
    assert a.position in s.live && a.v != s.reigning.value;
    assert C.FollowerOk(s, a.v) && NotLonger(s, a.v) && Concerns(m, a.v);
    assert M.Carries(s.reigns[s.reignTerm], m);
  }

  lemma ActorInLog(s: Sys, a: Action, base: seq<Entry>, from: nat)
    requires InReign(s, a, base, from) && !a.Lose?
    ensures InLog(EffectOf(s, a).node)
  {
    var n, ev := s.nodes[a.v], EventOf(s, a);
    StaysInLogIff(n, ev);
    if M.Accepts(n, ev) {
      AcceptCutsLittle(s, a, base, from);
    } else if ev.Receive? && ev.msg.Committal? {
      assert CommittalOk(s.commits, s.net[a.position]);
    }
  }

  // ---- lengths ----

  /** A follower's own turn: it has what it was sent, or what it had. */
  lemma FollowerNotLonger(s: Sys, a: Action, base: seq<Entry>, from: nat)
    requires InReign(s, a, base, from) && !a.Lose?
    requires a.v != s.reigning.value && SysOk(Step(s, a)) && Step(s, a).reigning == s.reigning
    requires Step(s, a).reignTerm == s.reignTerm && !EffectOf(s, a).node.loop.InLeader?
    ensures NotLonger(Step(s, a), a.v)
  {
    var n, ev := s.nodes[a.v], EventOf(s, a);
    M.TurnLogs(n, ev);
    TermsNeverDecrease(n, ev);
    assert NotLonger(s, a.v);
    if M.Accepts(n, ev) {
      assert a.position in s.live && Concerns(ev.msg, a.v) && C.FollowerOk(s, a.v);
    }
  }

  /** A leader acts in the reign. */
  ghost predicate LeaderTurn(s: Sys, a: Action, base: seq<Entry>, from: nat, f: NodeId) {
    && InReign(s, a, base, from) && !a.Lose?
    && s.nodes[a.v].loop.InLeader? && SysOk(Step(s, a)) && f < |s.nodes| && f != a.v
  }

  lemma LeaderStays(s: Sys, a: Action, base: seq<Entry>, from: nat, f: NodeId)
    requires LeaderTurn(s, a, base, from, f)
    ensures s.reigning == Some(a.v) == Step(s, a).reigning && Step(s, a).reignTerm == s.reignTerm
    ensures NotLonger(s, f)
  {
    C.LeaderOwnsReign(s, a);
    assert NotLonger(s, f);
  }

  /** A row moves forward with a success, or back behind the end of a log that was found too short. */
  lemma AnswerShortens(r: C.Reign, row: C.Row, n: Node, m: Msg)
    requires row.next.Some? && row.next.value > 0 && C.MsgTruth(r, row, n, m) && m.Ack?
    requires n.term <= r.term ==> |n.log| <= row.next.value + 1 && n.log <= r.log
    ensures var next := C.RowAfter(r, row, m.success).next;
            next.Some? && n.term <= r.term ==> |n.log| <= next.value + 1
  {
  }

  lemma AnswerKeepsShort(s: Sys, a: Action, base: seq<Entry>, from: nat, f: NodeId)
    requires LeaderTurn(s, a, base, from, f) && C.AnswerArrives(s, a)
    ensures Step(s, a).reigning == Some(a.v) && NotLonger(Step(s, a), f)
  {
    var m := s.net[a.position];
    LeaderStays(s, a, base, from, f);
    C.LeaderOwnsReign(s, a);
    C.AnswerKeepsReign(s, a);
    C.AnswerMovesRow(s, a, f);
    if f == m.sender {
      assert C.FollowerOk(s, f) && Concerns(m, f) && a.position in s.live;
      AnswerShortens(C.ReignOf(s), C.RowOf(s.nodes[a.v], f, s.acked), s.nodes[f], m);
    }
  }

  lemma AppendKeepsShort(s: Sys, a: Action, base: seq<Entry>, from: nat, f: NodeId)
    requires LeaderTurn(s, a, base, from, f) && M.Appended(s.nodes[a.v], EventOf(s, a)).Some?
    ensures Step(s, a).reigning == Some(a.v) && NotLonger(Step(s, a), f)
  {
    LeaderStays(s, a, base, from, f);
    C.LeaderOwnsReign(s, a);
    C.AppendTurn(s.nodes[a.v], EventOf(s, a));
  }

  /** The leader's turn keeps every other node's log no longer than its row says. */
  lemma LeaderKeepsShort(s: Sys, a: Action, base: seq<Entry>, from: nat, f: NodeId)
    requires LeaderTurn(s, a, base, from, f)
    ensures s.reigning == Some(a.v) == Step(s, a).reigning && Step(s, a).reignTerm == s.reignTerm
    ensures NotLonger(Step(s, a), f)
  {
    var n, ev := s.nodes[a.v], EventOf(s, a);
    LeaderStays(s, a, base, from, f);
    if M.Appended(n, ev).Some? {
      AppendKeepsShort(s, a, base, from, f);
    } else if ev.Receive? && ev.msg.Ack? {
      if n.nextIndex[ev.msg.sender].Some? {
        AnswerKeepsShort(s, a, base, from, f);
      } else {
        assert EffectOf(s, a) == Effect(n, []);
      }
    } else if !ev.Resend? {
      C.OtherTurn(n, ev);
    }
  }

  lemma StepKeepsLengths(s: Sys, a: Action, base: seq<Entry>, from: nat)
    requires InReign(s, a, base, from) && !a.Lose? && SysOk(Step(s, a))
    ensures Step(s, a).reigning == s.reigning
    ensures forall f :: 0 <= f < |s.nodes| && f != s.reigning.value ==> NotLonger(Step(s, a), f)
  {
    var n, ev, s' := s.nodes[a.v], EventOf(s, a), Step(s, a);
    forall f | 0 <= f < |s.nodes| && f != s.reigning.value
      ensures NotLonger(s', f)
    {
      if n.loop.InLeader? {
        C.LeaderOwnsReign(s, a);
        LeaderKeepsShort(s, a, base, from, f);
      } else {
        C.FollowerTurn(n, ev);
        if f == a.v {
          FollowerNotLonger(s, a, base, from);
        } else {
          assert NotLonger(s, f);
        }
      }
    }
  }

  lemma StepKeepsInv(s: Sys, a: Action, base: seq<Entry>, from: nat)
    requires InReign(s, a, base, from)
    ensures Inv(Step(s, a))
  {
    StepKeepsSysOk(s, a);
    if a.Lose? {
      var s' := Step(s, a);
      assert forall f :: 0 <= f < |s.nodes| && f != s.reigning.value ==> NotLonger(s, f) ==> NotLonger(s', f);
    } else {
      ActorInLog(s, a, base, from);
      StepKeepsCommittals(s, a);
      StepKeepsLengths(s, a, base, from);
    }
  }

  // ---- a reign that serves its clients ----

  /** The opening of a reign on equal logs, with the commit index of every node inside them. */
  lemma OpeningKeepsInv(s: Sys, a: Action, base: seq<Entry>)
    requires S.OpensOn(s, a, base) && C.OrderlyDelivery(s, a) && C.Inv(s) && AllInLog(s) && CommittalsOk(s)
    ensures Inv(Step(s, a)) && Context(Step(s, a), base, |s.net|)
  {
    var n, ev, s' := s.nodes[a.v], EventOf(s, a), Step(s, a);
    StepKeepsSysOk(s, a);
    C.OpeningTurn(n, ev);
    C.OpeningStep(s, a);
    S.OpeningAgrees(s, a, base);
    StepKeepsCommittals(s, a);
    assert s.live == {};
    assert forall i :: i in s'.live ==> i >= |s.net|;
    PrefixesMatch(s', base, |s.net|);
  }

  /**
   * From step `j` on there is one reign with orderly delivery: it opens on equal logs with all commit
   * indices inside them, and no other reign opens after it. What the leaders before have committed
   * is on every node, as it is in orderly runs.
   */
  ghost predicate ServedFrom(states: seq<Sys>, actions: seq<Action>, j: nat, base: seq<Entry>) {
    && IsRun(states, actions) && j < |actions|
    && S.OpensOn(states[j], actions[j], base) && C.OrderlyDelivery(states[j], actions[j])
    && C.Inv(states[j]) && AllInLog(states[j])
    && forall i :: j < i < |actions| ==> FineStep(states[i], actions[i])
  }

  ghost predicate FineStep(s: Sys, a: Action) {
    CanAct(s, a) && Fine(s, a)
  }

  /** All that is known of a state of such a reign. */
  ghost predicate Served(s: Sys, base: seq<Entry>, from: nat) {
    Inv(s) && Context(s, base, from) && from <= |s.net|
  }

  /** All such states. */
  ghost function Serving(base: seq<Entry>, from: nat): iset<Sys> {
    iset s | Served(s, base, from)
  }

  lemma StepServes(s: Sys, a: Action, base: seq<Entry>, from: nat)
    requires s in Serving(base, from) && FineStep(s, a)
    ensures Step(s, a) in Serving(base, from)
  {
    StepKeepsContext(s, a, base, from);
    StepKeepsInv(s, a, base, from);
  }

  lemma OpeningServes(states: seq<Sys>, actions: seq<Action>, j: nat, base: seq<Entry>)
    requires ServedFrom(states, actions, j, base)
    ensures states[j + 1] in Serving(base, |states[j].net|)
  {
    assert Moves(states[j], actions[j], states[j + 1]);
    RunKeepsCommittals(states, actions, j);
    OpeningKeepsInv(states[j], actions[j], base);
  }

  lemma MoveServes(states: seq<Sys>, actions: seq<Action>, j: nat, base: seq<Entry>, i: nat)
    requires ServedFrom(states, actions, j, base) && j < i < |actions| && states[i] in Serving(base, |states[j].net|)
    ensures FineStep(states[i], actions[i]) && states[i + 1] == Step(states[i], actions[i])
    ensures states[i + 1] in Serving(base, |states[j].net|)
  {
    assert Moves(states[i], actions[i], states[i + 1]) && FineStep(states[i], actions[i]);
    StepServes(states[i], actions[i], base, |states[j].net|);
  }

  lemma {:induction false} ServedKeepsInv(states: seq<Sys>, actions: seq<Action>, j: nat, base: seq<Entry>, k: nat)
    requires ServedFrom(states, actions, j, base) && j < k <= |actions|
    ensures states[k] in Serving(base, |states[j].net|)
  {
    if k == j + 1 {
      OpeningServes(states, actions, j, base);
    } else {
      ServedKeepsInv(states, actions, j, base, k - 1);
      MoveServes(states, actions, j, base, k - 1);
    }
  }

  /**
   * In a reign that opened on equal logs, first or later, with orderly delivery and whatever terms
   * client entries carry, the client's query never fails, on any node: the commit index lies in the
   * node's log, and the entry there is the leader's entry at that index.
   */
  lemma QueriesSeeTheLeadersLog(states: seq<Sys>, actions: seq<Action>, j: nat, base: seq<Entry>, k: nat,
                                leader: NodeId, v: NodeId)
    requires ServedFrom(states, actions, j, base) && j < k <= |actions|
    requires leader < |states[k].nodes| && v < |states[k].nodes| && states[k].nodes[leader].loop.InLeader?
    ensures var n, l := states[k].nodes[v], states[k].nodes[leader];
            && n.log <= l.log
            && n.commitIndex < |n.log|
            && n.log[n.commitIndex] == l.log[n.commitIndex]
            && Query(n, None) == Committed(l.log[n.commitIndex].value)
  {
    ServedKeepsInv(states, actions, j, base, k);
    assert Served(states[k], base, |states[j].net|);
    assert InLog(states[k].nodes[v]);
  }

  // ---- reigns that are such ----

  /** Any reign of an orderly run that opens on equal logs with the commit indices inside, if it is the last. */
  lemma OrderlyReignServes(states: seq<Sys>, actions: seq<Action>, j: nat, base: seq<Entry>)
    requires C.OrderlyRun(states, actions) && j < |actions|
    requires S.OpensOn(states[j], actions[j], base) && AllInLog(states[j])
    requires forall i :: j < i < |actions| ==> QuietStep(states[i], actions[i])
    ensures ServedFrom(states, actions, j, base)
  {
    C.OrderlyRunKeepsInv(states, actions, j);
    assert Moves(states[j], actions[j], states[j + 1]);
    forall i | j < i < |actions|
      ensures FineStep(states[i], actions[i])
    {
      assert QuietStep(states[i], actions[i]);
      assert Moves(states[i], actions[i], states[i + 1]);
    }
  }

  ghost predicate QuietStep(s: Sys, a: Action) {
    CanAct(s, a) && S.OpensNothing(s, a)
  }

  /** Before any reign the commit indices are inside the logs, and nothing was committed. */
  lemma UnledIsServed(s: Sys)
    requires S.Unled(s)
    ensures C.Inv(s)
  {
  }

  lemma {:induction false} UnledInLog(states: seq<Sys>, actions: seq<Action>, k: nat)
    requires IsRun(states, actions) && k <= |actions| && states[k].reigning.None?
    ensures AllInLog(states[k])
  {
    if k > 0 {
      var s, a := states[k - 1], actions[k - 1];
      assert Moves(s, a, states[k]);
      UnledInLog(states, actions, k - 1);
      S.UnledUntilFirst(states, actions, k - 1);
      RunKeepsCommittals(states, actions, k - 1);
      UnledStepInLog(s, a);
    }
  }

  lemma UnledStepInLog(s: Sys, a: Action)
    requires S.Unled(s) && CommittalsOk(s) && AllInLog(s) && CanAct(s, a)
    ensures AllInLog(Step(s, a))
  {
    if !a.Lose? {
      UnledActorInLog(s, a);
    }
  }

  lemma UnledActorInLog(s: Sys, a: Action)
    requires S.Unled(s) && CommittalsOk(s) && AllInLog(s) && CanAct(s, a) && !a.Lose?
    ensures InLog(EffectOf(s, a).node)
  {
    StaysInLogIff(s.nodes[a.v], EventOf(s, a));
    if a.Deliver? {
      assert CommittalOk(s.commits, s.net[a.position]);
    }
  }

  /** A run with one reign and orderly delivery. */
  ghost predicate OneOrderlyReign(states: seq<Sys>, actions: seq<Action>) {
    && S.OneReign(states, actions)
    && forall k :: 0 <= k < |actions| ==> OrderlyMove(states[k], actions[k], states[k + 1])
  }

  ghost predicate OrderlyMove(s: Sys, a: Action, s': Sys) {
    Moves(s, a, s') && C.OrderlyDelivery(s, a)
  }

  /** The first reign of a cluster serves its clients. */
  lemma FirstReignServes(states: seq<Sys>, actions: seq<Action>, k: nat) returns (j: nat)
    requires OneOrderlyReign(states, actions) && k <= |actions| && states[k].reigning.Some?
    ensures j < k && ServedFrom(states, actions, j, [INIT_ENTRY])
  {
    j := S.FirstReignIsStable(states, actions, k);
    UnledIsServed(states[j]);
    UnledInLog(states, actions, j);
    assert OrderlyMove(states[j], actions[j], states[j + 1]);
    forall i | j < i < |actions|
      ensures FineStep(states[i], actions[i])
    {
      assert S.Steady(states[i], actions[i], [INIT_ENTRY], |states[j].net|);
      assert OrderlyMove(states[i], actions[i], states[i + 1]);
    }
  }
}
