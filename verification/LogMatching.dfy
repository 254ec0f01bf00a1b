/**
 * Log Matching (section 5.3 of the Raft paper) for this code's appends (raft.py:235-251, 389-390,
 * 558-611, 631-652), under arbitrary loss, repetition, reordering and staleness.
 */
module LogMatching {
  import opened Options
  import opened RaftTypes
  import opened RaftSpec
  import opened RaftLocal
  import opened RaftSystem
  import E = ElectionSafety

  /** Equal terms at an index mean equal logs through it. */
  ghost predicate LogsMatch(a: seq<Entry>, b: seq<Entry>) {
    forall i :: 0 <= i < |a| && i < |b| && a[i].term == b[i].term ==> a[..i + 1] == b[..i + 1]
  }

  /** Up to `i`, the log is the log of the leader of the term found at `i`. */
  ghost predicate EntryOk(reigns: map<nat, seq<Entry>>, log: seq<Entry>, i: int)
    requires 0 <= i < |log|
  {
    if i == 0 then log[0] == INIT_ENTRY
    else
      var t := log[i].term;
      t in reigns && i < |reigns[t]| && log[..i + 1] == reigns[t][..i + 1]
  }

  ghost predicate LogOk(reigns: map<nat, seq<Entry>>, log: seq<Entry>) {
    |log| > 0 && forall i :: 0 <= i < |log| ==> EntryOk(reigns, log, i)
  }

  /** `m`, if it is an AppendEntries, carries an entry of `log`, and the term of the one before. */
  ghost predicate Carries(log: seq<Entry>, m: Msg) {
    m.AppendEntries? ==>
      m.prevIndex + 1 < |log| && log[m.prevIndex].term == m.prevTerm && log[m.prevIndex + 1] == m.entry
  }

  /** An AppendEntries carries an entry of its term's leader. */
  ghost predicate AppendOk(reigns: map<nat, seq<Entry>>, m: Msg) {
    m.AppendEntries? ==> m.term in reigns && Carries(reigns[m.term], m)
  }

  /** The term of a recorded reign was won by a node that is past its opening. */
  ghost predicate ReignBegan(s: Sys, t: nat) {
    exists v :: (t, v) in s.elected && v < |s.nodes| && PastOpening(s.nodes[v], t)
  }

  predicate PastOpening(n: Node, t: nat) {
    t <= n.term && (n.term == t ==> !(n.loop.Idle? && n.role.Leader?))
  }

  ghost predicate Inv(s: Sys) {
    && SysOk(s)
    && (forall v :: 0 <= v < |s.nodes| ==> LogOk(s.reigns, s.nodes[v].log))
    && (forall t :: t in s.reigns ==> LogOk(s.reigns, s.reigns[t]) && ReignBegan(s, t))
    && (forall i :: 0 <= i < |s.net| ==> AppendOk(s.reigns, s.net[i]))
    && (forall v :: 0 <= v < |s.nodes| && s.nodes[v].loop.InLeader? ==>
          s.nodes[v].term in s.reigns && s.reigns[s.nodes[v].term] == s.nodes[v].log)
  }

  lemma OkLogsMatch(reigns: map<nat, seq<Entry>>, a: seq<Entry>, b: seq<Entry>)
    requires LogOk(reigns, a) && LogOk(reigns, b)
    ensures LogsMatch(a, b)
  {
    forall i | 0 <= i < |a| && i < |b| && a[i].term == b[i].term
      ensures a[..i + 1] == b[..i + 1]
    {
      assert EntryOk(reigns, a, i) && EntryOk(reigns, b, i);
    }
  }

  /** A prefix of a good log is good, and so is a cut log with the next entry of the same log. */
  lemma PrefixOk(reigns: map<nat, seq<Entry>>, log: seq<Entry>, k: nat)
    requires LogOk(reigns, log) && 0 < k <= |log|
    ensures LogOk(reigns, log[..k])
  {
    forall i | 0 <= i < k
      ensures EntryOk(reigns, log[..k], i)
    {
      assert EntryOk(reigns, log, i);
      assert log[..k][..i + 1] == log[..i + 1];
    }
  }

  /** Reigns only grow; good logs stay good. */
  ghost predicate Grown(reigns: map<nat, seq<Entry>>, reigns': map<nat, seq<Entry>>) {
    forall t :: t in reigns ==> t in reigns' && reigns[t] <= reigns'[t]
  }

  lemma GrownKeepsLog(reigns: map<nat, seq<Entry>>, reigns': map<nat, seq<Entry>>, log: seq<Entry>)
    requires LogOk(reigns, log) && Grown(reigns, reigns')
    ensures LogOk(reigns', log)
  {
    forall i | 0 <= i < |log|
      ensures EntryOk(reigns', log, i)
    {
      assert EntryOk(reigns, log, i);
    }
  }

  /** A leader's log with one more entry of its own term is good once its reign records it. */
  lemma OwnEntryOk(reigns: map<nat, seq<Entry>>, log: seq<Entry>, entry: Entry)
    requires LogOk(reigns, log)
    requires entry.term in reigns ==> reigns[entry.term] == log
    ensures Grown(reigns, reigns[entry.term := log + [entry]])
    ensures LogOk(reigns[entry.term := log + [entry]], log + [entry])
  {
    var reigns', log' := reigns[entry.term := log + [entry]], log + [entry];
    GrownKeepsLog(reigns, reigns', log);
    forall i | 0 <= i < |log'|
      ensures EntryOk(reigns', log', i)
    {
      if i < |log| {
        assert EntryOk(reigns', log, i);
        assert log'[..i + 1] == log[..i + 1];
      }
    }
  }

  /** What the follower's test buys: the cut log with the new entry is the sender's, cut after the entry. */
  lemma CarriedAppend(log: seq<Entry>, sender: seq<Entry>, m: Msg)
    requires LogsMatch(log, sender) && m.AppendEntries? && Carries(sender, m)
    requires VerifyEntry(log, m.prevIndex, m.prevTerm)
    ensures log[..m.prevIndex + 1] + [m.entry] == sender[..m.prevIndex + 2]
  {
    assert log[..m.prevIndex + 1] == sender[..m.prevIndex + 1];
  }

  /** So after an accepted append its log is the leader's, cut after the entry. */
  lemma AcceptedAppend(reigns: map<nat, seq<Entry>>, log: seq<Entry>, m: Msg)
    requires LogOk(reigns, log) && m.AppendEntries? && AppendOk(reigns, m)
    requires LogOk(reigns, reigns[m.term])
    requires VerifyEntry(log, m.prevIndex, m.prevTerm)
    ensures log[..m.prevIndex + 1] + [m.entry] == reigns[m.term][..m.prevIndex + 2]
    ensures LogOk(reigns, log[..m.prevIndex + 1] + [m.entry])
  {
    OkLogsMatch(reigns, log, reigns[m.term]);
    CarriedAppend(log, reigns[m.term], m);
    PrefixOk(reigns, reigns[m.term], m.prevIndex + 2);
  }

  // ---- one turn ----

  /** The entry a turn appends to its own log, if any. */
  function Appended(n: Node, ev: Event): Option<Entry>
    requires NodeOk(n) && Enabled(n, ev)
  {
    match ev
    case Receive(m) =>
      if n.loop.InLeader? && m.ClientRequest? then Some(m.entry) else None
    case Enter =>
      if n.role.Leader? then Some(Entry(n.term, "Leader Entry", -1)) else None
    case TakeClient =>
      if n.clientQueue != [] then Some(n.clientQueue[0]) else None
    case _ => None
  }

  ghost predicate Accepts(n: Node, ev: Event) {
    && n.loop.InFollower? && ev.Receive? && ev.msg.AppendEntries?
    && ev.msg.term >= n.term && VerifyEntry(n.log, ev.msg.prevIndex, ev.msg.prevTerm)
  }

  /** How a turn moves the log, and that what it sends replicates its own log. */
  lemma TurnLogs(n: Node, ev: Event)
    requires NodeOk(n) && Enabled(n, ev)
    ensures var n' := Act(n, ev).node;
            && (Appended(n, ev).Some? ==>
                  n'.log == n.log + [Appended(n, ev).value] && n'.loop.InLeader? && n'.term == n.term)
            && (Accepts(n, ev) ==>
                  n'.log == n.log[..ev.msg.prevIndex + 1] + [ev.msg.entry] && !n'.loop.InLeader?)
            && (Appended(n, ev).None? && !Accepts(n, ev) ==>
                  n'.log == n.log && (n'.loop.InLeader? ==> n.loop.InLeader? && n'.term == n.term))
            && (Appended(n, ev).Some? && !n.loop.InLeader? ==> ev.Enter? && n.role.Leader? && n.loop.Idle?)
  {
  }

  /** `m`, if it is an AppendEntries, carries an entry of the log of `n`, sent as leader. */
  ghost predicate Replicates(n: Node, m: Msg) {
    Carries(n.log, m) && (m.AppendEntries? ==> n.loop.InLeader? && m.term == n.term && m.leader == n.id)
  }

  lemma BroadcastReplicates(n: Node, entry: Entry)
    requires n.id < n.size == |n.nextIndex| == |n.matchIndex| && |n.log| > 0 && n.loop.InLeader?
    ensures forall m :: m in BroadcastAppend(n, entry).out ==> Replicates(BroadcastAppend(n, entry).node, m)
  {
    BroadcastsAre(Extended(n, entry), n.nextIndex, |n.log|, n.size);
  }

  lemma AckReplicates(n: Node, f: NodeId, success: bool)
    requires NodeOk(n) && n.loop.InLeader? && f < n.size
    ensures forall m :: m in LeaderAck(n, f, success).out ==> Replicates(LeaderAck(n, f, success).node, m)
  {
  }

  /** Every AppendEntries sent carries an entry of the sender's log as it is afterwards. */
  lemma TurnReplicates(n: Node, ev: Event)
    requires NodeOk(n) && Enabled(n, ev)
    ensures forall m :: m in Act(n, ev).out ==> Replicates(Act(n, ev).node, m)
  {
    match ev
    case Receive(m) =>
      if n.loop.InLeader? && m.ClientRequest? {
        BroadcastReplicates(n, m.entry);
      } else if n.loop.InLeader? && m.Ack? && m.sender < n.size {
        AckReplicates(n, m.sender, m.success);
      }
    case Enter =>
      if n.role.Leader? {
        BroadcastReplicates(Crowned(n), Entry(n.term, "Leader Entry", -1));
      }
    case TakeClient =>
      if n.clientQueue != [] {
        BroadcastReplicates(n.(clientQueue := n.clientQueue[1..]), n.clientQueue[0]);
      }
    case _ =>
  }

  // ---- the invariant ----

  /** A reign opens in a term that has no recorded reign yet. */
  lemma OpeningIsFresh(s: Sys, v: NodeId)
    requires Inv(s) && E.Inv(s) && v < |s.nodes|
    requires s.nodes[v].loop.Idle? && s.nodes[v].role.Leader?
    ensures s.nodes[v].term !in s.reigns
  {
    var t := s.nodes[v].term;
    assert E.NodeElected(s, v);
    assert t in s.reigns ==> ReignBegan(s, t);
  }

  /** The appended entry carries the term of the log's owner. */
  lemma StampIsOwn(s: Sys, a: Action)
    requires CanAct(s, a) && !a.Lose? && OwnTermStamp(s, a)
    requires Appended(s.nodes[a.v], EventOf(s, a)).Some?
    ensures Appended(s.nodes[a.v], EventOf(s, a)).value.term == s.nodes[a.v].term
  {
  }

  /** Good reigns stay good when a leader's own entry is recorded. */
  lemma RecordedKeepsReigns(reigns: map<nat, seq<Entry>>, log: seq<Entry>, entry: Entry)
    requires LogOk(reigns, log) && (entry.term in reigns ==> reigns[entry.term] == log)
    requires forall t :: t in reigns ==> LogOk(reigns, reigns[t])
    ensures var reigns' := reigns[entry.term := log + [entry]];
            && Grown(reigns, reigns') && LogOk(reigns', log + [entry])
            && forall t :: t in reigns' ==> LogOk(reigns', reigns'[t])
  {
    var reigns' := reigns[entry.term := log + [entry]];
    OwnEntryOk(reigns, log, entry);
    forall t | t in reigns'
      ensures LogOk(reigns', reigns'[t])
    {
      if t != entry.term {
        GrownKeepsLog(reigns, reigns', reigns[t]);
      }
    }
  }

  /** An appended entry is recorded in the reign of its own term. */
  lemma AppendIsRecorded(s: Sys, a: Action)
    requires Inv(s) && E.Inv(s) && CanAct(s, a) && !a.Lose? && OwnTermStamp(s, a)
    requires Appended(s.nodes[a.v], EventOf(s, a)).Some?
    ensures var n, entry := s.nodes[a.v], Appended(s.nodes[a.v], EventOf(s, a)).value;
            && (entry.term in s.reigns ==> s.reigns[entry.term] == n.log)
            && EffectOf(s, a).node.log == n.log + [entry]
            && Step(s, a).reigns == s.reigns[entry.term := n.log + [entry]]
  {
    TurnLogs(s.nodes[a.v], EventOf(s, a));
    StampIsOwn(s, a);
    if !s.nodes[a.v].loop.InLeader? {
      OpeningIsFresh(s, a.v);
    }
  }

  lemma OthersRecordNothing(s: Sys, a: Action)
    requires Inv(s) && CanAct(s, a) && !a.Lose? && Appended(s.nodes[a.v], EventOf(s, a)).None?
    ensures Step(s, a).reigns == s.reigns
  {
    TurnLogs(s.nodes[a.v], EventOf(s, a));
  }

  /** A log that is not appended to as a leader's stays good. */
  lemma OthersKeepLog(s: Sys, a: Action)
    requires Inv(s) && CanAct(s, a) && !a.Lose? && Appended(s.nodes[a.v], EventOf(s, a)).None?
    ensures LogOk(s.reigns, EffectOf(s, a).node.log)
  {
    var n, ev := s.nodes[a.v], EventOf(s, a);
    TurnLogs(n, ev);
    if Accepts(n, ev) {
      AcceptedAppend(s.reigns, n.log, ev.msg);
    }
  }

  /** The actor's log and all recorded reigns stay good. */
  lemma StepKeepsLogs(s: Sys, a: Action)
    requires Inv(s) && E.Inv(s) && CanAct(s, a) && !a.Lose? && OwnTermStamp(s, a)
    ensures Grown(s.reigns, Step(s, a).reigns)
    ensures LogOk(Step(s, a).reigns, EffectOf(s, a).node.log)
    ensures forall t :: t in Step(s, a).reigns ==> LogOk(Step(s, a).reigns, Step(s, a).reigns[t])
  {
    var n, ev := s.nodes[a.v], EventOf(s, a);
    if Appended(n, ev).Some? {
      AppendIsRecorded(s, a);
      RecordedKeepsReigns(s.reigns, n.log, Appended(n, ev).value);
    } else {
      OthersRecordNothing(s, a);
      OthersKeepLog(s, a);
    }
  }

  lemma StepKeepsAppends(s: Sys, a: Action)
    requires Inv(s) && CanAct(s, a) && !a.Lose? && Grown(s.reigns, Step(s, a).reigns)
    ensures forall i :: 0 <= i < |Step(s, a).net| ==> AppendOk(Step(s, a).reigns, Step(s, a).net[i])
  {
    var s', out := Step(s, a), EffectOf(s, a).out;
    TurnReplicates(s.nodes[a.v], EventOf(s, a));
    forall i | 0 <= i < |s'.net|
      ensures AppendOk(s'.reigns, s'.net[i])
    {
      if i < |s.net| {
        assert AppendOk(s.reigns, s.net[i]);
      } else {
        assert s'.net[i] in out;
      }
    }
  }

  /** Only a candidate of the term could come back to its opening. */
  lemma TurnStaysPast(n: Node, ev: Event, t: nat)
    requires NodeOk(n) && Enabled(n, ev) && PastOpening(n, t)
    requires n.role.Leader? ==> !n.loop.InFollower? && !n.loop.InCandidate?
    requires n.term == t ==> !n.loop.InCandidate?
    ensures PastOpening(Act(n, ev).node, t)
  {
    E.TurnTallies(n, ev);
    TermsNeverDecrease(n, ev);
  }

  /** A recorded reign stays past its opening. */
  lemma StepKeepsReign(s: Sys, a: Action, t: nat)
    requires Inv(s) && E.Inv(s) && CanAct(s, a) && !a.Lose? && t in s.reigns
    ensures ReignBegan(Step(s, a), t)
  {
    assert ReignBegan(s, t);
    var v :| (t, v) in s.elected && v < |s.nodes| && PastOpening(s.nodes[v], t);
    assert E.WinnerOk(s, v, t) && E.NodeElected(s, v);
    if v == a.v {
      TurnStaysPast(s.nodes[v], EventOf(s, a), t);
    }
    assert (t, v) in Step(s, a).elected && PastOpening(Step(s, a).nodes[v], t);
  }

  /** The reign a leader is in has begun. */
  lemma LeaderHasBegun(s: Sys, v: NodeId)
    requires E.Inv(s) && v < |s.nodes| && s.nodes[v].loop.InLeader?
    ensures ReignBegan(s, s.nodes[v].term)
  {
    assert E.NodeElected(s, v);
    assert (s.nodes[v].term, v) in s.elected && PastOpening(s.nodes[v], s.nodes[v].term);
  }

  /** No other leader writes to it. */
  lemma LeadersDiffer(s: Sys, v: NodeId, w: NodeId)
    requires E.Inv(s) && v < |s.nodes| && w < |s.nodes| && s.nodes[v].loop.InLeader? && s.nodes[w].loop.InLeader?
    requires s.nodes[v].term == s.nodes[w].term
    ensures v == w
  {
    assert E.NodeElected(s, v) && E.NodeElected(s, w);
  }

  ghost predicate LeadersRecorded(s: Sys) {
    forall v :: 0 <= v < |s.nodes| && s.nodes[v].loop.InLeader? ==>
      s.nodes[v].term in s.reigns && s.reigns[s.nodes[v].term] == s.nodes[v].log
  }

  /** Recording one node's log as its reign's changes no other leader's. */
  lemma RecordingKeepsLeaders(s: Sys, v: NodeId, n': Node, s': Sys)
    requires LeadersRecorded(s) && E.Inv(s') && v < |s.nodes| && s'.nodes == s.nodes[v := n']
    requires s'.reigns == if n'.loop.InLeader? then s.reigns[n'.term := n'.log] else s.reigns
    ensures LeadersRecorded(s')
  {
    forall w | 0 <= w < |s'.nodes| && s'.nodes[w].loop.InLeader?
      ensures s'.nodes[w].term in s'.reigns && s'.reigns[s'.nodes[w].term] == s'.nodes[w].log
    {
      if w != v && n'.loop.InLeader? && n'.term == s'.nodes[w].term {
        LeadersDiffer(s', w, v);
      }
    }
  }

  lemma StepKeepsLeaders(s: Sys, a: Action)
    requires Inv(s) && CanAct(s, a) && !a.Lose? && E.Inv(Step(s, a))
    ensures var s' := Step(s, a);
            LeadersRecorded(s') && (s'.nodes[a.v].loop.InLeader? ==> ReignBegan(s', s'.nodes[a.v].term))
  {
    var s' := Step(s, a);
    RecordingKeepsLeaders(s, a.v, EffectOf(s, a).node, s');
    if s'.nodes[a.v].loop.InLeader? {
      LeaderHasBegun(s', a.v);
    }
  }

  lemma StepKeepsInv(s: Sys, a: Action)
    requires Inv(s) && E.Inv(s) && CanAct(s, a)
    requires NoStaleVote(s, a) && OwnTermStamp(s, a)
    ensures Inv(Step(s, a))
  {
    StepKeepsSysOk(s, a);
    var s' := Step(s, a);
    if a.Lose? {
      forall t | t in s.reigns
        ensures ReignBegan(s', t)
      {
        assert ReignBegan(s, t);
      }
    } else {
      StepKeepsLogs(s, a);
      StepKeepsAppends(s, a);
      E.StepKeepsInv(s, a);
      StepKeepsLeaders(s, a);
      forall t | t in s'.reigns
        ensures ReignBegan(s', t)
      {
        if t in s.reigns {
          StepKeepsReign(s, a, t);
        }
      }
      forall v | 0 <= v < |s'.nodes|
        ensures LogOk(s'.reigns, s'.nodes[v].log)
      {
        if v != a.v {
          GrownKeepsLog(s.reigns, s'.reigns, s.nodes[v].log);
        }
      }
    }
  }

  ghost predicate OwnTermStamps(states: seq<Sys>, actions: seq<Action>) {
    IsRun(states, actions) &&
    forall k :: 0 <= k < |actions| ==>
      Moves(states[k], actions[k], states[k + 1]) && OwnTermStamp(states[k], actions[k])
  }

  /**
   * Log Matching: in every run, whatever the network does to AppendEntries, two logs with equal
   * terms at an index are identical through it. Terms along a log need not be monotone.
   */
  lemma {:induction false} AllLogsMatch(states: seq<Sys>, actions: seq<Action>, k: nat)
    requires k <= |actions|
    requires E.NoStaleVotes(states, actions) && OwnTermStamps(states, actions)
    ensures Inv(states[k])
    ensures forall v, w :: 0 <= v < |states[k].nodes| && 0 <= w < |states[k].nodes| ==>
              LogsMatch(states[k].nodes[v].log, states[k].nodes[w].log)
  {
    if k > 0 {
      AllLogsMatch(states, actions, k - 1);
      E.NoTermHasTwoLeaders(states, actions, k - 1);
      assert Moves(states[k - 1], actions[k - 1], states[k]);
      StepKeepsInv(states[k - 1], actions[k - 1]);
    }
    forall v, w | 0 <= v < |states[k].nodes| && 0 <= w < |states[k].nodes|
      ensures LogsMatch(states[k].nodes[v].log, states[k].nodes[w].log)
    {
      OkLogsMatch(states[k].reigns, states[k].nodes[v].log, states[k].nodes[w].log);
    }
  }
}
