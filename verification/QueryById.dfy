/**
 * What a client's query by id finds (raft.py:120-132, 604-605): the hash is written with every append
 * and never cleared, so it is about the appends that the node has made and not about its log.
 */
module QueryById {
  import opened Options
  import opened RaftTypes
  import opened RaftSpec
  import opened RaftSystem
  import C = CommitSafety
  import M = LogMatching
  import S = StableReign
  import V = ClientView

  /** The entry that a turn appends to the log, as a leader or from one. */
  ghost function Added(n: Node, ev: Event): Option<Entry>
    requires NodeOk(n) && Enabled(n, ev)
  {
    if M.Appended(n, ev).Some? then M.Appended(n, ev)
    else if M.Accepts(n, ev) then Some(ev.msg.entry)
    else None
  }

  lemma FollowerHashes(n: Node, m: Msg)
    requires NodeOk(n) && n.loop.InFollower?
    ensures FollowerMessage(n, m).node.logHash ==
            if M.Accepts(n, Receive(m)) then n.logHash[m.entry.id := m.entry] else n.logHash
  {
  }

  lemma LeaderHashes(n: Node, m: Msg)
    requires NodeOk(n) && n.loop.InLeader?
    ensures LeaderMessage(n, m).node.logHash ==
            if m.ClientRequest? then n.logHash[m.entry.id := m.entry] else n.logHash
  {
  }

  /** Only what is added to the log is written to the hash. */
  lemma TurnHashes(n: Node, ev: Event)
    requires NodeOk(n) && Enabled(n, ev)
    ensures var x := Added(n, ev);
            Act(n, ev).node.logHash == if x.Some? then n.logHash[x.value.id := x.value] else n.logHash
  {
    match ev
    case Receive(m) =>
      if n.loop.InFollower? {
        FollowerHashes(n, m);
      } else if n.loop.InLeader? {
        LeaderHashes(n, m);
      }
    case _ =>
  }

  function Lookup(hash: map<int, Entry>, id: int): Option<Entry> {
    if id in hash then Some(hash[id]) else None
  }

  /** The most recent of some entries with an id. */
  function Latest(entries: seq<Entry>, id: int): (r: Option<Entry>)
    ensures r.Some? ==> r.value in entries && r.value.id == id
    ensures r.None? ==> forall i :: 0 <= i < |entries| ==> entries[i].id != id
  {
    if entries == [] then None
    else if entries[|entries| - 1].id == id then Some(entries[|entries| - 1])
    else Latest(entries[..|entries| - 1], id)
  }

  lemma LatestOfMore(entries: seq<Entry>, x: Entry, id: int)
    ensures Latest(entries + [x], id) == if x.id == id then Some(x) else Latest(entries, id)
  {
    assert (entries + [x])[..|entries|] == entries;
  }

  /** Entries of other ids at the end make no difference. */
  lemma {:induction false} LatestOfFront(entries: seq<Entry>, k: nat, id: int)
    requires k <= |entries| && forall i :: k <= i < |entries| ==> entries[i].id != id
    ensures Latest(entries, id) == Latest(entries[..k], id)
  {
    if k < |entries| {
      LatestOfFront(entries[..|entries| - 1], k, id);
      assert entries[..|entries| - 1][..k] == entries[..k];
    } else {
      assert entries[..k] == entries;
    }
  }

  // ---- over any run: the most recent append ----

  /** What a step appends to the log of `v`. */
  ghost function AddedBy(s: Sys, a: Action, v: NodeId): Option<Entry> {
    if CanAct(s, a) && !a.Lose? && a.v == v then Added(s.nodes[v], EventOf(s, a)) else None
  }

  /** All that node `v` has appended in the first `k` steps, in order, whether it was cut later or not. */
  ghost function Appends(states: seq<Sys>, actions: seq<Action>, v: NodeId, k: nat): seq<Entry>
    requires k <= |actions| <= |states|
  {
    if k == 0 then []
    else
      var x := AddedBy(states[k - 1], actions[k - 1], v);
      Appends(states, actions, v, k - 1) + if x.Some? then [x.value] else []
  }

  /**
   * In every run over any network, a query by id returns the most recent entry with that id that the
   * node has appended, whatever has become of it.
   */
  lemma {:induction false} QueriesFindTheLatestAppend(states: seq<Sys>, actions: seq<Action>, k: nat, v: NodeId,
                                                           id: int)
    requires IsRun(states, actions) && k <= |actions| && v < |states[k].nodes|
    ensures Query(states[k].nodes[v], Some(id)) == ById(Latest(Appends(states, actions, v, k), id))
  {
    if k == 0 {
      var size: nat :| states[0] == Init(size);
      assert states[0].nodes[v] == InitNode(v, size);
    } else {
      var s, a := states[k - 1], actions[k - 1];
      assert Moves(s, a, states[k]);
      QueriesFindTheLatestAppend(states, actions, k - 1, v, id);
      StepLooksUp(s, a, v, id);
      var x := AddedBy(s, a, v);
      if x.Some? {
        LatestOfMore(Appends(states, actions, v, k - 1), x.value, id);
      } else {
        assert Appends(states, actions, v, k - 1) + [] == Appends(states, actions, v, k - 1);
      }
    }
  }

  lemma StepLooksUp(s: Sys, a: Action, v: NodeId, id: int)
    requires CanAct(s, a) && v < |s.nodes|
    ensures v < |Step(s, a).nodes|
    ensures var x := AddedBy(s, a, v);
            Lookup(Step(s, a).nodes[v].logHash, id) ==
            if x.Some? && x.value.id == id then x else Lookup(s.nodes[v].logHash, id)
  {
    if !a.Lose? && a.v == v {
      TurnHashes(s.nodes[v], EventOf(s, a));
    }
  }

  // ---- over any run: every entry of the log is found ----

  ghost predicate Finds(log: seq<Entry>, hash: map<int, Entry>) {
    && (forall id :: id in hash ==> hash[id].id == id)
    && forall i :: 0 < i < |log| ==> log[i].id in hash
  }

  lemma AddingKeepsFinds(log: seq<Entry>, hash: map<int, Entry>, k: nat, x: Entry)
    requires Finds(log, hash) && 0 < k <= |log|
    ensures Finds(log[..k] + [x], hash[x.id := x])
  {
  }

  lemma TurnKeepsFinds(n: Node, ev: Event)
    requires NodeOk(n) && Enabled(n, ev) && Finds(n.log, n.logHash)
    ensures Finds(Act(n, ev).node.log, Act(n, ev).node.logHash)
  {
    M.TurnLogs(n, ev);
    TurnHashes(n, ev);
    if M.Appended(n, ev).Some? {
      assert n.log[..|n.log|] == n.log;
      AddingKeepsFinds(n.log, n.logHash, |n.log|, M.Appended(n, ev).value);
    } else if M.Accepts(n, ev) {
      AddingKeepsFinds(n.log, n.logHash, ev.msg.prevIndex + 1, ev.msg.entry);
    }
  }

  ghost predicate AllFind(s: Sys) {
    forall v :: 0 <= v < |s.nodes| ==> Finds(s.nodes[v].log, s.nodes[v].logHash)
  }

  lemma {:induction false} RunKeepsFinds(states: seq<Sys>, actions: seq<Action>, k: nat)
    requires IsRun(states, actions) && k <= |actions|
    ensures AllFind(states[k])
  {
    if k > 0 {
      RunKeepsFinds(states, actions, k - 1);
      var s, a := states[k - 1], actions[k - 1];
      assert Moves(s, a, states[k]);
      if !a.Lose? {
        TurnKeepsFinds(s.nodes[a.v], EventOf(s, a));
      }
    }
  }

  /** In every run over any network, a query by id finds an entry of that id whenever the log has one. */
  lemma QueriesFindTheLog(states: seq<Sys>, actions: seq<Action>, k: nat, v: NodeId, i: nat)
    requires IsRun(states, actions) && k <= |actions|
    requires v < |states[k].nodes| && 0 < i < |states[k].nodes[v].log|
    ensures var n := states[k].nodes[v];
            var r := Query(n, Some(n.log[i].id));
            r.entry.Some? && r.entry.value.id == n.log[i].id
  {
    RunKeepsFinds(states, actions, k);
    assert Finds(states[k].nodes[v].log, states[k].nodes[v].logHash);
  }

  // ---- when the query answers from the log ----

  /** What the hash holds is in the log. */
  ghost predicate HashIn(hash: map<int, Entry>, log: seq<Entry>) {
    forall id :: id in hash ==> hash[id] in log
  }

  /** Every entry above `prev` that the hash holds is also at or below it, or gives way to one of the same id. */
  predicate CutIsHeld(log: seq<Entry>, hash: map<int, Entry>, prev: nat, x: Entry)
    requires prev < |log|
  {
    forall i :: prev < i < |log| && log[i].id != x.id && Lookup(hash, log[i].id) == Some(log[i]) ==>
      log[i] in log[..prev + 1]
  }

  lemma CutKeepsHashIff(log: seq<Entry>, hash: map<int, Entry>, prev: nat, x: Entry)
    requires prev < |log| && HashIn(hash, log) && Finds(log, hash)
    ensures HashIn(hash[x.id := x], log[..prev + 1] + [x]) <==> CutIsHeld(log, hash, prev, x)
  {
    var hash', log' := hash[x.id := x], log[..prev + 1] + [x];
    assert log'[prev + 1] == x;
    if CutIsHeld(log, hash, prev, x) {
      forall id | id in hash'
        ensures hash'[id] in log'
      {
        if id != x.id {
          var i :| 0 <= i < |log| && log[i] == hash[id];
          if i <= prev {
            assert log'[i] == log[i];
          } else {
            assert log[i] in log[..prev + 1];
          }
        }
      }
    }
    if HashIn(hash', log') {
      forall i | prev < i < |log| && log[i].id != x.id && Lookup(hash, log[i].id) == Some(log[i])
        ensures log[i] in log[..prev + 1]
      {
        assert hash'[log[i].id] == log[i] && log[i] in log';
        var l :| 0 <= l < |log'| && log'[l] == log[i];
        assert l < prev + 1 && log[..prev + 1][l] == log[i];
      }
    }
  }

  lemma MoreKeepsHash(log: seq<Entry>, hash: map<int, Entry>, x: Entry)
    requires HashIn(hash, log)
    ensures HashIn(hash[x.id := x], log + [x])
  {
    assert (log + [x])[|log|] == x;
    forall id | id in hash && id != x.id
      ensures hash[id] in log + [x]
    {
      var i :| 0 <= i < |log| && log[i] == hash[id];
      assert (log + [x])[i] == hash[id];
    }
  }

  /**
   * The query by id may return an entry that was cut from the log. After a turn of a node on which it
   * does not, it still does not exactly if an accepted append cuts nothing that the hash holds, except
   * what the log has below or the new entry replaces.
   */
  lemma AnswersFromLogIff(n: Node, ev: Event)
    requires NodeOk(n) && Enabled(n, ev) && HashIn(n.logHash, n.log) && Finds(n.log, n.logHash)
    ensures HashIn(Act(n, ev).node.logHash, Act(n, ev).node.log) <==>
            (M.Accepts(n, ev) ==> CutIsHeld(n.log, n.logHash, ev.msg.prevIndex, ev.msg.entry))
  {
    M.TurnLogs(n, ev);
    TurnHashes(n, ev);
    if M.Appended(n, ev).Some? {
      MoreKeepsHash(n.log, n.logHash, M.Appended(n, ev).value);
    } else if M.Accepts(n, ev) {
      CutKeepsHashIff(n.log, n.logHash, ev.msg.prevIndex, ev.msg.entry);
    }
  }

  // ---- when the query returns the most recent entry of the log ----

  /** Every query by id returns the most recent entry of the log with that id, after the first one. */
  ghost predicate Exact(log: seq<Entry>, hash: map<int, Entry>)
    requires |log| > 0
  {
    forall id :: Lookup(hash, id) == Latest(log[1..], id)
  }

  /** Cutting above `prev` changes the most recent entry of no id other than that of `x`. */
  predicate CutKeepsLatest(log: seq<Entry>, prev: nat, x: Entry)
    requires prev < |log|
  {
    forall i :: prev < i < |log| && log[i].id != x.id ==>
      Latest(log[1..prev + 1], log[i].id) == Latest(log[1..], log[i].id)
  }

  lemma CutKeepsOthers(log: seq<Entry>, prev: nat, x: Entry, id: int)
    requires prev < |log| && CutKeepsLatest(log, prev, x) && id != x.id
    ensures Latest(log[1..prev + 1], id) == Latest(log[1..], id)
  {
    if i :| prev < i < |log| && log[i].id == id {
      assert Latest(log[1..prev + 1], log[i].id) == Latest(log[1..], log[i].id);
    } else {
      LatestOfFront(log[1..], prev, id);
      assert log[1..][..prev] == log[1..prev + 1];
    }
  }

  lemma CutKeepsExactIff(log: seq<Entry>, hash: map<int, Entry>, prev: nat, x: Entry)
    requires prev < |log| && Exact(log, hash)
    ensures Exact(log[..prev + 1] + [x], hash[x.id := x]) <==> CutKeepsLatest(log, prev, x)
  {
    var hash', log' := hash[x.id := x], log[..prev + 1] + [x];
    assert log'[1..] == log[1..prev + 1] + [x];
    forall id
      ensures Latest(log'[1..], id) == if x.id == id then Some(x) else Latest(log[1..prev + 1], id)
    {
      LatestOfMore(log[1..prev + 1], x, id);
    }
    if CutKeepsLatest(log, prev, x) {
      forall id
        ensures Lookup(hash', id) == Latest(log'[1..], id)
      {
        if id != x.id {
          CutKeepsOthers(log, prev, x, id);
        }
      }
    }
    if Exact(log', hash') {
      forall i | prev < i < |log| && log[i].id != x.id
        ensures Latest(log[1..prev + 1], log[i].id) == Latest(log[1..], log[i].id)
      {
        assert Lookup(hash', log[i].id) == Lookup(hash, log[i].id);
      }
    }
  }

  lemma MoreKeepsExact(log: seq<Entry>, hash: map<int, Entry>, x: Entry)
    requires |log| > 0 && Exact(log, hash)
    ensures Exact(log + [x], hash[x.id := x])
  {
    assert (log + [x])[1..] == log[1..] + [x];
    forall id
      ensures Lookup(hash[x.id := x], id) == Latest((log + [x])[1..], id)
    {
      LatestOfMore(log[1..], x, id);
    }
  }

  /**
   * A turn keeps the promise that a query returns the most recent entry with its id (raft.py:122-126)
   * exactly if an accepted append cuts no entry that is the most recent of its id, except those with
   * the new entry's id. Turns that cut nothing always keep it.
   */
  lemma StaysExactIff(n: Node, ev: Event)
    requires NodeOk(n) && Enabled(n, ev) && Exact(n.log, n.logHash)
    ensures var n' := Act(n, ev).node;
            && |n'.log| > 0
            && (Exact(n'.log, n'.logHash) <==>
                  (M.Accepts(n, ev) ==> CutKeepsLatest(n.log, ev.msg.prevIndex, ev.msg.entry)))
  {
    M.TurnLogs(n, ev);
    TurnHashes(n, ev);
    if M.Appended(n, ev).Some? {
      MoreKeepsExact(n.log, n.logHash, M.Appended(n, ev).value);
    } else if M.Accepts(n, ev) {
      CutKeepsExactIff(n.log, n.logHash, ev.msg.prevIndex, ev.msg.entry);
    }
  }

  // ---- when the query returns a committed entry ----

  /**
   * The query by id does not wait for a commit: what a turn adds is found at once. It then lies at or
   * below the node's commit index exactly if that was beyond the place of the new entry before.
   */
  lemma AddedIsCommittedIff(n: Node, ev: Event)
    requires NodeOk(n) && Enabled(n, ev) && Added(n, ev).Some?
    ensures var n', x := Act(n, ev).node, Added(n, ev).value;
            && Query(n', Some(x.id)) == ById(Some(x))
            && n'.log != [] && n'.log[|n'.log| - 1] == x
            && (|n'.log| - 1 <= n'.commitIndex <==>
                  if M.Appended(n, ev).Some? then n.commitIndex >= |n.log|
                  else ev.msg.leaderCommit <= n.commitIndex && n.commitIndex > ev.msg.prevIndex)
  {
    M.TurnLogs(n, ev);
    TurnHashes(n, ev);
    V.TurnCommits(n, ev);
    if M.Accepts(n, ev) {
      V.AcceptCommits(n, ev.msg);
    } else {
      AppendingCommitsNothing(n, ev);
    }
  }

  lemma AppendingCommitsNothing(n: Node, ev: Event)
    requires NodeOk(n) && Enabled(n, ev) && M.Appended(n, ev).Some?
    ensures Act(n, ev).node.commitIndex == n.commitIndex
  {
  }

  // ---- one reign, any network ----

  lemma LongerLogHolds(hash: map<int, Entry>, log: seq<Entry>, log': seq<Entry>)
    requires HashIn(hash, log) && log <= log'
    ensures HashIn(hash, log')
  {
    forall id | id in hash
      ensures hash[id] in log'
    {
      var i :| 0 <= i < |log| && log[i] == hash[id];
      assert log'[i] == hash[id];
    }
  }

  /** The actor's hash after its turn, against the reign's log after it. */
  lemma TurnKeepsHash(n: Node, ev: Event, log: seq<Entry>, log': seq<Entry>)
    requires NodeOk(n) && Enabled(n, ev) && HashIn(n.logHash, log) && log <= log'
    requires Act(n, ev).node.log <= log'
    ensures HashIn(Act(n, ev).node.logHash, log')
  {
    var n', x := Act(n, ev).node, Added(n, ev);
    M.TurnLogs(n, ev);
    TurnHashes(n, ev);
    LongerLogHolds(n.logHash, log, log');
    if x.Some? {
      assert n'.log[|n'.log| - 1] == x.value && log'[|n'.log| - 1] == x.value;
    }
  }

  /** All hashes are in one log. */
  ghost predicate HashesIn(s: Sys, log: seq<Entry>) {
    forall v :: 0 <= v < |s.nodes| ==> HashIn(s.nodes[v].logHash, log)
  }

  /** A step that takes the reign's log from `log` to `log'`. */
  lemma StepKeepsHashes(s: Sys, a: Action, log: seq<Entry>, log': seq<Entry>)
    requires CanAct(s, a) && HashesIn(s, log) && log <= log'
    requires !a.Lose? ==> EffectOf(s, a).node.log <= log'
    ensures HashesIn(Step(s, a), log')
  {
    var s' := Step(s, a);
    if !a.Lose? {
      TurnKeepsHash(s.nodes[a.v], EventOf(s, a), log, log');
    }
    forall v | 0 <= v < |s'.nodes|
      ensures HashIn(s'.nodes[v].logHash, log')
    {
      if a.Lose? || v != a.v {
        LongerLogHolds(s.nodes[v].logHash, log, log');
      }
    }
  }

  lemma {:induction false} StableKeepsHashes(states: seq<Sys>, actions: seq<Action>, j: nat, base: seq<Entry>, k: nat)
    requires S.StableFrom(states, actions, j, base) && HashesIn(states[j], base) && j < k <= |actions|
    ensures S.Agreed(states[k], base, |states[j].net|)
    ensures HashesIn(states[k], states[k].reigns[states[k].reignTerm])
  {
    S.StableKeepsAgreement(states, actions, j, base, k);
    assert Moves(states[k - 1], actions[k - 1], states[k]);
    if k == j + 1 {
      StepKeepsHashes(states[j], actions[j], base, states[k].reigns[states[k].reignTerm]);
    } else {
      StableKeepsHashes(states, actions, j, base, k - 1);
      assert S.Steady(states[k - 1], actions[k - 1], base, |states[j].net|);
      SteadyKeepsHashes(states[k - 1], actions[k - 1], base, |states[j].net|);
    }
  }

  lemma SteadyKeepsHashes(s: Sys, a: Action, base: seq<Entry>, from: nat)
    requires S.Agreed(s, base, from) && S.Steady(s, a, base, from) && HashesIn(s, s.reigns[s.reignTerm])
    ensures var s' := Step(s, a); s'.reignTerm in s'.reigns && HashesIn(s', s'.reigns[s'.reignTerm])
  {
    var s' := Step(s, a);
    ReignLogGrows(s, a, base, from);
    StepKeepsHashes(s, a, s.reigns[s.reignTerm], s'.reigns[s'.reignTerm]);
  }

  lemma ReignLogGrows(s: Sys, a: Action, base: seq<Entry>, from: nat)
    requires S.Agreed(s, base, from) && S.Steady(s, a, base, from)
    ensures var s' := Step(s, a);
            && s'.reignTerm in s'.reigns
            && s.reigns[s.reignTerm] <= s'.reigns[s'.reignTerm]
            && (!a.Lose? ==> EffectOf(s, a).node.log <= s'.reigns[s'.reignTerm])
  {
    S.StepKeepsAgreement(s, a, base, from);
    if !a.Lose? {
      S.TurnAgrees(s.nodes[a.v], EventOf(s, a), s.reigns[s.reignTerm]);
    }
  }

  /** The entry at `i` is the only one of its id. */
  ghost predicate OnlyOf(log: seq<Entry>, i: int, id: int) {
    0 <= i < |log| && forall l :: 0 <= l < |log| ==> (log[l].id == id <==> l == i)
  }

  /**
   * In a reign that opened on equal logs which held all that the hashes did, first or later, over any
   * network, a query by id on any node finds only entries of the leader's log; so it is exact for an
   * id that the leader's log has once.
   */
  lemma FoundEntriesAreTheLeaders(states: seq<Sys>, actions: seq<Action>, j: nat, base: seq<Entry>, k: nat,
                                  leader: NodeId, v: NodeId, id: int)
    requires S.StableFrom(states, actions, j, base) && HashesIn(states[j], base) && j < k <= |actions|
    requires leader < |states[k].nodes| && v < |states[k].nodes| && states[k].nodes[leader].loop.InLeader?
    ensures var log, r := states[k].nodes[leader].log, Query(states[k].nodes[v], Some(id));
            r.entry.Some? ==>
              && r.entry.value in log && r.entry.value.id == id
              && forall i :: OnlyOf(log, i, id) ==> r.entry.value == log[i]
  {
    StableKeepsHashes(states, actions, j, base, k);
    RunKeepsFinds(states, actions, k);
    assert Finds(states[k].nodes[v].log, states[k].nodes[v].logHash);
  }

  /** The first reign of a cluster opens on empty hashes. */
  lemma FirstHashesAreEmpty(states: seq<Sys>, actions: seq<Action>, k: nat) returns (j: nat)
    requires S.OneReign(states, actions) && k <= |actions| && states[k].reigning.Some?
    ensures j < k && S.StableFrom(states, actions, j, [INIT_ENTRY]) && HashesIn(states[j], [INIT_ENTRY])
    ensures AllExact(states[j])
  {
    j := S.FirstReignIsStable(states, actions, k);
  }

  // ---- one reign, orderly delivery ----

  ghost predicate AllExact(s: Sys) {
    forall v :: 0 <= v < |s.nodes| ==> |s.nodes[v].log| > 0 && Exact(s.nodes[v].log, s.nodes[v].logHash)
  }

  lemma LittleCutKeepsLatest(log: seq<Entry>, prev: nat, x: Entry)
    requires prev < |log| <= prev + 2 && (|log| == prev + 2 ==> log[prev + 1] == x)
    ensures CutKeepsLatest(log, prev, x)
  {
  }

  lemma StepKeepsExact(s: Sys, a: Action, base: seq<Entry>, from: nat)
    requires s in V.Serving(base, from) && V.FineStep(s, a) && AllExact(s)
    ensures AllExact(Step(s, a))
  {
    if !a.Lose? {
      var n, ev := s.nodes[a.v], EventOf(s, a);
      StaysExactIff(n, ev);
      if M.Accepts(n, ev) {
        assert V.Served(s, base, from);
        V.AcceptCutsLittle(s, a, base, from);
        LittleCutKeepsLatest(n.log, ev.msg.prevIndex, ev.msg.entry);
      }
    }
  }

  lemma OpeningKeepsExact(s: Sys, a: Action, base: seq<Entry>)
    requires S.OpensOn(s, a, base) && AllExact(s)
    ensures AllExact(Step(s, a))
  {
    C.OpeningTurn(s.nodes[a.v], EventOf(s, a));
    StaysExactIff(s.nodes[a.v], EventOf(s, a));
  }

  lemma {:induction false} ServedKeepsExact(states: seq<Sys>, actions: seq<Action>, j: nat, base: seq<Entry>, k: nat)
    requires V.ServedFrom(states, actions, j, base) && AllExact(states[j]) && j < k <= |actions|
    ensures AllExact(states[k])
  {
    if k == j + 1 {
      assert Moves(states[j], actions[j], states[k]);
      OpeningKeepsExact(states[j], actions[j], base);
    } else {
      ServedKeepsExact(states, actions, j, base, k - 1);
      MoveKeepsExact(states, actions, j, base, k - 1);
    }
  }

  lemma MoveKeepsExact(states: seq<Sys>, actions: seq<Action>, j: nat, base: seq<Entry>, k: nat)
    requires V.ServedFrom(states, actions, j, base) && j < k < |actions| && AllExact(states[k])
    ensures AllExact(states[k + 1])
  {
    V.ServedKeepsInv(states, actions, j, base, k);
    V.MoveServes(states, actions, j, base, k);
    assert Moves(states[k], actions[k], states[k + 1]);
    StepKeepsExact(states[k], actions[k], base, |states[j].net|);
  }

  /**
   * In a reign that opened on equal logs with exact hashes, first or later, with orderly delivery, a
   * query by id on any node returns the most recent entry of the node's log with that id, or nothing
   * if there is none.
   */
  lemma QueriesByIdAreExact(states: seq<Sys>, actions: seq<Action>, j: nat, base: seq<Entry>, k: nat, v: NodeId,
                            id: int)
    requires V.ServedFrom(states, actions, j, base) && AllExact(states[j]) && j < k <= |actions|
    requires v < |states[k].nodes|
    ensures var n := states[k].nodes[v];
            |n.log| > 0 && Query(n, Some(id)) == ById(Latest(n.log[1..], id))
  {
    ServedKeepsExact(states, actions, j, base, k);
    var n := states[k].nodes[v];
    assert Exact(n.log, n.logHash);
    assert Lookup(n.logHash, id) == Latest(n.log[1..], id);
  }
}
