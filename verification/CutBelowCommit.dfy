/**
 * An orderly run in which a client's query fails. A follower commits `prev_index` with an append
 * (raft.py:247-248, 608-609), which may be beyond what the leader has committed. A later leader that
 * never had those entries cuts them off, and leaves the follower's commit index outside its log. The
 * entries that were cut were committed by no leader, and a query by id still returns them.
 */
module CutBelowCommit {
  import opened Options
  import opened RaftTypes
  import opened RaftSpec
  import opened RaftSystem
  import opened CommitScan
  import opened Runs
  import C = CommitSafety

  const FIRST := Entry(2, "Leader Entry", -1)
  const LAST := Entry(3, "Leader Entry", -1)

  // ---- the first reign, of node 0 ----

  /** The leader, with node 2 behind from the start; `row` is that of node 1, whose match is `done`. */
  predicate Leads(n: Node, log: seq<Entry>, row: Option<nat>, done: nat) {
    && NodeOk(n) && n.id == 0 && n.size == 3 && n.loop.InLeader? && n.role.Leader? && n.term == 2
    && n.log == log && n.commitIndex == 0 && n.clientQueue == []
    && n.nextIndex == [None, row, Some(1)] && n.matchIndex == [|log| - 1, done, 0]
  }

  /** Node 1, which has committed nothing. */
  predicate Follows(n: Node, log: seq<Entry>, hash: map<int, Entry>) {
    n.id == 1 && n.loop.InFollower? && n.term == 2 && n.commitIndex == 0 && n.log == log && n.logHash == hash
  }

  /** A node that listens and has appended nothing. */
  predicate Blank(n: Node, v: NodeId, term: nat) {
    && NodeOk(n) && n.id == v && n.size == 3 && n.loop.InFollower? && n.term == term && n.log == [INIT_ENTRY]
    && n.logHash == map[] && n.commitIndex == 0 && n.lastAppliedIndex == 0 && n.lastAppliedTerm == 1
    && n.clientQueue == []
  }

  const FOR_TWO: Msg := AppendEntries(2, 0, 2, 0, 1, FIRST, 0)

  /** Node 1 holds all of the leader's log, and the first entry is on its way to node 2. */
  ghost predicate Even(s: Sys, log: seq<Entry>, hash: map<int, Entry>) {
    && s in Calm(All) && |s.nodes| == 3 && |log| >= 2 && log[1] == FIRST
    && Leads(s.nodes[0], log, None, |log| - 1) && Follows(s.nodes[1], log, hash) && Blank(s.nodes[2], 2, 1)
    && s.counted == {1, 2}
    && (forall i :: i in s.live ==> !Concerns(s.net[i], 1))
    && 6 in s.live && s.net[6] == FOR_TWO
  }

  /** Node 0 listens and campaigns, and the others listen. */
  lemma Listens() returns (s: Sys)
    ensures s in Calm(All) && |s.nodes| == 3 && s.net == [RequestVotes(2, 0, 0, 1), Vote(2, 0, 0, true)]
    ensures s.live == {} && s.counted == {} && Blank(s.nodes[1], 1, 1) && Blank(s.nodes[2], 2, 1)
    ensures Blank(s.nodes[0].(loop := InFollower), 0, 2) && s.nodes[0].loop == InCandidate(0, 0)
  {
    StartIsReachable(3, All);
    s := Init(3);
    s := Quiet(s, 0, Enter, Effect(InitNode(0, 3).(loop := InFollower), []), All);
    s := Quiet(s, 1, Enter, Effect(InitNode(1, 3).(loop := InFollower), []), All);
    s := Quiet(s, 2, Enter, Effect(InitNode(2, 3).(loop := InFollower), []), All);
    s := Campaigns(s, 0, All);
  }

  /** Node 1 votes for it, and it wins. */
  lemma Wins() returns (s: Sys)
    ensures s in Calm(All) && |s.nodes| == 3 && |s.net| == 3 && s.live == {} && s.counted == {1, 2}
    ensures Blank(s.nodes[1], 1, 2) && Blank(s.nodes[2], 2, 1)
    ensures Blank(s.nodes[0].(loop := InFollower), 0, 2) && s.nodes[0].loop.Idle? && s.nodes[0].role.Leader?
  {
    s := Listens();
    var n, m := s.nodes[0], s.nodes[1];
    s := Asked(s, 1, 0, s.net[0], Effect(m.(term := 2, votedFor := Some(0)), [Vote(2, 1, 0, true)]), All);
    s := Tallied(s, 0, 1, Vote(2, 0, 0, true), n.(loop := InCandidate(1, 1)), All);
    s := Tallied(s, 0, 2, Vote(2, 1, 0, true), n.(role := Leader, loop := Idle), All);
  }

  lemma ReigningLeads(n: Node)
    requires Blank(n.(loop := InFollower), 0, 2) && n.loop.Idle? && n.role.Leader?
    ensures NodeOk(n)
    ensures Leads(Reigning(n), [INIT_ENTRY, FIRST], Some(1), 0)
  {
    assert Reigning(n).nextIndex == [None, Some(1), Some(1)];
    assert Reigning(n).matchIndex == [1, 0, 0];
  }

  /** It opens its reign. */
  lemma FirstOpens() returns (s: Sys)
    ensures s in Calm(All) && |s.nodes| == 3 && |s.net| == 7 && s.live == {4, 5, 6} && s.counted == {1, 2}
    ensures Leads(s.nodes[0], [INIT_ENTRY, FIRST], Some(1), 0)
    ensures Blank(s.nodes[1], 1, 2) && Blank(s.nodes[2], 2, 1)
    ensures s.net[5] == AppendEntries(2, 0, 1, 0, 1, FIRST, 0) && s.net[6] == FOR_TWO && s.net[4].AppendEntries?
    ensures s.net[4].receiver == 0 && s.net[4].leader == 0
  {
    s := Wins();
    ReigningLeads(s.nodes[0]);
    var copies := Copies(Reigning(s.nodes[0]), 3);
    var net := s.net + ([Heartbeat(2, 0)] + copies);
    assert net[4] == copies[0] && net[5] == copies[1] && net[6] == copies[2];
    s := Opens(s, 0, All);
    assert CopiesAt(3, 3) == {4, 5, 6};
  }

  // ---- node 1 keeps up ----

  /** The answer of node 1 settles its row, and commits nothing while node 2 has not answered. */
  lemma AckSettles(n: Node, log: seq<Entry>, done: nat, m: Msg)
    requires |log| >= 2 && Leads(n, log, Some(|log| - 1), done) && m == Ack(2, 1, 0, true)
    ensures Act(n, Receive(m)).out == [] && Leads(Act(n, Receive(m)).node, log, None, |log| - 1)
  {
    var moved := UpdateProgress(n, 1, true);
    assert moved.out == [] && moved.node.matchIndex == [|log| - 1, |log| - 1, 0];
    assert MinOf(moved.node.matchIndex) <= moved.node.matchIndex[2] == 0;
    assert Act(n, Receive(m)) == LeaderAck(n, 1, true) == moved;
  }

  /** Node 1 takes the leader's last entry, and the leader its answer. */
  lemma CatchesUp(s: Sys, log: seq<Entry>, hash: map<int, Entry>, i: nat) returns (s': Sys)
    requires s in Calm(All) && |s.nodes| == 3 && |log| >= 2 && log[1] == FIRST && log[|log| - 1].term == 2
    requires |s.nodes[0].matchIndex| == 3 && Leads(s.nodes[0], log, Some(|log| - 1), s.nodes[0].matchIndex[1])
    requires Follows(s.nodes[1], log[..|log| - 1], hash) && Blank(s.nodes[2], 2, 1) && s.counted == {1, 2}
    requires i in s.live && s.net[i] == AppendEntries(2, 0, 1, |log| - 2, log[|log| - 2].term, log[|log| - 1], 0)
    requires (forall j :: j in s.live && j != i ==> !Concerns(s.net[j], 1)) && 6 in s.live && s.net[6] == FOR_TWO
    ensures Even(s', log, hash[log[|log| - 1].id := log[|log| - 1]])
    ensures |s'.net| == |s.net| + 1
  {
    var p, x, n := |s.net|, log[|log| - 1], s.nodes[1];
    var m := Ack(2, 1, 0, true);
    var n' := AppendAt(n, |log| - 2, x, false);
    assert n.log[..|log| - 1] + [x] == log;
    s' := Answers(s, 1, i, s.net[i], n', m, All);
    AckSettles(s'.nodes[0], log, s.nodes[0].matchIndex[1], m);
    assert s'.net[p] == m;
    s' := Answered(s', 0, p, m, Act(s'.nodes[0], Receive(m)), All);
    assert s'.net == s.net + [m];
    assert forall j :: 0 <= j < |s.net| ==> s'.net[j] == s.net[j];
  }

  lemma FirstRound() returns (s: Sys)
    ensures Even(s, [INIT_ENTRY, FIRST], map[-1 := FIRST]) && |s.net| == 8
  {
    s := FirstOpens();
    var log := [INIT_ENTRY, FIRST];
    assert log[..1] == [INIT_ENTRY];
    assert !Concerns(s.net[4], 1) && !Concerns(s.net[6], 1);
    s := CatchesUp(s, log, map[], 5);
    assert map[][-1 := FIRST] == map[-1 := FIRST];
  }

  /** A client's entry goes to the leader itself and to node 1. */
  lemma ClientEffect(n: Node, log: seq<Entry>, x: Entry)
    requires |log| >= 2 && Leads(n, log, None, |log| - 1)
    ensures var q := n.(clientQueue := [x]);
            && NodeOk(q)
            && Act(q, TakeClient).out == [AppendEntries(2, 0, 0, |log| - 1, log[|log| - 1].term, x, 0),
                                          AppendEntries(2, 0, 1, |log| - 1, log[|log| - 1].term, x, 0)]
            && Leads(Act(q, TakeClient).node, log + [x], Some(|log|), |log| - 1)
  {
    var q := n.(clientQueue := [x]);
    var r := q.(clientQueue := []);
    var r' := Extended(r, x);
    assert [x][1..] == [];
    assert Broadcasts(r', r.nextIndex, |log|, 0) == [];
    assert Broadcasts(r', r.nextIndex, |log|, 1) == [ReplicationOf(r', 0, |log|)];
    assert Broadcasts(r', r.nextIndex, |log|, 2) == [ReplicationOf(r', 0, |log|), ReplicationOf(r', 1, |log|)];
    assert Broadcasts(r', r.nextIndex, |log|, 3) == [ReplicationOf(r', 0, |log|), ReplicationOf(r', 1, |log|)];
    var e := Act(q, TakeClient);
    assert e == BroadcastAppend(r, x);
    assert e.node.nextIndex == [None, Some(|log|), Some(1)] && e.node.matchIndex == [|log|, |log| - 1, 0];
  }

  /** A client's entry is appended and sent. */
  lemma Takes(s: Sys, log: seq<Entry>, hash: map<int, Entry>, value: string, id: int) returns (s': Sys)
    requires Even(s, log, hash)
    ensures var x := Entry(2, value, id);
            && s' in Calm(All) && |s'.nodes| == 3 && Leads(s'.nodes[0], log + [x], Some(|log|), |log| - 1)
            && s'.nodes[1] == s.nodes[1] && s'.nodes[2] == s.nodes[2] && s'.counted == s.counted
            && s.net <= s'.net && |s'.net| == |s.net| + 2 && s'.live == s.live + {|s.net|, |s.net| + 1}
            && s'.net[|s.net| + 1] == AppendEntries(2, 0, 1, |log| - 1, log[|log| - 1].term, x, 0)
            && !Concerns(s'.net[|s.net|], 1)
  {
    var x, n := Entry(2, value, id), s.nodes[0];
    ClientEffect(n, log, x);
    var e := Act(n.(clientQueue := [x]), TakeClient);
    assert forall f :: !Concerns(e.out[0], f);
    assert forall f :: Concerns(e.out[1], f) ==> f == 1;
    assert Apart(s, e.out);
    s' := ClientAppends(s, 0, value, id, e, All);
    var p := |s.net|;
    assert s'.net[p] == e.out[0] && s'.net[p + 1] == e.out[1];
    assert NewLive(p, s.net + e.out) == {p, p + 1};
  }

  /** A client's entry is appended, and reaches node 1. */
  lemma Round(s: Sys, log: seq<Entry>, hash: map<int, Entry>, value: string, id: int) returns (s': Sys)
    requires Even(s, log, hash) && log[|log| - 1].term == 2
    ensures var x := Entry(2, value, id); Even(s', log + [x], hash[id := x])
    ensures |s'.net| == |s.net| + 3
  {
    var x := Entry(2, value, id);
    s' := Takes(s, log, hash, value, id);
    var more := log + [x];
    assert more[..|more| - 1] == log && more[|more| - 2] == log[|log| - 1];
    assert forall j :: j in s.live ==> s'.net[j] == s.net[j];
    s' := CatchesUp(s', more, hash, |s.net| + 1);
  }

  // ---- node 1 commits ahead of the leader ----

  /** The leader has committed the first entry, and sends node 2 the second one. */
  predicate Committing(n: Node, log: seq<Entry>) {
    && NodeOk(n) && n.id == 0 && n.size == 3 && n.loop.InLeader? && n.role.Leader? && n.term == 2
    && n.log == log && n.commitIndex == 1 && n.clientQueue == []
    && n.nextIndex == [None, None, Some(2)] && n.matchIndex == [|log| - 1, |log| - 1, 1]
  }

  /** Node 2 with the first entry only. */
  predicate Behind(n: Node, term: nat) {
    && NodeOk(n) && n.id == 2 && n.size == 3 && n.loop.InFollower? && n.term == term && n.log == [INIT_ENTRY, FIRST]
    && n.commitIndex == 0 && n.lastAppliedIndex == 0 && n.lastAppliedTerm == 1
  }

  ghost predicate Uneven(s: Sys, log: seq<Entry>, hash: map<int, Entry>) {
    && s in Calm(All) && |s.nodes| == 3 && |log| >= 3 && log[1] == FIRST
    && Committing(s.nodes[0], log) && Follows(s.nodes[1], log, hash) && Behind(s.nodes[2], 1)
    && s.counted == {1, 2} && forall i :: i in s.live ==> !Concerns(s.net[i], 1)
  }

  lemma TwoEffect(n: Node, log: seq<Entry>, m: Msg)
    requires |log| >= 3 && Leads(n, log, None, |log| - 1) && m == Ack(1, 2, 0, true)
    ensures var e := Act(n, Receive(m));
            && e.out != [] && e.out[0].AppendEntries? && e.out[0].receiver == 2 && NoReplication(e.out[1..])
            && Committing(e.node, log)
  {
    var moved := UpdateProgress(n, 2, true);
    assert moved.node.matchIndex == [|log| - 1, |log| - 1, 1] && moved.node.nextIndex == [None, None, Some(2)];
    assert moved.out == [ReplicationOf(n, 2, 2)];
    assert MinOf(moved.node.matchIndex) == 1;
    var told := BroadcastCommit(moved.node, 1);
    var e := Act(n, Receive(m));
    assert e == LeaderAck(n, 2, true) == Effect(told.node, moved.out + told.out);
    assert e.out[1..] == told.out;
  }

  /** Node 2 takes the first entry. */
  lemma TwoTakes(s: Sys, log: seq<Entry>, hash: map<int, Entry>) returns (s': Sys)
    requires Even(s, log, hash)
    ensures s' in Calm(All) && |s'.nodes| == 3 && s'.nodes == s.nodes[2 := s'.nodes[2]] && Behind(s'.nodes[2], 1)
    ensures s'.net == s.net + [Ack(1, 2, 0, true)] && s'.live == s.live - {6} + {|s.net|} && s'.counted == s.counted
  {
    var n := s.nodes[2];
    assert n.log[..1] + [FIRST] == [INIT_ENTRY, FIRST];
    s' := Answers(s, 2, 6, FOR_TWO, AppendAt(n, 0, FIRST, false), Ack(1, 2, 0, true), All);
  }

  /** And the leader commits it. */
  lemma TwoAnswers(s: Sys, log: seq<Entry>, hash: map<int, Entry>) returns (s': Sys)
    requires Even(s, log, hash) && |log| >= 3
    ensures Uneven(s', log, hash)
  {
    var p, m := |s.net|, Ack(1, 2, 0, true);
    var before := TwoTakes(s, log, hash);
    var n := before.nodes[0];
    assert before.net[p] == m;
    TwoEffect(n, log, m);
    var e := Act(n, Receive(m));
    s' := AnsweredOn(before, 0, p, m, e, All);
    forall i | i in s'.live
      ensures !Concerns(s'.net[i], 1)
    {
      if i == p + 1 {
        assert s'.net[i] == e.out[0];
      } else {
        assert i in s.live && s'.net[i] == s.net[i];
      }
    }
  }

  /** A client's entry goes out with the new commit index. */
  lemma LaterEffect(n: Node, log: seq<Entry>, x: Entry)
    requires |log| >= 3 && Committing(n, log)
    ensures var q := n.(clientQueue := [x]);
            && NodeOk(q)
            && Act(q, TakeClient).out == [AppendEntries(2, 0, 0, |log| - 1, log[|log| - 1].term, x, 1),
                                          AppendEntries(2, 0, 1, |log| - 1, log[|log| - 1].term, x, 1)]
            && Act(q, TakeClient).node.loop.InLeader? && Act(q, TakeClient).node.term == 2
  {
    var q := n.(clientQueue := [x]);
    var r := q.(clientQueue := []);
    var r' := Extended(r, x);
    assert [x][1..] == [];
    assert Broadcasts(r', r.nextIndex, |log|, 0) == [];
    assert Broadcasts(r', r.nextIndex, |log|, 1) == [ReplicationOf(r', 0, |log|)];
    assert Broadcasts(r', r.nextIndex, |log|, 2) == [ReplicationOf(r', 0, |log|), ReplicationOf(r', 1, |log|)];
    assert Broadcasts(r', r.nextIndex, |log|, 3) == [ReplicationOf(r', 0, |log|), ReplicationOf(r', 1, |log|)];
    assert Act(q, TakeClient) == BroadcastAppend(r, x);
  }

  /** The leader of term 2 still leads, and node 1 has committed up to `c`. */
  ghost predicate Overtaken(s: Sys, log: seq<Entry>, hash: map<int, Entry>, c: nat) {
    && s in Calm(All) && |s.nodes| == 3 && s.counted == {1, 2}
    && s.nodes[0].loop.InLeader? && s.nodes[0].term == 2
    && Committed1(s.nodes[1], log, hash, c) && Behind(s.nodes[2], 1)
  }

  predicate Committed1(n: Node, log: seq<Entry>, hash: map<int, Entry>, c: nat) {
    n.id == 1 && n.loop.InFollower? && n.term == 2 && n.commitIndex == c && n.log == log && n.logHash == hash
  }

  /** A client's entry goes to node 1 with the new commit index. */
  lemma SendsLater(s: Sys, log: seq<Entry>, hash: map<int, Entry>, value: string, id: int) returns (s': Sys)
    requires Uneven(s, log, hash)
    ensures s' in Calm(All) && |s'.nodes| == 3 && s'.counted == {1, 2}
    ensures s'.nodes[0].loop.InLeader? && s'.nodes[0].term == 2
    ensures s'.nodes[1] == s.nodes[1] && s'.nodes[2] == s.nodes[2]
    ensures var p := |s.net|;
            && p + 1 in s'.live && p + 1 < |s'.net|
            && s'.net[p + 1] == AppendEntries(2, 0, 1, |log| - 1, log[|log| - 1].term, Entry(2, value, id), 1)
  {
    var p, x, n := |s.net|, Entry(2, value, id), s.nodes[0];
    LaterEffect(n, log, x);
    var e := Act(n.(clientQueue := [x]), TakeClient);
    assert forall f :: !Concerns(e.out[0], f);
    assert forall f :: Concerns(e.out[1], f) ==> f == 1;
    assert Apart(s, e.out);
    s' := ClientAppends(s, 0, value, id, e, All);
    assert s'.net[p + 1] == e.out[1];
    assert p + 1 in NewLive(p, s.net + e.out);
  }

  /** Node 1 takes it, and commits the index before it. */
  lemma Overtakes(s: Sys, log: seq<Entry>, hash: map<int, Entry>, value: string, id: int) returns (s': Sys)
    requires Uneven(s, log, hash) && log[|log| - 1].term == 2
    ensures var x := Entry(2, value, id); Overtaken(s', log + [x], hash[id := x], |log| - 1)
  {
    var i, x := |s.net| + 1, Entry(2, value, id);
    s' := SendsLater(s, log, hash, value, id);
    var f := s'.nodes[1];
    assert f.log[..|log|] + [x] == log + [x];
    s' := Answers(s', 1, i, s'.net[i], AppendAt(f, |log| - 1, x, true), Ack(2, 1, 0, true), All);
  }

  // ---- the second reign, of node 2 ----

  /** Node 2 campaigns, and again, and the leader steps down for it. */
  lemma StepsDown(s: Sys, log: seq<Entry>, hash: map<int, Entry>, c: nat) returns (s': Sys, p: nat)
    requires Overtaken(s, log, hash, c)
    ensures s' in Calm(All) && |s'.nodes| == 3 && s'.counted == {1, 2} && s'.nodes[0].loop.Idle?
    ensures Committed1(s'.nodes[1], log, hash, c)
    ensures Behind(s'.nodes[2].(loop := InFollower), 3) && s'.nodes[2].loop == InCandidate(0, 0)
    ensures p > 2 && |s'.net| == p + 2 && s'.net[p] == Vote(3, 2, 2, true) && s'.net[p + 1] == Vote(3, 0, 2, true)
    ensures p !in s'.live && p + 1 !in s'.live
  {
    var n := s.nodes[0];
    s' := Campaigns(s, 2, All);
    s' := Campaigns(s', 2, All);
    p := |s'.net| - 1;
    assert s'.net[p - 1] == RequestVotes(3, 2, 0, 1) && s'.net[p] == Vote(3, 2, 2, true);
    var deposed := n.(term := 3, votedFor := Some(2), role := Follower, loop := Idle);
    assert s.live == s'.live && forall i :: i in s.live ==> i < |s.net|;
    assert s'.nodes[0] == n;
    s' := Asked(s', 0, p - 1, RequestVotes(3, 2, 0, 1), Effect(deposed, [Vote(3, 0, 2, true)]), All);
  }

  /** Node 2 wins, and the messages of the first reign are gone. */
  lemma SecondWins(s: Sys, log: seq<Entry>, hash: map<int, Entry>, c: nat) returns (s': Sys)
    requires Overtaken(s, log, hash, c)
    ensures s' in Calm(All) && |s'.nodes| == 3 && s'.live == {} && s'.nodes[0].loop.Idle?
    ensures Committed1(s'.nodes[1], log, hash, c)
    ensures Behind(s'.nodes[2].(loop := InFollower), 3) && s'.nodes[2].loop.Idle? && s'.nodes[2].role.Leader?
  {
    var p: nat;
    s', p := StepsDown(s, log, hash, c);
    var n := s'.nodes[2];
    s' := Tallied(s', 2, p, Vote(3, 2, 2, true), n.(loop := InCandidate(1, 1)), All);
    s' := Tallied(s', 2, p + 1, Vote(3, 0, 2, true), n.(role := Leader, loop := Idle), All);
    s' := DropAll(s', All);
  }

  /** Its first entry cuts the log of node 1 after the first one. */
  lemma Cuts(s: Sys, log: seq<Entry>, hash: map<int, Entry>, c: nat) returns (s': Sys)
    requires Overtaken(s, log, hash, c) && |log| >= 2 && log[..2] == [INIT_ENTRY, FIRST]
    ensures s' in Calm(All) && |s'.nodes| == 3
    ensures s'.nodes[1].log == [INIT_ENTRY, FIRST, LAST] && s'.nodes[1].logHash == hash[-1 := LAST]
    ensures s'.nodes[1].commitIndex == c
  {
    s' := SecondWins(s, log, hash, c);
    var p, n := |s'.net|, s'.nodes[2];
    var beat, copies := Heartbeat(n.term, n.id), Copies(Reigning(n), 3);
    var net := s'.net + ([beat] + copies);
    assert net[p + 2] == copies[1] == AppendEntries(3, 2, 1, 1, 2, LAST, 0);
    s' := Opens(s', 2, All);
    assert p + 2 in CopiesAt(p, 3);
    var f := s'.nodes[1];
    assert f.log[1] == log[..2][1] == FIRST;
    s' := Answers(s', 1, p + 2, copies[1], AppendAt(f, 1, LAST, false), Ack(2, 1, 2, true), All);
  }

  // ---- the failed queries ----

  const X := Entry(2, "x", 1)
  const Y := Entry(2, "y", 2)
  const Z := Entry(2, "z", 3)

  /** Three client entries reach node 1, the first entry node 2, and node 1 commits index 3. */
  lemma Commits() returns (s: Sys, hash: map<int, Entry>)
    ensures Overtaken(s, [INIT_ENTRY, FIRST, X, Y, Z], hash, 3) && 1 in hash && hash[1] == X
  {
    var log := [INIT_ENTRY, FIRST];
    s := FirstRound();
    hash := map[-1 := FIRST];
    s := Round(s, log, hash, "x", 1);
    log, hash := log + [X], hash[1 := X];
    s := Round(s, log, hash, "y", 2);
    log, hash := log + [Y], hash[2 := Y];
    s := TwoAnswers(s, log, hash);
    s := Overtakes(s, log, hash, "z", 3);
    hash := hash[3 := Z];
    assert log + [Z] == [INIT_ENTRY, FIRST, X, Y, Z];
  }

  /** In an orderly run no commit is lost. */
  lemma OrderlyLosesNothing(s: Sys)
    requires Reachable(s, All)
    ensures C.NothingLost(s)
  {
    var states, actions :| EndsIn(states, actions, s, All);
    assert C.OrderlyRun(states, actions) by {
      forall k | 0 <= k < |actions|
        ensures Moves(states[k], actions[k], states[k + 1]) && C.Orderly(states[k], actions[k])
      {
        assert Meets(states[k], actions[k], All);
      }
    }
    C.OrderlyRunKeepsInv(states, actions, |actions|);
  }

  /**
   * In an orderly run a follower's commit index may leave its log, and then its query fails. The
   * query by id still finds an entry that was cut from the log and that no leader has ever committed.
   */
  lemma QueriesFail() returns (s: Sys)
    ensures Reachable(s, All) && |s.nodes| == 3
    ensures Query(s.nodes[1], None) == OutOfRange
    ensures Query(s.nodes[1], Some(1)) == ById(Some(X)) && X !in s.nodes[1].log
    ensures forall p :: p in s.commits ==> X !in p
  {
    var before, hash := Commits();
    var log := [INIT_ENTRY, FIRST, X, Y, Z];
    assert log[..2] == [INIT_ENTRY, FIRST];
    s := Cuts(before, log, hash, 3);
    OrderlyLosesNothing(s);
    var n := s.nodes[1];
    forall p | p in s.commits
      ensures X !in p
    {
      assert p <= n.log;
    }
  }
}
