/**
 * Why reigns must not overlap: two leaders of five nodes, one of which knows nothing of the other's
 * election, and an entry that the new one commits while the old one overwrites it. An AppendEntries
 * does not raise the follower's term (raft.py:235-251), so a node that did not hear of the election
 * accepts appends of both. All other assumptions of the theorems hold.
 */
module OverlappingReigns {
  import opened Options
  import opened RaftTypes
  import opened RaftSpec
  import opened RaftSystem
  import opened CommitScan
  import opened Runs
  import C = CommitSafety

  const D: Demand := AllBut(ReignsApart)

  const OLD_ENTRY := Entry(2, "Leader Entry", -1)
  const NEW_ENTRY := Entry(3, "Leader Entry", -1)

  /** A node that has appended nothing yet. */
  predicate Blank(n: Node) {
    && NodeOk(n) && n.size == 5 && n.log == [INIT_ENTRY] && n.logHash == map[]
    && n.commitIndex == 0 && n.lastAppliedIndex == 0 && n.lastAppliedTerm == 1
  }

  predicate Listens(n: Node, term: nat) {
    Blank(n) && n.loop.InFollower? && n.term == term
  }

  /** A winner of `term`, about to open its reign. */
  predicate Won(n: Node, v: NodeId, term: nat) {
    Blank(n) && n.id == v && n.role.Leader? && n.loop.Idle? && n.term == term
  }

  // ---- an election ----

  /** A follower grants its vote to a candidate of a higher term. */
  lemma Grants(s: Sys, v: NodeId, i: nat, c: NodeId, term: nat) returns (s': Sys)
    requires s in Calm(D) && v < |s.nodes| && i < |s.net| && i !in s.live
    requires s.net[i] == RequestVotes(term, c, 0, 1)
    requires Blank(s.nodes[v]) && s.nodes[v].loop.InFollower? && s.nodes[v].term < term && s.nodes[v].id == v
    ensures s' in Calm(D)
    ensures After(s, v, Effect(s.nodes[v].(term := term, votedFor := Some(c)), [Vote(term, v, c, true)]), s.counted, s')
  {
    var e := Effect(s.nodes[v].(term := term, votedFor := Some(c)), [Vote(term, v, c, true)]);
    s' := Asked(s, v, i, s.net[i], e, D);
  }

  /** A candidate of five wins with the votes at three positions. */
  lemma Wins3(s: Sys, v: NodeId, term: nat, i: nat, j: nat, k: nat, x: NodeId, y: NodeId, z: NodeId) returns (s': Sys)
    requires s in Calm(D) && v < |s.nodes| && s.live == {}
    requires s.nodes[v].id == v && s.nodes[v].size == 5
    requires s.nodes[v].term == term && s.nodes[v].loop == InCandidate(0, 0)
    requires i < j < k < |s.net| && i !in s.counted && j !in s.counted && k !in s.counted
    requires s.net[i] == Vote(term, x, v, true) && s.net[j] == Vote(term, y, v, true)
    requires s.net[k] == Vote(term, z, v, true)
    ensures s' in Calm(D)
    ensures After(s, v, Effect(s.nodes[v].(role := Leader, loop := Idle), []), s.counted + {i, j, k}, s')
  {
    var n := s.nodes[v];
    s' := Tallied(s, v, i, s.net[i], n.(loop := InCandidate(1, 1)), D);
    s' := Tallied(s', v, j, s.net[j], n.(loop := InCandidate(2, 2)), D);
    s' := Tallied(s', v, k, s.net[k], n.(role := Leader, loop := Idle), D);
    assert s'.counted == s.counted + {i, j, k};
  }

  /** Nodes below `k` listen. */
  lemma {:induction false} Listen(k: nat) returns (s: Sys)
    requires k <= 5
    ensures s in Calm(D) && |s.nodes| == 5 && s.net == [] && s.live == {} && s.counted == {}
    ensures forall v :: 0 <= v < k ==> Listens(s.nodes[v], 1) && s.nodes[v].id == v
    ensures forall v :: k <= v < 5 ==> s.nodes[v] == InitNode(v, 5)
  {
    if k == 0 {
      StartIsReachable(5, D);
      s := Init(5);
    } else {
      s := Listen(k - 1);
      s := Quiet(s, k - 1, Enter, Effect(s.nodes[k - 1].(loop := InFollower), []), D);
    }
  }

  /** Node 0 campaigns in term 2. */
  lemma FirstCampaigns() returns (s: Sys)
    ensures s in Calm(D) && |s.nodes| == 5 && s.live == {} && s.counted == {}
    ensures s.net == [RequestVotes(2, 0, 0, 1), Vote(2, 0, 0, true)]
    ensures Blank(s.nodes[0]) && s.nodes[0].loop == InCandidate(0, 0) && s.nodes[0].term == 2
    ensures forall v :: 0 <= v < 5 ==> s.nodes[v].id == v && (v > 0 ==> Listens(s.nodes[v], 1))
  {
    s := Listen(5);
    s := Campaigns(s, 0, D);
  }

  /** Nodes 1 and 3 vote for it, and it wins. */
  lemma FirstWins() returns (s: Sys)
    ensures s in Calm(D) && |s.nodes| == 5 && |s.net| == 4 && s.live == {} && s.counted == {1, 2, 3}
    ensures Won(s.nodes[0], 0, 2)
    ensures Listens(s.nodes[1], 2) && Listens(s.nodes[2], 1) && Listens(s.nodes[3], 2) && Listens(s.nodes[4], 1)
    ensures forall v :: 0 <= v < 5 ==> s.nodes[v].id == v
  {
    s := FirstCampaigns();
    s := Grants(s, 1, 0, 0, 2);
    s := Grants(s, 3, 0, 0, 2);
    s := Wins3(s, 0, 2, 1, 2, 3, 0, 1, 3);
    assert s.counted == {1, 2, 3};
  }

  /** The opening of node 0 is lost. */
  lemma FirstReigns() returns (s: Sys)
    ensures s in Calm(D) && |s.nodes| == 5 && |s.net| == 10 && s.live == {} && s.counted == {1, 2, 3}
    ensures OldLeads(s.nodes[0])
    ensures Listens(s.nodes[1], 2) && Listens(s.nodes[2], 1) && Listens(s.nodes[3], 2) && Listens(s.nodes[4], 1)
    ensures forall v :: 0 <= v < 5 ==> s.nodes[v].id == v
  {
    s := FirstWins();
    OldIsLeading(s.nodes[0]);
    s := Opens(s, 0, D);
    s := DropAll(s, D);
  }

  /** Node 1 campaigns in term 3. */
  lemma SecondCampaigns() returns (s: Sys)
    ensures s in Calm(D) && |s.nodes| == 5 && |s.net| == 12 && s.live == {} && s.counted == {1, 2, 3}
    ensures s.net[10] == RequestVotes(3, 1, 0, 1) && s.net[11] == Vote(3, 1, 1, true)
    ensures OldLeads(s.nodes[0]) && Blank(s.nodes[1]) && s.nodes[1].loop == InCandidate(0, 0) && s.nodes[1].term == 3
    ensures Listens(s.nodes[2], 1) && Listens(s.nodes[3], 2) && Listens(s.nodes[4], 1)
    ensures forall v :: 0 <= v < 5 ==> s.nodes[v].id == v
  {
    s := FirstReigns();
    s := Campaigns(s, 1, D);
  }

  /** Nodes 3 and 4 vote for it; nodes 0 and 2 hear of nothing. */
  lemma SecondVotes() returns (s: Sys)
    ensures s in Calm(D) && |s.nodes| == 5 && |s.net| == 14 && s.live == {} && s.counted == {1, 2, 3}
    ensures s.net[10] == RequestVotes(3, 1, 0, 1) && s.net[11] == Vote(3, 1, 1, true)
    ensures s.net[12] == Vote(3, 3, 1, true) && s.net[13] == Vote(3, 4, 1, true)
    ensures OldLeads(s.nodes[0]) && Blank(s.nodes[1]) && s.nodes[1].loop == InCandidate(0, 0) && s.nodes[1].term == 3
    ensures s.nodes[1].id == 1 && Listens(s.nodes[2], 1) && Listens(s.nodes[3], 3) && Listens(s.nodes[4], 3)
  {
    s := SecondCampaigns();
    s := Grants(s, 3, 10, 1, 3);
    s := Grants(s, 4, 10, 1, 3);
  }

  /** Node 1 wins. */
  lemma SecondWins() returns (s: Sys)
    ensures s in Calm(D) && |s.nodes| == 5 && |s.net| == 14 && s.net[10] == RequestVotes(3, 1, 0, 1) && s.live == {}
    ensures OldLeads(s.nodes[0]) && Won(s.nodes[1], 1, 3)
    ensures Listens(s.nodes[2], 1) && Listens(s.nodes[3], 3) && Listens(s.nodes[4], 3)
  {
    s := SecondVotes();
    s := Wins3(s, 1, 3, 11, 12, 13, 1, 3, 4);
  }

  // ---- two reigns ----

  /** Node 0 still in its reign, with nothing acknowledged. */
  predicate OldLeads(n: Node) {
    && NodeOk(n) && n.id == 0 && n.size == 5 && n.loop.InLeader? && n.term == 2 && n.commitIndex == 0
    && n.log == [INIT_ENTRY, OLD_ENTRY] && n.logHash.Keys <= {-1} && n.nextIndex[2] == Some(1)
  }

  /** Node 1 in its reign, with the answers of `acked` in its rows. */
  predicate NewLeads(n: Node, acked: set<NodeId>) {
    && NodeOk(n) && n.id == 1 && n.size == 5 && n.loop.InLeader? && n.term == 3 && n.commitIndex == 0
    && n.log == [INIT_ENTRY, NEW_ENTRY]
    && forall f :: 0 <= f < 5 ==>
         && n.nextIndex[f] == (if f == 1 || f in acked then None else Some(1))
         && n.matchIndex[f] == if f == 1 || f in acked then 1 else 0
  }

  /** A follower whose log ends with the entry after the first, if it has one. */
  predicate Follows(n: Node) {
    && n.loop.InFollower? && n.commitIndex == 0 && n.term <= 3
    && |n.log| > 0 && n.log[0] == INIT_ENTRY && n.logHash.Keys <= {-1}
  }

  lemma OldIsLeading(n: Node)
    requires Won(n, 0, 2)
    ensures OldLeads(Reigning(n))
  {
  }

  lemma NewIsLeading(n: Node)
    requires Won(n, 1, 3)
    ensures NewLeads(Reigning(n), {})
  {
  }

  /** The copy of an entry for node `f`. */
  function Copy(term: nat, leader: NodeId, f: NodeId, entry: Entry): Msg {
    AppendEntries(term, leader, f, 0, 1, entry, 0)
  }

  /** The messages that matter later, at their places in the network. */
  predicate Sent(net: seq<Msg>) {
    && |net| >= 20 && net[10] == RequestVotes(3, 1, 0, 1)
    && net[15] == Copy(3, 1, 0, NEW_ENTRY) && net[16] == Copy(3, 1, 1, NEW_ENTRY) && net[17] == Copy(3, 1, 2, NEW_ENTRY)
    && net[18] == Copy(3, 1, 3, NEW_ENTRY) && net[19] == Copy(3, 1, 4, NEW_ENTRY)
  }

  lemma OpeningIsSent(net: seq<Msg>, n: Node)
    requires |net| == 14 && net[10] == RequestVotes(3, 1, 0, 1) && NewLeads(n, {})
    ensures Sent(net + ([Heartbeat(3, 1)] + Copies(n, 5)))
  {
  }

  /** What the story is about: the two leaders, what node 2 holds, and what is outstanding. */
  ghost predicate Scene(s: Sys, acked: set<NodeId>, log: seq<Entry>, live: set<nat>) {
    && s in Calm(D) && |s.nodes| == 5 && Sent(s.net) && s.live == live
    && NewLeads(s.nodes[1], acked)
    && Follows(s.nodes[2]) && s.nodes[2].term <= 2 && s.nodes[2].log == log
  }

  /** Node 1 opens its reign while node 0 is still in its own. */
  lemma SecondReigns() returns (s: Sys)
    ensures Scene(s, {}, [INIT_ENTRY], {15, 16, 17, 18, 19}) && |s.net| == 20
    ensures OldLeads(s.nodes[0]) && Follows(s.nodes[3]) && Follows(s.nodes[4])
  {
    s := SecondWins();
    NewIsLeading(s.nodes[1]);
    OpeningIsSent(s.net, Reigning(s.nodes[1]));
    s := Opens(s, 1, D);
    assert CopiesAt(14, 5) == {15, 16, 17, 18, 19};
  }

  /** The log of a follower after an entry that follows the first one. */
  function Taken(n: Node, entry: Entry): Node
    requires |n.log| > 0
  {
    AppendAt(n, 0, entry, false)
  }

  lemma TakenFollows(n: Node, entry: Entry)
    requires Follows(n) && entry.id == -1
    ensures Follows(Taken(n, entry)) && Taken(n, entry).log == [INIT_ENTRY, entry]
  {
    assert n.log[..1] == [INIT_ENTRY];
  }

  /** A follower takes an entry, and answers. */
  lemma Takes(s: Sys, v: NodeId, i: nat, m: Msg) returns (s': Sys)
    requires s in Calm(D) && |s.nodes| == 5 && v < 5 && i in s.live && s.net[i] == m
    requires m.AppendEntries? && m == Copy(m.term, m.leader, v, m.entry) && m.entry.id == -1 && m.leader != v
    requires Follows(s.nodes[v]) && s.nodes[v].term <= m.term
    ensures s' in Calm(D) && s'.nodes == s.nodes[v := Taken(s.nodes[v], m.entry)]
    ensures s'.net == s.net + [Ack(s.nodes[v].term, v, m.leader, true)] && s'.live == s.live - {i} + {|s.net|}
    ensures s.commits <= s'.commits
  {
    var n := s.nodes[v];
    s' := Answers(s, v, i, m, Taken(n, m.entry), Ack(n.term, v, m.leader, true), D);
  }

  /** The new leader's row for `f` moves; while that for `g` is 0, nothing is committed. */
  lemma AckEffect(n: Node, acked: set<NodeId>, f: NodeId, g: NodeId, term: nat)
    requires NewLeads(n, acked) && f < 5 && f != 1 && f !in acked && g < 5 && g != 1 && g != f && g !in acked
    ensures var e := Act(n, Receive(Ack(term, f, 1, true)));
            e.out == [] && NewLeads(e.node, acked + {f})
  {
    var moved := UpdateProgress(n, f, true);
    assert moved.out == [] && NewLeads(moved.node, acked + {f});
    assert MinOf(moved.node.matchIndex) <= moved.node.matchIndex[g] == 0;
    assert Act(n, Receive(Ack(term, f, 1, true))) == moved;
  }

  /** A follower takes the new leader's entry, and the leader its answer; node `g` has yet to answer. */
  lemma Joins(s: Sys, v: NodeId, i: nat, g: NodeId, acked: set<NodeId>) returns (s': Sys)
    requires s in Calm(D) && |s.nodes| == 5 && v < 5 && v != 1 && v !in acked && NewLeads(s.nodes[1], acked)
    requires g < 5 && g != 1 && g != v && g !in acked
    requires i in s.live && s.net[i] == Copy(3, 1, v, NEW_ENTRY) && Follows(s.nodes[v])
    ensures s' in Calm(D) && |s'.nodes| == 5 && NewLeads(s'.nodes[1], acked + {v})
    ensures s'.nodes[v] == Taken(s.nodes[v], NEW_ENTRY)
    ensures forall w :: 0 <= w < 5 && w != 1 && w != v ==> s'.nodes[w] == s.nodes[w]
    ensures s.net <= s'.net && |s'.net| == |s.net| + 1 && s'.live == s.live - {i}
  {
    var p, n := |s.net|, s.nodes[v];
    var m := Ack(n.term, v, 1, true);
    s' := Takes(s, v, i, s.net[i]);
    AckEffect(s'.nodes[1], acked, v, g, n.term);
    assert s'.net[p] == m;
    var e := Act(s'.nodes[1], Receive(m));
    s' := Answered(s', 1, p, m, e, D);
    assert s'.net == s.net + [m];
  }

  // ---- the lost commit ----

  /** Node 2 takes the new leader's entry. */
  lemma NewReachesTwo() returns (s: Sys)
    ensures Scene(s, {2}, [INIT_ENTRY, NEW_ENTRY], {15, 16, 18, 19}) && |s.net| == 21
    ensures OldLeads(s.nodes[0]) && Follows(s.nodes[3]) && Follows(s.nodes[4])
  {
    var before := SecondReigns();
    TakenFollows(before.nodes[2], NEW_ENTRY);
    s := Joins(before, 2, 17, 0, {});
    assert {} + {2} == {2};
  }

  const AGAIN: Msg := Copy(2, 0, 2, OLD_ENTRY)

  /** Nothing is outstanding for node 2. */
  lemma AgainIsApart(s: Sys)
    requires Sent(s.net) && s.live == {15, 16, 18, 19}
    ensures Apart(s, [AGAIN])
  {
    forall i | i in s.live
      ensures !Concerns(s.net[i], 2)
    {
      assert i == 15 || i == 16 || i == 18 || i == 19;
    }
  }

  /** The old leader resends its entry to node 2. */
  lemma Resends() returns (s: Sys)
    ensures Scene(s, {2}, [INIT_ENTRY, NEW_ENTRY], {15, 16, 18, 19, 21}) && |s.net| == 22 && s.net[21] == AGAIN
    ensures OldLeads(s.nodes[0]) && Follows(s.nodes[3]) && Follows(s.nodes[4])
  {
    var before := NewReachesTwo();
    var n := before.nodes[0];
    AgainIsApart(before);
    assert NewLive(21, before.net + [AGAIN]) == {21};
    s := Sends(before, 0, Resend(2), Effect(n, [AGAIN]), D);
    assert s.nodes == before.nodes;
  }

  /**
   * Node 2 takes it too, and so overwrites the entry that the new leader counts on. Its answer to
   * the old leader stays on the way.
   */
  lemma OldReachesTwo() returns (s: Sys)
    ensures Scene(s, {2}, [INIT_ENTRY, OLD_ENTRY], {15, 16, 18, 19, 22})
    ensures OldLeads(s.nodes[0]) && Follows(s.nodes[3]) && Follows(s.nodes[4])
  {
    var before := Resends();
    TakenFollows(before.nodes[2], OLD_ENTRY);
    s := Takes(before, 2, 21, AGAIN);
  }

  /** Node 3 takes the new leader's entry. */
  lemma ThreeJoins() returns (s: Sys)
    ensures Scene(s, {2, 3}, [INIT_ENTRY, OLD_ENTRY], {15, 16, 19, 22})
    ensures OldLeads(s.nodes[0]) && Follows(s.nodes[4])
  {
    var before := OldReachesTwo();
    s := Joins(before, 3, 18, 0, {2});
    assert {2} + {3} == {2, 3};
  }

  /** So does node 4. */
  lemma FourJoins() returns (s: Sys)
    ensures Scene(s, {2, 3, 4}, [INIT_ENTRY, OLD_ENTRY], {15, 16, 22}) && OldLeads(s.nodes[0])
  {
    var before := ThreeJoins();
    s := Joins(before, 4, 19, 0, {2, 3});
    assert {2, 3} + {4} == {2, 3, 4};
  }

  /** At last the old leader hears of the election and follows. */
  lemma OldHears() returns (s: Sys)
    ensures Scene(s, {2, 3, 4}, [INIT_ENTRY, OLD_ENTRY], {15, 16, 22})
    ensures s.nodes[0].role.Follower? && s.nodes[0].loop.Idle? && Follows(s.nodes[0].(loop := InFollower))
    ensures s.nodes[0].term == 3
  {
    var before := FourJoins();
    var n := before.nodes[0].(term := 3, votedFor := Some(1), role := Follower, loop := Idle);
    s := Asked(before, 0, 10, RequestVotes(3, 1, 0, 1), Effect(n, [Vote(3, 0, 1, true)]), D);
  }

  lemma OldFollows() returns (s: Sys)
    ensures Scene(s, {2, 3, 4}, [INIT_ENTRY, OLD_ENTRY], {15, 16, 22}) && Follows(s.nodes[0]) && s.nodes[0].term == 3
  {
    var before := OldHears();
    s := Quiet(before, 0, Enter, Effect(before.nodes[0].(loop := InFollower), []), D);
  }

  const LAST: Msg := Ack(3, 0, 1, true)

  /** It takes the new leader's entry. */
  lemma OldJoins() returns (s: Sys, i: nat)
    ensures s in Calm(D) && |s.nodes| == 5 && NewLeads(s.nodes[1], {2, 3, 4}) && i in s.live && s.net[i] == LAST
    ensures s.nodes[2].log == [INIT_ENTRY, OLD_ENTRY]
  {
    var before := OldFollows();
    i := |before.net|;
    s := Takes(before, 0, 15, Copy(3, 1, 0, NEW_ENTRY));
  }

  /** With the last row the leader commits its entry. */
  lemma LastAckEffect(n: Node, m: Msg)
    requires NewLeads(n, {2, 3, 4}) && m == LAST
    ensures var e := Act(n, Receive(m));
            NoReplication(e.out) && e.node.commitIndex == 1 && e.node.log == n.log
  {
    var moved := UpdateProgress(n, 0, true);
    assert moved.out == [] && moved.node.log == n.log;
    assert forall f :: 0 <= f < 5 ==> moved.node.matchIndex[f] == 1;
    assert Act(n, Receive(m)) == LeaderAck(n, 0, true);
  }

  /** The new leader commits. */
  lemma NewCommits(s: Sys, i: nat) returns (s': Sys)
    requires s in Calm(D) && i in s.live && s.net[i] == LAST && |s.nodes| == 5 && NewLeads(s.nodes[1], {2, 3, 4})
    ensures Reachable(s', D) && SysOk(s') && |s'.nodes| == 5 && s'.nodes[2] == s.nodes[2]
    ensures [INIT_ENTRY, NEW_ENTRY] in s'.commits
  {
    var n, m := s.nodes[1], s.net[i];
    LastAckEffect(n, m);
    s' := Answered(s, 1, i, m, Act(n, Receive(m)), D);
    assert n.log[..2] == n.log;
  }

  lemma IsLost(s: Sys, p: seq<Entry>, v: NodeId)
    requires p in s.commits && v < |s.nodes| && !(p <= s.nodes[v].log)
    ensures !C.NothingLost(s)
  {
  }

  /**
   * An entry that the new leader commits is overwritten on node 2, although at most one replication
   * message is outstanding per follower, none is delivered twice, every vote is counted fresh and
   * every entry carries its leader's term.
   */
  lemma OverlappingReignsLoseACommit() returns (s: Sys)
    ensures Reachable(s, AllBut(ReignsApart)) && SysOk(s) && !C.NothingLost(s)
  {
    var before, i := OldJoins();
    s := NewCommits(before, i);
    var p := [INIT_ENTRY, NEW_ENTRY];
    assert p[1] != s.nodes[2].log[1];
    IsLost(s, p, 2);
  }
}
