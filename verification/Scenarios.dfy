/**
 * Concrete runs of two and three nodes. One of them meets all assumptions of the theorems and commits
 * an entry. In each of the others one assumption fails while all others hold, and what a theorem
 * promises is lost: two leaders in a term, an entry that a leader committed and a node does not hold,
 * or logs that do not match. `OverlappingReigns` has the run for the assumption that is missing here.
 */
module Scenarios {
  import opened Options
  import opened RaftTypes
  import opened RaftSpec
  import opened RaftSystem
  import opened Runs
  import C = CommitSafety
  import M = LogMatching

  // ---- NoStaleVote is needed ----

  /** A fresh node that campaigns in `term`. */
  function Campaigning(v: NodeId, size: nat, term: nat): Node
    requires v < size
  {
    InitNode(v, size).(role := Candidate, loop := InCandidate(0, 0), term := term, votedFor := Some(v))
  }

  /** A fresh node listens, and campaigns in term 2. */
  lemma CampaignsFirst(s: Sys, v: NodeId, d: Demand) returns (s': Sys)
    requires s in Calm(d) && v < |s.nodes| && s.nodes[v] == InitNode(v, |s.nodes|)
    ensures s' in Calm(d)
    ensures After(s, v, Effect(Campaigning(v, |s.nodes|, 2), [RequestVotes(2, v, 0, 1), Vote(2, v, v, true)]),
                  s.counted, s')
  {
    s' := Quiet(s, v, Enter, Effect(s.nodes[v].(loop := InFollower), []), d);
    s' := Campaigns(s', v, d);
  }

  /** A fresh node in a cluster of three wins term 3 on its own votes of the terms 2 and 3. */
  lemma ElectsItself(s: Sys, v: NodeId) returns (s': Sys)
    requires s in Calm(AllBut(FreshVotes)) && |s.nodes| == 3 && v < 3 && s.nodes[v] == InitNode(v, 3) && s.live == {}
    ensures s' in Calm(AllBut(FreshVotes)) && |s'.nodes| == 3 && s'.live == {}
    ensures forall w :: 0 <= w < 3 && w != v ==> s'.nodes[w] == s.nodes[w]
    ensures (3, v) in s'.elected && s.elected <= s'.elected
  {
    var p, d := |s.net|, AllBut(FreshVotes);
    s' := CampaignsFirst(s, v, d);
    s' := Campaigns(s', v, d);
    var once := Campaigning(v, 3, 3).(loop := InCandidate(1, 1));
    s' := Tallied(s', v, p + 1, Vote(2, v, v, true), once, d);
    s' := Tallied(s', v, p + 3, Vote(3, v, v, true), once.(role := Leader, loop := Idle), d);
  }

  /**
   * Without a look at the term of a vote (raft.py:308-311) one term can have two leaders, even if
   * every vote is delivered once: a node whose election timed out counts its old vote for itself.
   */
  lemma StaleVotesElectTwo() returns (s: Sys)
    ensures Reachable(s, AllBut(FreshVotes)) && !OneLeaderPerTerm(s)
  {
    StartIsReachable(3, AllBut(FreshVotes));
    s := Init(3);
    s := ElectsItself(s, 0);
    s := ElectsItself(s, 1);
    assert (3, 0) in s.elected && (3, 1) in s.elected;
  }

  // ---- the assumptions can be met, up to a commit ----

  const LEADER_ENTRY := Entry(2, "Leader Entry", -1)

  /** The voter of the two-node run. */
  function Voter(): Node {
    InitNode(1, 2).(loop := InFollower, term := 2, votedFor := Some(0))
  }

  /** The follower with the leader's first entry. */
  function Joined(): Node {
    Voter().(log := [INIT_ENTRY, LEADER_ENTRY], logHash := map[-1 := LEADER_ENTRY])
  }

  /** The leader of the two-node run as its reign opens. */
  function Opened(): Node {
    Campaigning(0, 2, 2).(role := Leader, loop := InLeader, leaderId := Some(0), log := [INIT_ENTRY, LEADER_ENTRY],
                          logHash := map[-1 := LEADER_ENTRY], nextIndex := [None, Some(1)], matchIndex := [1, 0])
  }

  const ELECTION: seq<Msg> := [RequestVotes(2, 0, 0, 1), Vote(2, 0, 0, true), Vote(2, 1, 0, true)]

  const OPENING: seq<Msg> :=
    [Heartbeat(2, 0), AppendEntries(2, 0, 0, 0, 1, LEADER_ENTRY, 0), AppendEntries(2, 0, 1, 0, 1, LEADER_ENTRY, 0)]

  /** The opening in particular. */
  lemma OpeningEffect()
    ensures var n := Campaigning(0, 2, 2).(role := Leader, loop := Idle);
            && Reigning(n) == Opened()
            && [Heartbeat(2, 0)] + Copies(Opened(), 2) == OPENING
  {
    var n := Campaigning(0, 2, 2).(role := Leader, loop := Idle);
    assert Waiting(2, 0, 1) == Opened().nextIndex && Rows(2, 0)[0 := 1] == Opened().matchIndex;
    assert n.log + [LEADER_ENTRY] == Opened().log;
  }

  /** Node 1 listens, node 0 campaigns, and node 1 votes for it. */
  lemma Asks() returns (s: Sys)
    ensures s in Calm(All)
    ensures At(s, [Campaigning(0, 2, 2), Voter()], ELECTION, {}, {})
  {
    StartIsReachable(2, All);
    s := Init(2);
    s := Quiet(s, 1, Enter, Effect(InitNode(1, 2).(loop := InFollower), []), All);
    s := CampaignsFirst(s, 0, All);
    s := Asked(s, 1, 0, ELECTION[0], Effect(Voter(), [ELECTION[2]]), All);
    assert s.net == ELECTION;
  }

  /** Node 0 wins with both votes. */
  lemma Elects() returns (s: Sys)
    ensures s in Calm(All)
    ensures At(s, [Campaigning(0, 2, 2).(role := Leader, loop := Idle), Voter()], ELECTION, {}, {1, 2})
  {
    s := Asks();
    var n := Campaigning(0, 2, 2);
    s := Tallied(s, 0, 1, ELECTION[1], n.(loop := InCandidate(1, 1)), All);
    s := Tallied(s, 0, 2, ELECTION[2], n.(role := Leader, loop := Idle), All);
  }

  /** The leader as it has committed its first entry, and its follower. */
  function Committed(): Node {
    Opened().(nextIndex := [None, None], matchIndex := [1, 1],
              commitIndex := 1, lastAppliedIndex := 1, lastAppliedTerm := 2)
  }

  const ANSWERS: seq<Msg> := [Ack(2, 1, 0, true), Committal(0, 0, 1, 2), Committal(0, 1, 1, 2)]

  lemma CommitEffect()
    ensures Act(Opened(), Receive(ANSWERS[0])) == Effect(Committed(), ANSWERS[1..])
  {
    var moved := UpdateProgress(Opened(), 1, true);
    assert Opened().matchIndex[1 := 1] == [1, 1] && Opened().nextIndex[1 := None] == [None, None];
    assert moved == Effect(Opened().(nextIndex := [None, None], matchIndex := [1, 1]), []);
    assert BroadcastCommit(moved.node, 1) == Effect(Committed(), ANSWERS[1..]);
  }

  lemma FirstOpens() returns (s: Sys)
    ensures s in Calm(All)
    ensures At(s, [Opened(), Voter()], ELECTION + OPENING, {4, 5}, {1, 2})
    ensures s.net[4] == OPENING[1] && s.net[5] == OPENING[2]
  {
    s := Elects();
    OpeningEffect();
    s := Opens(s, 0, All);
    var net := ELECTION + OPENING;
    assert forall i :: 3 <= i < 6 ==> net[i] == OPENING[i - 3];
    assert CopiesAt(3, 2) == {4, 5};
  }

  lemma AppendsFirst()
    ensures AppendAt(Voter(), 0, LEADER_ENTRY, false) == Joined()
    ensures AppendAt(Joined(), 0, LEADER_ENTRY, false) == Joined()
  {
    assert [INIT_ENTRY][..1] + [LEADER_ENTRY] == Joined().log && Joined().log[..1] + [LEADER_ENTRY] == Joined().log;
  }

  /** The first entry reaches node 1, which acknowledges it. */
  lemma Replicates() returns (s: Sys)
    ensures s in Calm(All)
    ensures At(s, [Opened(), Joined()], ELECTION + OPENING + [ANSWERS[0]], {4, 6}, {1, 2})
  {
    s := FirstOpens();
    AppendsFirst();
    s := Answers(s, 1, 5, OPENING[2], Joined(), ANSWERS[0], All);
  }

  /**
   * The assumptions can all be met while a leader is elected, opens its reign, replicates its entry
   * and commits it: the theorem of `CommitSafety` is about runs in which something is committed.
   */
  lemma OrderlyRunsCommit() returns (s: Sys)
    ensures s in Calm(All)
    ensures At(s, [Committed(), Joined()], ELECTION + OPENING + ANSWERS, {4}, {1, 2})
    ensures [INIT_ENTRY, LEADER_ENTRY] in s.commits
  {
    s := Replicates();
    CommitEffect();
    assert ELECTION + OPENING + [ANSWERS[0]] + ANSWERS[1..] == ELECTION + OPENING + ANSWERS;
    s := Answered(s, 0, 6, ANSWERS[0], Effect(Committed(), ANSWERS[1..]), All);
    assert Committed().log[..2] == Committed().log;
  }

  // ---- StopAndWait, DeliveredOnce and NoSelfAppend are needed ----

  const CLIENT_ENTRY := Entry(2, "x", 7)

  /** The leader with a client's entry that it has sent to node 1. */
  function Behind(): Node {
    Committed().(log := [INIT_ENTRY, LEADER_ENTRY, CLIENT_ENTRY], logHash := map[-1 := LEADER_ENTRY, 7 := CLIENT_ENTRY],
                 nextIndex := [None, Some(2)], matchIndex := [2, 1])
  }

  const COPIES: seq<Msg> :=
    [AppendEntries(2, 0, 0, 1, 2, CLIENT_ENTRY, 1), AppendEntries(2, 0, 1, 1, 2, CLIENT_ENTRY, 1)]

  lemma ClientEffect()
    ensures Act(Committed().(clientQueue := [CLIENT_ENTRY]), TakeClient) == Effect(Behind(), COPIES)
  {
    var n := Committed();
    assert [CLIENT_ENTRY][1..] == [];
    assert n.log + [CLIENT_ENTRY] == Behind().log;
    assert MarkBehind(n.nextIndex, 2, 2)[0 := None] == Behind().nextIndex;
    assert n.matchIndex[0 := 2] == Behind().matchIndex;
    var n' := Extended(n, CLIENT_ENTRY);
    assert n'.logHash == Behind().logHash;
    assert Broadcasts(n', n.nextIndex, 2, 0) == [];
    assert Broadcasts(n', n.nextIndex, 2, 1) == [ReplicationOf(n', 0, 2)];
    assert Broadcasts(n', n.nextIndex, 2, 2) == [ReplicationOf(n', 0, 2), ReplicationOf(n', 1, 2)];
  }

  /** The leader as it has committed the client's entry. */
  function Ahead(): Node {
    Behind().(nextIndex := [None, None], matchIndex := [2, 2],
              commitIndex := 2, lastAppliedIndex := 2, lastAppliedTerm := 2)
  }

  const TOLD: seq<Msg> := [Committal(0, 0, 2, 2), Committal(0, 1, 2, 2)]

  lemma SecondAckEffect()
    ensures Act(Behind(), Receive(ANSWERS[0])) == Effect(Ahead(), TOLD)
  {
    var moved := UpdateProgress(Behind(), 1, true);
    assert Behind().matchIndex[1 := 2] == [2, 2] && Behind().nextIndex[1 := None] == [None, None];
    assert moved == Effect(Behind().(nextIndex := [None, None], matchIndex := [2, 2]), []);
    assert BroadcastCommit(moved.node, 2) == Effect(Ahead(), TOLD);
  }

  lemma CopiesPosition(net: seq<Msg>)
    ensures NewLive(|net|, net + COPIES) == {|net|, |net| + 1}
    ensures (net + COPIES)[|net|] == COPIES[0] && (net + COPIES)[|net| + 1] == COPIES[1]
  {
    assert (net + COPIES)[|net|] == COPIES[0] && (net + COPIES)[|net| + 1] == COPIES[1];
  }

  /** The client's entry is appended and sent; nothing was outstanding for node 1, if that is demanded. */
  lemma TakesClient(s: Sys, d: Demand) returns (s': Sys)
    requires s in Calm(d) && s.nodes == [Committed(), Joined()]
    requires (d.AllBut? && d.dropped.OneOutstanding?) || forall i, f :: i in s.live ==> !Concerns(s.net[i], f)
    ensures s' in Calm(d)
    ensures At(s', [Behind(), Joined()], s.net + COPIES, s.live + {|s.net|, |s.net| + 1}, s.counted)
    ensures s'.net[|s.net|] == COPIES[0] && s'.net[|s.net| + 1] == COPIES[1]
    ensures s.commits <= s'.commits
  {
    ClientEffect();
    CopiesPosition(s.net);
    s' := ClientAppends(s, 0, "x", 7, Effect(Behind(), COPIES), d);
  }

  /** The leader takes an old ack of its first entry for the answer to its second. */
  lemma TakesOldAck(s: Sys, i: nat, d: Demand) returns (s': Sys)
    requires s in Calm(d) && s.nodes == [Behind(), Joined()]
    requires i < |s.net| && s.net[i] == ANSWERS[0] && (i in s.live || d == AllBut(OnceOnly))
    ensures s' in Calm(d) && !C.NothingLost(s')
  {
    SecondAckEffect();
    s' := Answered(s, 0, i, ANSWERS[0], Effect(Ahead(), TOLD), d);
    var p := Ahead().log[..3];
    assert p in s'.commits && s'.nodes[1] == Joined() && !(p <= Joined().log);
  }

  /**
   * Acks carry no index (raft.py:421-427). If one is delivered twice the leader takes it for the
   * answer to its next append, and commits an entry that another node does not hold.
   */
  lemma RepeatedAckLosesACommit() returns (s: Sys)
    ensures Reachable(s, AllBut(OnceOnly)) && SysOk(s) && !C.NothingLost(s)
  {
    var before := OrderlyRunsCommit();
    DemandLess(before, OnceOnly);
    assert before.net[4] == OPENING[1] && before.net[6] == ANSWERS[0];
    s := TakesClient(before, AllBut(OnceOnly));
    assert s.net[6] == before.net[6];
    s := TakesOldAck(s, 6, AllBut(OnceOnly));
  }

  /** An early resend of the first entry (raft.py:403-407). */
  lemma ResendsEarly() returns (s: Sys)
    ensures s in Calm(AllBut(OneOutstanding))
    ensures At(s, [Opened(), Voter()], ELECTION + OPENING + [OPENING[2]], {4, 5, 6}, {1, 2})
  {
    s := FirstOpens();
    DemandLess(s, OneOutstanding);
    s := Sends(s, 0, Resend(1), Effect(Opened(), [OPENING[2]]), AllBut(OneOutstanding));
    assert s.nodes == [Opened(), Voter()] && s.live == {4, 5, 6};
  }

  /** Node 1 acknowledges its first entry, and the resend of it again. */
  lemma AnswersTwice() returns (s: Sys)
    ensures s in Calm(AllBut(OneOutstanding))
    ensures At(s, [Opened(), Joined()], ELECTION + OPENING + [OPENING[2], ANSWERS[0], ANSWERS[0]], {4, 7, 8}, {1, 2})
  {
    s := ResendsEarly();
    AppendsFirst();
    assert s.net[5] == OPENING[2] && s.net[6] == OPENING[2];
    s := Answers(s, 1, 5, OPENING[2], Joined(), ANSWERS[0], AllBut(OneOutstanding));
    assert s.net[6] == OPENING[2];
    s := Answers(s, 1, 6, OPENING[2], Joined(), ANSWERS[0], AllBut(OneOutstanding));
  }

  /**
   * If the leader resends before the answer was lost, there are two answers, and the second one is
   * taken for that of the next append, even though each message is delivered once.
   */
  lemma EarlyResendLosesACommit() returns (s: Sys)
    ensures Reachable(s, AllBut(OneOutstanding)) && SysOk(s) && !C.NothingLost(s)
  {
    var d := AllBut(OneOutstanding);
    s := AnswersTwice();
    assert s.net[7] == ANSWERS[0] && s.net[8] == ANSWERS[0];
    CommitEffect();
    var before := Answered(s, 0, 7, ANSWERS[0], Effect(Committed(), ANSWERS[1..]), d);
    assert before.nodes == [Committed(), Joined()] && before.live == {4, 8} && before.net[8] == ANSWERS[0];
    s := TakesClient(before, d);
    assert s.net[8] == before.net[8];
    s := TakesOldAck(s, 8, d);
  }

  /** Node 1 with both entries; with the second it has committed the first. */
  function Full(): Node {
    Joined().(log := Behind().log, logHash := Behind().logHash,
              commitIndex := 1, lastAppliedIndex := 1, lastAppliedTerm := 2)
  }

  lemma AppendsClient()
    ensures AppendAt(Joined(), 1, CLIENT_ENTRY, true) == Full()
  {
    assert Joined().log[..2] + [CLIENT_ENTRY] == Full().log;
    assert Joined().logHash[7 := CLIENT_ENTRY] == Full().logHash;
  }

  /** The client's entry reaches node 1. */
  lemma SendsClient() returns (s: Sys)
    ensures s in Calm(AllBut(NoOwnCopy)) && s.nodes == [Behind(), Full()]
    ensures |s.net| == 12 && s.net[4] == OPENING[1] && s.live == {4, 9, 11} && s.net[11] == ANSWERS[0]
  {
    var d := AllBut(NoOwnCopy);
    var before := OrderlyRunsCommit();
    DemandLess(before, NoOwnCopy);
    assert before.net[4] == OPENING[1];
    s := TakesClient(before, d);
    assert s.net[4] == before.net[4] && s.net[10] == COPIES[1];
    AppendsClient();
    s := Answers(s, 1, 10, COPIES[1], Full(), ANSWERS[0], d);
  }

  /** The leader commits it. */
  lemma CommitsClient() returns (s: Sys)
    ensures s in Calm(AllBut(NoOwnCopy)) && s.nodes == [Ahead(), Full()]
    ensures |s.net| > 4 && s.net[4] == OPENING[1] && 4 in s.live && Ahead().log in s.commits
  {
    s := SendsClient();
    SecondAckEffect();
    s := Answered(s, 0, 11, ANSWERS[0], Effect(Ahead(), TOLD), AllBut(NoOwnCopy));
    assert Ahead().log[..3] == Ahead().log;
  }

  /** A leader is paused and resumed (raft.py:141-161). */
  lemma Pauses(s: Sys, n: Node, d: Demand) returns (s': Sys)
    requires s in Calm(d) && |s.nodes| > 0 && s.nodes[0] == n && n.role.Leader? && n.loop.InLeader?
    ensures s' in Calm(d) && After(s, 0, Effect(n.(role := Follower, loop := InFollower), []), s.counted, s')
  {
    s' := Quiet(s, 0, Pause, Effect(n.(role := Paused), []), d);
    s' := Quiet(s', 0, Leave, Effect(n.(role := Paused, loop := Idle), []), d);
    s' := Quiet(s', 0, Unpause, Effect(n.(role := Follower, loop := Idle), []), d);
    s' := Quiet(s', 0, Enter, Effect(n.(role := Follower, loop := InFollower), []), d);
  }

  /**
   * A leader sends its own broadcasts to itself too (raft.py:644-648). If it is paused and resumed
   * as a follower of the same term, an old copy cuts its log below what it has committed.
   */
  lemma OwnCopyLosesACommit() returns (s: Sys)
    ensures Reachable(s, AllBut(NoOwnCopy)) && SysOk(s) && !C.NothingLost(s)
  {
    s := CommitsClient();
    s := Pauses(s, Ahead(), AllBut(NoOwnCopy));
    var n := Ahead();
    var cut := n.(role := Follower, loop := InFollower, log := [INIT_ENTRY, LEADER_ENTRY]);
    assert n.log[..1] + [LEADER_ENTRY] == cut.log && n.logHash[-1 := LEADER_ENTRY] == cut.logHash;
    s := Answers(s, 0, 4, OPENING[1], cut, Ack(2, 0, 0, true), AllBut(NoOwnCopy));
    assert n.log in s.commits && s.nodes[0] == cut && !(n.log <= cut.log);
  }

  // ---- OwnTermStamp is needed ----

  const FIRST := Entry(2, "a", 1)
  const SECOND := Entry(2, "b", 2)
  const NEXT_LEADER_ENTRY := Entry(3, "Leader Entry", -1)

  /** The first leader with its own client's entry. */
  function FirstLeader(): Node {
    Opened().(log := [INIT_ENTRY, LEADER_ENTRY, FIRST], logHash := map[-1 := LEADER_ENTRY, 1 := FIRST],
              matchIndex := [2, 0])
  }

  const FIRST_COPY: Msg := AppendEntries(2, 0, 0, 1, 2, FIRST, 0)

  lemma FirstEntryEffect()
    ensures Act(Opened().(clientQueue := [FIRST]), TakeClient) == Effect(FirstLeader(), [FIRST_COPY])
  {
    var n := Opened();
    assert [FIRST][1..] == [];
    assert n.log + [FIRST] == FirstLeader().log;
    assert MarkBehind(n.nextIndex, 2, 2)[0 := None] == n.nextIndex;
    assert n.matchIndex[0 := 2] == FirstLeader().matchIndex;
    var n' := Extended(n, FIRST);
    assert n'.logHash == FirstLeader().logHash;
    assert Broadcasts(n', n.nextIndex, 2, 0) == [];
    assert Broadcasts(n', n.nextIndex, 2, 1) == [ReplicationOf(n', 0, 2)];
    assert Broadcasts(n', n.nextIndex, 2, 2) == [ReplicationOf(n', 0, 2)];
  }

  /** The first leader appends its client's entry. */
  lemma FirstAppends() returns (s: Sys)
    ensures s in Calm(AllBut(OwnStamps))
    ensures At(s, [FirstLeader(), Voter()], ELECTION + OPENING + [FIRST_COPY], {4, 5, 6}, {1, 2})
  {
    s := FirstOpens();
    DemandLess(s, OwnStamps);
    FirstEntryEffect();
    assert NewLive(6, s.net + [FIRST_COPY]) == {6};
    s := ClientAppends(s, 0, "a", 1, Effect(FirstLeader(), [FIRST_COPY]), AllBut(OwnStamps));
    assert s.live == {4, 5, 6};
  }

  /** Nothing that it sent arrives. */
  lemma FirstLeads() returns (s: Sys)
    ensures s in Calm(AllBut(OwnStamps))
    ensures At(s, [FirstLeader(), Voter()], ELECTION + OPENING + [FIRST_COPY], {}, {1, 2})
  {
    s := FirstAppends();
    s := DropAll(s, AllBut(OwnStamps));
  }

  /** The second node as it campaigns with an entry that its client enqueued in term 2. */
  function Challenger(): Node {
    Voter().(role := Candidate, loop := InCandidate(0, 0), term := 3, votedFor := Some(1), clientQueue := [SECOND])
  }

  const CHALLENGE: seq<Msg> := [RequestVotes(3, 1, 0, 1), Vote(3, 1, 1, true)]

  /** The second node, which heard of nothing, challenges the first leader. */
  lemma Challenges() returns (s: Sys)
    ensures s in Calm(AllBut(OwnStamps))
    ensures At(s, [FirstLeader(), Challenger()], ELECTION + OPENING + [FIRST_COPY] + CHALLENGE, {}, {1, 2})
  {
    var d := AllBut(OwnStamps);
    s := FirstLeads();
    var n := Voter().(clientQueue := [SECOND]);
    s := Quiet(s, 1, Enqueue("b", 2), Effect(n, []), d);
    s := Campaigns(s, 1, d);
  }

  const GRANTED: Msg := Vote(3, 0, 1, true)

  /** The first leader steps down and votes for the challenger. */
  lemma StepsDown() returns (s: Sys)
    ensures s in Calm(AllBut(OwnStamps)) && s.live == {} && s.counted == {1, 2}
    ensures |s.nodes| == 2 && s.nodes[0].log == FirstLeader().log && s.nodes[0].loop.Idle? && s.nodes[1] == Challenger()
    ensures |s.net| == 10 && s.net[8] == CHALLENGE[1] && s.net[9] == GRANTED
  {
    s := Challenges();
    assert s.net[7] == CHALLENGE[0] && s.net[8] == CHALLENGE[1];
    var deposed := FirstLeader().(term := 3, votedFor := Some(1), role := Follower, loop := Idle);
    s := Asked(s, 0, 7, CHALLENGE[0], Effect(deposed, [GRANTED]), AllBut(OwnStamps));
  }

  /** The challenger wins with both votes. */
  lemma Succeeds() returns (s: Sys)
    ensures s in Calm(AllBut(OwnStamps)) && s.live == {}
    ensures |s.nodes| == 2 && s.nodes[0].log == FirstLeader().log && s.nodes[0].loop.Idle?
    ensures s.nodes[1] == Challenger().(role := Leader, loop := Idle)
  {
    s := StepsDown();
    s := Tallied(s, 1, 8, CHALLENGE[1], Challenger().(loop := InCandidate(1, 1)), AllBut(OwnStamps));
    s := Tallied(s, 1, 9, GRANTED, Challenger().(role := Leader, loop := Idle), AllBut(OwnStamps));
  }

  /** The second leader opens its reign when the first one's messages are gone. */
  lemma SecondLeads() returns (s: Sys)
    ensures s in Calm(AllBut(OwnStamps)) && |s.nodes| == 2 && s.nodes[0].log == FirstLeader().log
    ensures s.nodes[1] == Reigning(Challenger().(role := Leader, loop := Idle))
  {
    s := Succeeds();
    s := Opens(s, 1, AllBut(OwnStamps));
  }

  const SECOND_COPY: Msg := AppendEntries(3, 1, 1, 1, 3, SECOND, 0)

  lemma SecondEntryEffect()
    ensures var n := Reigning(Challenger().(role := Leader, loop := Idle));
            var e := Act(n, TakeClient);
            && e.out == [SECOND_COPY] && e.node.log == [INIT_ENTRY, NEXT_LEADER_ENTRY, SECOND]
  {
    var n := Reigning(Challenger().(role := Leader, loop := Idle));
    var n' := Extended(n.(clientQueue := []), SECOND);
    assert n.clientQueue == [SECOND] && [SECOND][1..] == [] && [SECOND][0] == SECOND;
    assert n.log == [INIT_ENTRY, NEXT_LEADER_ENTRY] && n'.log == [INIT_ENTRY, NEXT_LEADER_ENTRY, SECOND];
    assert n.nextIndex == [Some(1), None];
    assert Broadcasts(n', n.nextIndex, 2, 0) == [];
    assert Broadcasts(n', n.nextIndex, 2, 1) == [];
    assert Broadcasts(n', n.nextIndex, 2, 2) == [ReplicationOf(n', 1, 2)];
  }

  /**
   * Client entries carry the term of the node that enqueued them (raft.py:113-118). Appended by the
   * leader of another term, two of them break Log Matching: both logs show term 2 at index 2.
   */
  lemma ForeignStampsBreakMatching() returns (s: Sys)
    ensures Reachable(s, AllBut(OwnStamps)) && |s.nodes| == 2
    ensures !M.LogsMatch(s.nodes[0].log, s.nodes[1].log)
  {
    s := SecondLeads();
    SecondEntryEffect();
    var n := s.nodes[1];
    s := Sends(s, 1, TakeClient, Act(n, TakeClient), AllBut(OwnStamps));
    assert s.nodes[0].log[..2 + 1][1] != s.nodes[1].log[..2 + 1][1];
  }
}
