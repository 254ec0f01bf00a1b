/**
 * The Raft node as the object it is in raft.py: methods that change its fields and put messages
 * on the talker's queue. Each is proved to do what `RaftSpec` says of the node's state.
 */
module RaftNodes {
  import opened Options
  import opened RaftTypes
  import opened RaftSpec
  import opened RaftLocal
  import CommitScan

  class RaftNode {
    const myId: NodeId
    const currentNumNodes: nat
    var currentRole: Role
    var currentLoop: Loop
    var leaderId: Option<NodeId>
    var currentTerm: nat
    var votedFor: Option<NodeId>
    var log: seq<Entry>
    var logHash: map<int, Entry>
    var commitIndex: nat
    var lastAppliedIndex: nat
    var lastAppliedTerm: nat
    var nextIndex: seq<Option<nat>>
    var matchIndex: seq<nat>
    var clientQueue: seq<Entry>
    /** What was handed to the talker. */
    var sent: seq<Msg>

    ghost function State(): Node
      reads this
    {
      Node(myId, currentNumNodes, currentRole, currentLoop, leaderId, currentTerm, votedFor, log, logHash,
           commitIndex, lastAppliedIndex, lastAppliedTerm, nextIndex, matchIndex, clientQueue)
    }

    ghost predicate Valid()
      reads this
    {
      NodeOk(State())
    }

    /** The state and the messages sent since `before` are those of `effect`. */
    ghost predicate Did(effect: Effect, before: seq<Msg>)
      reads this
    {
      State() == effect.node && sent == before + effect.out
    }

    constructor (id: NodeId, size: nat)
      requires id < size
      ensures Valid() && State() == InitNode(id, size) && sent == []
    {
      myId, currentNumNodes := id, size;
      currentRole, currentLoop, leaderId := Follower, Idle, None;
      currentTerm, votedFor, log, logHash := 1, None, [INIT_ENTRY], map[];
      commitIndex, lastAppliedIndex, lastAppliedTerm := 0, 0, 1;
      nextIndex := Rows(size, None);
      matchIndex := Rows(size, 0);
      clientQueue, sent := [], [];
    }

    method Send(m: Msg)
      modifies this`sent
      ensures sent == old(sent) + [m]
    {
      sent := sent + [m];
    }

    method IncrementTerm(term: Option<nat>)
      modifies this`votedFor, this`currentTerm
      ensures State() == SetTerm(old(State()), if term.None? then old(currentTerm) + 1 else term.value)
    {
      votedFor := None;
      if term.None? {
        currentTerm := currentTerm + 1;
      } else {
        currentTerm := term.value;
      }
    }

    method CastVote(candidate: NodeId, granted: bool)
      modifies this`sent, this`votedFor
      ensures Did(SendVote(old(State()), candidate, granted), old(sent))
    {
      Send(Vote(currentTerm, myId, candidate, granted));
      votedFor := Some(candidate);
    }

    method CommitAt(index: nat, term: nat)
      modifies this`lastAppliedIndex, this`lastAppliedTerm, this`commitIndex
      ensures State() == CommitEntry(old(State()), index, term)
    {
      lastAppliedIndex := index;
      lastAppliedTerm := term;
      commitIndex := index;
    }

    /** Append after `prevIndex`, or at the end; report where and after which term. */
    method AppendEntry(entry: Entry, commit: bool, prevIndex: Option<nat>) returns (prev: nat, prevTerm: nat)
      requires |log| > 0
      requires prevIndex.Some? ==> prevIndex.value < |log|
      modifies this`log, this`logHash, this`lastAppliedIndex, this`lastAppliedTerm, this`commitIndex
      ensures prev == (if prevIndex.Some? then prevIndex.value else |old(log)| - 1)
      ensures prevTerm == old(log)[prev].term
      ensures State() == AppendAt(old(State()), prev, entry, commit)
    {
      if prevIndex.None? {
        prev := |log| - 1;
        assert log == log[..prev + 1];
      } else {
        prev := prevIndex.value;
        log := log[..prev + 1];
      }
      prevTerm := log[|log| - 1].term;
      log := log + [entry];
      logHash := logHash[entry.id := entry];
      if commit {
        CommitAt(prev, entry.term);
      }
    }

    /** An append in the follower loop: refused, or taken after the given index. */
    method HandleAppend(m: Msg)
      requires Valid() && currentLoop.InFollower? && m.AppendEntries?
      modifies this
      ensures Did(FollowerMessage(old(State()), m), old(sent))
    {
      if m.term < currentTerm {
        Send(Ack(currentTerm, myId, m.leader, false));
      } else if !VerifyEntry(log, m.prevIndex, m.prevTerm) {
        Send(Ack(currentTerm, myId, m.leader, false));
      } else {
        var _, _ := AppendEntry(m.entry, m.leaderCommit > commitIndex, Some(m.prevIndex));
        Send(Ack(currentTerm, myId, m.leader, true));
      }
    }

    /** One message in the follower loop. */
    method HandleAsFollower(m: Msg)
      requires Valid() && currentLoop.InFollower?
      modifies this
      ensures Did(FollowerMessage(old(State()), m), old(sent))
    {
      match m
      case RequestVotes(term, sender, lastIndex, lastTerm) =>
        if term > currentTerm {
          IncrementTerm(Some(term));
        }
        if votedFor.None? && lastIndex >= lastAppliedIndex && lastTerm >= lastAppliedTerm {
          CastVote(sender, true);
        } else {
          CastVote(sender, false);
        }
      case Heartbeat(term, leader) =>
        if term > currentTerm {
          IncrementTerm(Some(term));
        }
        leaderId := Some(leader);
        if clientQueue != [] {
          var request := clientQueue[0];
          clientQueue := clientQueue[1..];
          Send(ClientRequest(myId, leader, request));
        }
      case AppendEntries(_, _, _, _, _, _, _) =>
        HandleAppend(m);
      case Committal(_, _, index, term) =>
        CommitAt(index, term);
      case _ =>
    }

    /** The opening of the candidate loop. */
    method BecomeCandidate()
      requires Valid() && currentLoop.Idle?
      modifies this
      ensures Did(StartCampaign(old(State())), old(sent))
    {
      IncrementTerm(None);
      Send(RequestVotes(currentTerm, myId, lastAppliedIndex, lastAppliedTerm));
      CastVote(myId, true);
      currentLoop := InCandidate(0, 0);
    }

    /** One message in the candidate loop. */
    method HandleAsCandidate(m: Msg)
      requires Valid() && currentLoop.InCandidate?
      modifies this
      ensures Did(CandidateMessage(old(State()), m), old(sent))
    {
      match m
      case Vote(_, _, _, granted) =>
        var votesForMe := currentLoop.votesForMe;
        if granted {
          votesForMe := votesForMe + 1;
        }
        currentLoop := InCandidate(votesForMe, currentLoop.totalVotes + 1);
        if votesForMe > currentNumNodes / 2 || currentNumNodes == 1 {
          currentRole, currentLoop := Leader, Idle;
        }
      case RequestVotes(term, sender, _, _) =>
        if term > currentTerm {
          StepDown(term, sender);
        }
      case Heartbeat(term, leader) =>
        if term >= currentTerm {
          IncrementTerm(Some(term));
          leaderId := Some(leader);
          currentRole, currentLoop := Follower, Idle;
        }
      case _ =>
    }

    /** A candidate or leader that sees an election of a higher term votes in it and follows. */
    method StepDown(term: nat, candidate: NodeId)
      modifies this
      ensures Did(var vote := SendVote(SetTerm(old(State()), term), candidate, true);
                  vote.(node := vote.node.(role := Follower, loop := Idle)), old(sent))
    {
      IncrementTerm(Some(term));
      CastVote(candidate, true);
      currentRole, currentLoop := Follower, Idle;
    }

    /** Assume that all nodes are up to date. */
    method ResetTables()
      modifies this
      ensures State() == Crowned(old(State())) && sent == old(sent)
    {
      currentLoop := InLeader;
      leaderId := Some(myId);
      matchIndex := Rows(currentNumNodes, commitIndex);
      nextIndex := Rows(currentNumNodes, None);
    }

    /** The opening of the leader loop. */
    method BecomeLeader()
      requires Valid() && currentLoop.Idle?
      modifies this
      ensures Did(StartReign(old(State())), old(sent))
    {
      ghost var n := State();
      ghost var first := BroadcastAppend(Crowned(n), Entry(n.term, "Leader Entry", -1));
      Send(Heartbeat(currentTerm, myId));
      ResetTables();
      BroadcastAppendEntries(Entry(currentTerm, "Leader Entry", -1));
      assert sent == old(sent) + ([Heartbeat(n.term, n.id)] + first.out);
    }

    /** Append to the own log and send the entry to every node that is up to date. */
    method BroadcastAppendEntries(entry: Entry)
      requires myId < currentNumNodes == |nextIndex| == |matchIndex| && |log| > 0
      modifies this
      ensures Did(BroadcastAppend(old(State()), entry), old(sent))
    {
      var prev, prevTerm := AppendEntry(entry, false, None);
      assert log == old(log) + [entry];
      ghost var n := Extended(old(State()), entry);
      for f := 0 to |nextIndex|
        invariant |nextIndex| == currentNumNodes
        invariant State() == n.(nextIndex := MarkBehind(old(nextIndex), |old(log)|, f))
        invariant sent == old(sent) + Broadcasts(n, old(nextIndex), |old(log)|, f)
      {
        if nextIndex[f].None? {
          Send(AppendEntries(currentTerm, myId, f, prev, prevTerm, entry, commitIndex));
          nextIndex := nextIndex[f := Some(|log| - 1)];
        }
        assert nextIndex == MarkBehind(old(nextIndex), |old(log)|, f + 1);
      }
      nextIndex := nextIndex[myId := None];
      matchIndex := matchIndex[myId := |log| - 1];
    }

    /** Commit `index` here and tell every node. */
    method BroadcastCommitEntries(index: nat)
      requires index < |log| && |matchIndex| == currentNumNodes
      modifies this
      ensures Did(BroadcastCommit(old(State()), index), old(sent))
    {
      CommitAt(index, log[index].term);
      for f := 0 to |matchIndex|
        invariant State() == CommitEntry(old(State()), index, old(log)[index].term)
        invariant sent == old(sent) + BroadcastCommit(old(State()), index).out[..f]
      {
        Send(Committal(myId, f, lastAppliedIndex, lastAppliedTerm));
      }
    }

    /** Send the follower the entry its row points at. */
    method SendNext(f: NodeId)
      requires f < |nextIndex| && nextIndex[f].Some? && 1 <= nextIndex[f].value < |log|
      modifies this`sent
      ensures sent == old(sent) + [ReplicationOf(State(), f, nextIndex[f].value)]
    {
      var k := nextIndex[f].value;
      Send(AppendEntries(currentTerm, myId, f, k - 1, log[k - 1].term, log[k], commitIndex));
    }

    /** Move the sender's row after its answer, and send it the next entry unless it is up to date. */
    method MoveRow(sender: NodeId, success: bool)
      requires Valid() && currentLoop.InLeader? && sender < currentNumNodes && nextIndex[sender].Some?
      modifies this
      ensures Did(UpdateProgress(old(State()), sender, success), old(sent))
    {
      var next := nextIndex[sender].value;
      if success {
        matchIndex := matchIndex[sender := next];
        next := next + 1;
      } else if next != 1 {
        next := next - 1;
      }
      if next > |log| - 1 {
        nextIndex := nextIndex[sender := None];
      } else {
        nextIndex := nextIndex[sender := Some(next)];
        SendNext(sender);
      }
    }

    /** An acknowledgement in the leader loop; looking up an unknown sender ends the thread. */
    method HandleAck(sender: NodeId, success: bool)
      requires Valid() && currentLoop.InLeader?
      modifies this
      ensures Did(LeaderAck(old(State()), sender, success), old(sent))
    {
      if sender >= currentNumNodes {
        currentLoop := Crashed;
        return;
      }
      if nextIndex[sender].None? {
        return;
      }
      ghost var moved := UpdateProgress(State(), sender, success);
      MoveRow(sender, success);
      assert matchIndex[myId] == |log| - 1;
      var best := CommitScan.MaxCommittable(matchIndex);
      assert moved.node == State() && best == CommitScan.MinOf(moved.node.matchIndex);
      if best > commitIndex {
        ghost var told := BroadcastCommit(moved.node, best);
        BroadcastCommitEntries(best);
        assert sent == old(sent) + (moved.out + told.out);
      }
    }

    /** One message in the leader loop. */
    method HandleAsLeader(m: Msg)
      requires Valid() && currentLoop.InLeader?
      modifies this
      ensures Did(LeaderMessage(old(State()), m), old(sent))
    {
      match m
      case Ack(_, sender, _, success) =>
        HandleAck(sender, success);
      case ClientRequest(_, _, entry) =>
        BroadcastAppendEntries(entry);
      case RequestVotes(term, sender, _, _) =>
        if term > currentTerm {
          StepDown(term, sender);
        }
      case _ =>
    }

    /** One turn: the dispatch of `run`, a loop's message or timer, or a client's call. */
    method Turn(ev: Event)
      requires Valid() && Enabled(State(), ev)
      modifies this
      ensures Valid() && Did(Act(old(State()), ev), old(sent))
    {
      ActKeepsNodeOk(State(), ev);
      match ev
      case Receive(m) =>
        if currentLoop.InFollower? {
          HandleAsFollower(m);
        } else if currentLoop.InCandidate? {
          HandleAsCandidate(m);
        } else {
          HandleAsLeader(m);
        }
      case Enter =>
        if currentRole.Leader? {
          BecomeLeader();
        } else if currentRole.Follower? {
          currentLoop := InFollower;
        } else {
          BecomeCandidate();
        }
      case Leave =>
        currentLoop := Idle;
      case Timeout =>
        currentRole, currentLoop := Candidate, Idle;
      case Beat =>
        Send(Heartbeat(currentTerm, myId));
      case Resend(f) =>
        SendNext(f);
      case TakeClient =>
        if clientQueue != [] {
          var request := clientQueue[0];
          clientQueue := clientQueue[1..];
          BroadcastAppendEntries(request);
        }
      case Enqueue(value, id) =>
        clientQueue := clientQueue + [Entry(currentTerm, value, id)];
      case Pause =>
        currentRole := Paused;
      case Unpause =>
        if currentRole == Paused {
          currentRole := Follower;
        }
    }

    /**
     * The client's query: without an id the value at the commit index, or the IndexError when that
     * lies outside the log; with an id the entry last appended under it.
     */
    method CheckCommittedEntry(id: Option<int>) returns (r: Answer)
      ensures r == Query(State(), id)
    {
      match id
      case None =>
        if commitIndex < |log| {
          r := Committed(log[commitIndex].value);
        } else {
          r := OutOfRange;
        }
      case Some(i) =>
        r := ById(if i in logHash then Some(logHash[i]) else None);
    }
  }
}
