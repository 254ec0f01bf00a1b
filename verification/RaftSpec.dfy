/** What each turn of a Raft node computes, as functions on its state (raft.py:184-668). */
module RaftSpec {
  import opened Options
  import opened RaftTypes
  import opened CommitScan

  /** The bookkeeping a leader keeps in its loop. */
  predicate LeaderOk(n: Node)
    requires n.id < n.size == |n.nextIndex| == |n.matchIndex|
  {
    && n.nextIndex[n.id].None?
    && n.matchIndex[n.id] == n.LastIndex()
    && forall f :: 0 <= f < n.size && n.nextIndex[f].Some? ==> 1 <= n.nextIndex[f].value <= n.LastIndex()
  }

  /** What every node keeps: a nonempty log, tables with a row per node, and `LeaderOk` while leading. */
  predicate NodeOk(n: Node) {
    && n.id < n.size == |n.nextIndex| == |n.matchIndex|
    && |n.log| > 0
    && (n.loop.InLeader? ==> LeaderOk(n))
  }

  /** A table with the same value in each row. */
  function Rows<T>(size: nat, x: T): (r: seq<T>)
    ensures |r| == size && forall i :: 0 <= i < size ==> r[i] == x
  {
    seq(size, i => x)
  }

  /** raft.py:67-80 */
  function InitNode(id: NodeId, size: nat): (n: Node)
    requires id < size
    ensures NodeOk(n)
  {
    Node(id, size, Follower, Idle, None, 1, None, [INIT_ENTRY], map[], 0, 0, 1,
         Rows(size, None), Rows(size, 0), [])
  }

  /** raft.py:541-556 */
  function SetTerm(n: Node, term: nat): Node {
    n.(votedFor := None, term := term)
  }

  /** raft.py:209-210, 223-224: adopt a higher term. */
  function RaiseTerm(n: Node, term: nat): Node {
    if term > n.term then SetTerm(n, term) else n
  }

  /** raft.py:683-699. A refusal is recorded in `votedFor` too. */
  function SendVote(n: Node, candidate: NodeId, granted: bool): Effect {
    Effect(n.(votedFor := Some(candidate)), [Vote(n.term, n.id, candidate, granted)])
  }

  /** raft.py:558-576 */
  predicate VerifyEntry(log: seq<Entry>, prevIndex: nat, prevTerm: nat) {
    prevIndex < |log| && log[prevIndex].term == prevTerm
  }

  /** raft.py:613-629 */
  function CommitEntry(n: Node, index: nat, term: nat): Node {
    n.(lastAppliedIndex := index, lastAppliedTerm := term, commitIndex := index)
  }

  /** raft.py:604-605: the entry at the end of the log, and in the hash under its id. */
  function Extended(n: Node, entry: Entry): Node {
    n.(log := n.log + [entry], logHash := n.logHash[entry.id := entry])
  }

  /** raft.py:595-609 with `prev_index` given: cut the log, append, and perhaps commit `prevIndex`. */
  function AppendAt(n: Node, prevIndex: nat, entry: Entry, commit: bool): Node
    requires prevIndex < |n.log|
  {
    var n' := Extended(n.(log := n.log[..prevIndex + 1]), entry);
    if commit then CommitEntry(n', prevIndex, entry.term) else n'
  }

  // ---- follower (raft.py:184-262) ----

  function FollowerMessage(n: Node, m: Msg): Effect
    requires NodeOk(n)
  {
    match m
    case RequestVotes(term, sender, lastIndex, lastTerm) =>
      var n' := RaiseTerm(n, term);
      SendVote(n', sender,
               n'.votedFor.None? && lastIndex >= n'.lastAppliedIndex && lastTerm >= n'.lastAppliedTerm)
    case Heartbeat(term, leader) =>
      ForwardClient(RaiseTerm(n, term).(leaderId := Some(leader)), leader)
    case AppendEntries(term, leader, _, prevIndex, prevTerm, entry, leaderCommit) =>
      if term < n.term || !VerifyEntry(n.log, prevIndex, prevTerm) then
        Effect(n, [Ack(n.term, n.id, leader, false)])
      else
        Effect(AppendAt(n, prevIndex, entry, leaderCommit > n.commitIndex), [Ack(n.term, n.id, leader, true)])
    case Committal(_, _, index, term) =>
      Effect(CommitEntry(n, index, term), [])
    case _ =>
      Effect(n, [])
  }

  /** raft.py:229-232: hand one queued client request to the leader. */
  function ForwardClient(n: Node, leader: NodeId): Effect {
    if n.clientQueue == [] then Effect(n, [])
    else Effect(n.(clientQueue := n.clientQueue[1..]), [ClientRequest(n.id, leader, n.clientQueue[0])])
  }

  // ---- candidate (raft.py:264-347) ----

  /** raft.py:284-295 */
  function StartCampaign(n: Node): Effect {
    var n' := SetTerm(n, n.term + 1).(loop := InCandidate(0, 0));
    var vote := SendVote(n', n'.id, true);
    Effect(vote.node, [RequestVotes(n'.term, n'.id, n'.lastAppliedIndex, n'.lastAppliedTerm)] + vote.out)
  }

  /** raft.py:309-319: no look at the term of the vote. */
  function CountVote(n: Node, granted: bool): Node
    requires n.loop.InCandidate?
  {
    var votesForMe := n.loop.votesForMe + if granted then 1 else 0;
    if votesForMe > n.size / 2 || n.size == 1 then n.(role := Leader, loop := Idle)
    else n.(loop := InCandidate(votesForMe, n.loop.totalVotes + 1))
  }

  function CandidateMessage(n: Node, m: Msg): Effect
    requires n.loop.InCandidate?
  {
    match m
    case Vote(_, _, _, granted) =>
      Effect(CountVote(n, granted), [])
    case RequestVotes(term, sender, _, _) =>
      if term > n.term then
        var vote := SendVote(SetTerm(n, term), sender, true);
        vote.(node := vote.node.(role := Follower, loop := Idle))
      else Effect(n, [])
    case Heartbeat(term, leader) =>
      if term >= n.term then
        Effect(SetTerm(n, term).(leaderId := Some(leader), role := Follower, loop := Idle), [])
      else Effect(n, [])
    case _ =>
      Effect(n, [])
  }

  // ---- leader (raft.py:349-480, 631-668) ----

  /** The AppendEntries that carries `log[index]` to `receiver` (raft.py:406, 437). */
  function ReplicationOf(n: Node, receiver: NodeId, index: nat): Msg
    requires 1 <= index < |n.log|
  {
    AppendEntries(n.term, n.id, receiver, index - 1, n.log[index - 1].term, n.log[index], n.commitIndex)
  }

  /** The messages of raft.py:644-648 to the nodes below `k` that are up to date. */
  function Broadcasts(n: Node, nextIndex: seq<Option<nat>>, index: nat, k: nat): seq<Msg>
    requires 1 <= index < |n.log|
    requires k <= |nextIndex|
  {
    if k == 0 then []
    else Broadcasts(n, nextIndex, index, k - 1) +
         if nextIndex[k - 1].None? then [ReplicationOf(n, k - 1, index)] else []
  }

  /** `next_index` once rows below `k` were visited: whoever was sent the entry is now behind. */
  function MarkBehind(nextIndex: seq<Option<nat>>, index: nat, k: nat): (r: seq<Option<nat>>)
    ensures |r| == |nextIndex|
  {
    seq(|nextIndex|, f requires 0 <= f < |nextIndex| =>
      if f < k && nextIndex[f].None? then Some(index) else nextIndex[f])
  }

  /** raft.py:631-652 */
  function BroadcastAppend(n: Node, entry: Entry): Effect
    requires n.id < n.size == |n.nextIndex| == |n.matchIndex| && |n.log| > 0
  {
    var n' := Extended(n, entry);
    var index := |n.log|;
    Effect(n'.(nextIndex := MarkBehind(n.nextIndex, index, n.size)[n.id := None],
               matchIndex := n.matchIndex[n.id := index]),
           Broadcasts(n', n.nextIndex, index, n.size))
  }

  /** raft.py:654-668. The test at line 667 compares an index with itself, so everyone is told. */
  function BroadcastCommit(n: Node, index: nat): Effect
    requires index < |n.log|
  {
    var n' := CommitEntry(n, index, n.log[index].term);
    Effect(n', seq(n.size, (f: nat) => Committal(n.id, f, n'.lastAppliedIndex, n'.lastAppliedTerm)))
  }

  /** raft.py:379-383: a leader assumes that all nodes are up to date with it. */
  function Crowned(n: Node): Node {
    n.(leaderId := Some(n.id), loop := InLeader,
       matchIndex := Rows(n.size, n.commitIndex), nextIndex := Rows(n.size, None))
  }

  /** raft.py:372-390 */
  function StartReign(n: Node): Effect
    requires NodeOk(n)
  {
    var n' := Crowned(n);
    var first := BroadcastAppend(n', Entry(n.term, "Leader Entry", -1));
    Effect(first.node, [Heartbeat(n.term, n.id)] + first.out)
  }

  /** raft.py:424-437: move the row of `f`, and send it the next entry unless it is up to date. */
  function UpdateProgress(n: Node, f: NodeId, success: bool): Effect
    requires NodeOk(n) && n.loop.InLeader? && f < n.size && n.nextIndex[f].Some?
  {
    var k := n.nextIndex[f].value;
    var k' := if success then k + 1 else if k != 1 then k - 1 else k;
    var n' := n.(matchIndex := if success then n.matchIndex[f := k] else n.matchIndex);
    if k' > n.LastIndex() then Effect(n'.(nextIndex := n.nextIndex[f := None]), [])
    else Effect(n'.(nextIndex := n.nextIndex[f := Some(k')]), [ReplicationOf(n, f, k')])
  }

  /** raft.py:417-454. An address that is not in `all_ids` raises a ValueError (line 532). */
  function LeaderAck(n: Node, f: NodeId, success: bool): Effect
    requires NodeOk(n) && n.loop.InLeader?
  {
    if f >= n.size then Effect(n.(loop := Crashed), [])
    else if n.nextIndex[f].None? then Effect(n, [])
    else
      var moved := UpdateProgress(n, f, success);
      var best := MinOf(moved.node.matchIndex);
      if best > moved.node.commitIndex then
        assert best <= moved.node.matchIndex[n.id] == n.LastIndex();
        var told := BroadcastCommit(moved.node, best);
        Effect(told.node, moved.out + told.out)
      else moved
  }

  function LeaderMessage(n: Node, m: Msg): Effect
    requires NodeOk(n) && n.loop.InLeader?
  {
    match m
    case Ack(_, sender, _, success) =>
      LeaderAck(n, sender, success)
    case ClientRequest(_, _, entry) =>
      BroadcastAppend(n, entry)
    case RequestVotes(term, sender, _, _) =>
      if term > n.term then
        var vote := SendVote(SetTerm(n, term), sender, true);
        vote.(node := vote.node.(role := Follower, loop := Idle))
      else Effect(n, [])
    case _ =>
      Effect(n, [])
  }

  // ---- a client's query ----

  /** raft.py:120-132 */
  function Query(n: Node, id: Option<int>): Answer {
    match id
    case None => if n.commitIndex < |n.log| then Committed(n.log[n.commitIndex].value) else OutOfRange
    case Some(i) => ById(if i in n.logHash then Some(n.logHash[i]) else None)
  }

  // ---- one turn ----

  /** Whether the event can happen. A loop may finish a turn that it began before it was paused. */
  predicate Enabled(n: Node, ev: Event) {
    match ev
    case Receive(m) => !n.loop.Idle? && !n.loop.Crashed? && m.ReachesNode(n.id)
    case Enter => n.loop.Idle? && !n.role.Paused?
    case Leave =>
      || (n.loop.InFollower? && !n.role.Follower?)
      || (n.loop.InCandidate? && !n.role.Candidate?)
      || (n.loop.InLeader? && !n.role.Leader?)
    case Timeout => n.loop.InFollower? || n.loop.InCandidate?
    case Beat => n.loop.InLeader?
    case Resend(f) => n.loop.InLeader? && f < n.size == |n.nextIndex| && n.nextIndex[f].Some?
    case TakeClient => n.loop.InLeader?
    case Enqueue(_, _) => true
    case Pause => true
    case Unpause => n.role.Paused?
  }

  function Act(n: Node, ev: Event): Effect
    requires NodeOk(n) && Enabled(n, ev)
  {
    match ev
    case Receive(m) =>
      if n.loop.InFollower? then FollowerMessage(n, m)
      else if n.loop.InCandidate? then CandidateMessage(n, m)
      else LeaderMessage(n, m)
    case Enter =>
      if n.role.Leader? then StartReign(n)
      else if n.role.Follower? then Effect(n.(loop := InFollower), [])
      else StartCampaign(n)
    case Leave => Effect(n.(loop := Idle), [])
    case Timeout => Effect(n.(role := Candidate, loop := Idle), [])
    case Beat => Effect(n, [Heartbeat(n.term, n.id)])
    case Resend(f) => Effect(n, [ReplicationOf(n, f, n.nextIndex[f].value)])
    case TakeClient =>
      if n.clientQueue == [] then Effect(n, [])
      else BroadcastAppend(n.(clientQueue := n.clientQueue[1..]), n.clientQueue[0])
    case Enqueue(value, id) => Effect(n.(clientQueue := n.clientQueue + [Entry(n.term, value, id)]), [])
    case Pause => Effect(n.(role := Paused), [])
    case Unpause => Effect(n.(role := Follower), [])
  }
}
