/** Log entries, messages and the state of one Raft node (raft.py, protocol.py). */
module RaftTypes {
  import opened Options

  /** A position in `all_ids`; the source's node identifiers are address strings. */
  type NodeId = nat

  datatype Entry = Entry(term: nat, value: string, id: int)

  const INIT_ENTRY := Entry(1, "Init Entry", -1)

  /** The messages, with the fields that a receiver reads. */
  datatype Msg =
    | RequestVotes(term: nat, sender: NodeId, lastIndex: nat, lastTerm: nat)
    | Vote(term: nat, sender: NodeId, receiver: NodeId, granted: bool)
    | Heartbeat(term: nat, leader: NodeId)
    | AppendEntries(term: nat, leader: NodeId, receiver: NodeId,
                    prevIndex: nat, prevTerm: nat, entry: Entry, leaderCommit: nat)
    | Ack(term: nat, sender: NodeId, receiver: NodeId, success: bool)
    | Committal(leader: NodeId, receiver: NodeId, index: nat, indexTerm: nat)
    | ClientRequest(sender: NodeId, receiver: NodeId, entry: Entry)
  {
    /** Request votes and heartbeats carry no receiver and reach every node, the sender included. */
    predicate ReachesNode(v: NodeId) {
      match this
      case RequestVotes(_, _, _, _) => true
      case Heartbeat(_, _) => true
      case _ => receiver == v
    }

    /** An AppendEntries or an acknowledgement. */
    predicate IsReplication() {
      AppendEntries? || Ack?
    }
  }

  datatype Role = Follower | Candidate | Leader | Paused

  /**
   * Which role loop the node's thread is in. It lags behind `Role`: another thread may pause the
   * node, and a loop sets the role before it returns to `run`. The tallies are local variables of
   * the candidate loop. `Crashed` is a thread that an exception has ended.
   */
  datatype Loop = Idle | InFollower | InCandidate(votesForMe: nat, totalVotes: nat) | InLeader | Crashed

  datatype Node = Node(
    id: NodeId,
    size: nat,
    role: Role,
    loop: Loop,
    leaderId: Option<NodeId>,
    term: nat,
    votedFor: Option<NodeId>,
    log: seq<Entry>,
    logHash: map<int, Entry>,
    commitIndex: nat,
    lastAppliedIndex: nat,
    lastAppliedTerm: nat,
    nextIndex: seq<Option<nat>>,
    matchIndex: seq<nat>,
    clientQueue: seq<Entry>)
  {
    function LastIndex(): int {
      |log| - 1
    }
  }

  /**
   * One turn of the node: a message handled by the loop it is in, a timer, the main loop entering
   * or leaving a role loop, or a call from a client thread.
   */
  datatype Event =
    | Receive(msg: Msg)
    | Enter
    | Leave
    | Timeout
    | Beat
    | Resend(follower: NodeId)
    | TakeClient
    | Enqueue(value: string, id: int)
    | Pause
    | Unpause

  /** What a client's query returns: a value, what the hash holds for an id, or an IndexError. */
  datatype Answer = Committed(value: string) | ById(entry: Option<Entry>) | OutOfRange

  /** The node afterwards, and what it handed to its talker. */
  datatype Effect = Effect(node: Node, out: seq<Msg>)
}
