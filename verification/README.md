# Agreement among edge nodes: a Dafny model

The repository holds two ways for a group of nodes to agree. This project models both, and the
byte formats under them, and proves what they guarantee.

- **Raft** (`src/raft/raft.py`). `RaftNodes.RaftNode` is the node as the object it is in Python: a
  class whose methods change its fields and hand messages to the talker. Each method is proved to do
  what a function of `RaftSpec` says of the node's state and of the messages sent. `RaftSystem` puts
  such nodes over a network that keeps every message ever sent and may deliver any of them at any
  time, any number of times, in any order, or never. The theorems are about all runs of that system.
- **Peer agreement** (`ns3-src/peer_node.cpp`). `PeerNodes` holds the classes, `PeerSpec` what
  their handlers compute, `PeerSystem` the cluster over the same kind of network.
- **Formats**: the ADVERT and SEND_DATA codecs of the peers, and the length-prefixed stream of
  `src/raft/berkeley_socket_interface.py`.

## The Raft node is not textbook Raft

The model follows the code. Where the code differs from its comments or from the Raft paper:

- Votes are tallied with no look at their term (line 308), and a refused vote sets `voted_for` too
  (lines 216, 699). A candidate that hears a heartbeat of its own term frees its vote (lines 333-335).
- The scan at lines 443-450 runs downwards and overwrites its result, so it returns the smallest
  match index. Commits need every node, where the comment at line 361 says more than half.
- The loop variable at line 666 shadows the parameter, so the test at line 667 compares a value with
  itself and every node is told of a commit.
- A cluster of one elects itself (line 317) but never commits: its own row is never behind, so no ack
  is ever taken into it (`CommitProgress.LoneNodeNeverCommits`).
- A follower's vote compares commit indices and not logs (line 213), against what the candidate had
  committed as it began its campaign; a demoted candidate or leader grants unseen (lines 328, 468).
- The queue of client requests is first in, first out, where line 504 speaks of the most recent.
- AppendEntries never raises a follower's term, and an accepted one always cuts the log.
- A follower that commits with an append commits the index *before* the new entry, with the new
  entry's term (lines 608-609, 624-625), and takes a Committal unchecked (line 255).
- So the entry that a follower commits may be one that no leader has committed. A later leader may cut
  it, which leaves the follower's commit index outside its log: then line 130 raises an IndexError.
- Client entries carry the term of the node that enqueued them (line 114).
- `pause` runs in another thread: the model keeps the loop a node is in apart from its role, so a
  loop may finish a turn after the role has changed, and may overwrite it. So the promise at lines
  140-141 holds only from the moment that the loop has ended (`PausedNodes`).
- An ack from an address outside `all_ids` raises a ValueError that ends the node's thread (line 532).
- `log_hash` is written with every append and never cleared. A query by id returns the most recent entry
  *appended* with that id, where lines 120-126 speak of committed entries and of the most recent one:
  the entry found may have been cut since, and committed by no leader (`CutBelowCommit.QueriesFail`).

What the theorems need beyond the code are named predicates on a step of a run, in `RaftSystem`:

| assumption | what it says |
|---|---|
| `NoStaleVote` | a vote response is tallied at most once, and only by a candidate still in its term |
| `OwnTermStamp` | a leader appends client entries that carry its own term |
| `StopAndWait` | at most one AppendEntries or ack is outstanding per follower |
| `DeliveredOnce` | an AppendEntries or ack is delivered at most once, and not after it was lost |
| `DisjointReigns` | a reign opens when nobody leads and earlier replication messages are drained |
| `NoSelfAppend` | a leader's copy of its own broadcast does not come back to it as a follower of that term |

A run is *orderly* if all of its steps meet all six. Messages may still be lost, and votes,
heartbeats, committals and client requests repeated and reordered. `Scenarios` gives one orderly run
with a commit; with `OverlappingReigns` it gives, for each assumption, a run that fails it, meets the
other five, and ends with two leaders in a term, logs that do not match, or a lost commit.
Each theorem names the assumptions it uses; vote discipline, leader bookkeeping, what a query by id
returns, and the agreement of logs under a reign that opens on equal logs use none of the six.

The theorems on what clients see are about a reign that opens on equal logs and is the last of its run.
The first reign of a cluster is one, and so is a later reign of an orderly run if the logs are equal
at its opening, with the commit indices inside them. Outside such reigns the query may fail even in
an orderly run, and `ClientView.StaysInLogIff` and `QueryById.StaysExactIff` say at which turns.

## Peers

Versions are never incremented, so rounds decide the order. All runs conserve
`round - |agreeing nodes|`, which is -1 or the id of a node that started the element. That bounds
rounds by 2N - 1, so with up to 128 nodes the 8-bit round never wraps, and from 129 on some run
wraps it, even one in which every packet arrives only where it was sent to. An exception that escapes
a handler (`at` on an unknown node or element) is an outcome of the model, with the state that it
leaves behind.

The same difference names the node whose guess a record carries as the element's location. Since only
rounds are compared, quiet nodes may differ in it: `PeerDisagreement.QuietDisagreement` is a run of
three peers that ends with equal rounds, nobody asking, and two locations.

## Model

| member | source | states |
|---|---|---|
| CommitScan.MaxCommittable | src/raft/raft.py:443-450 | the sort-and-overwrite scan returns the minimum of the match indices, for every nonempty list; all nodes, hence a majority, hold it |
| CommitScan.SortDescending | src/raft/raft.py:443-444 | the sort is descending and a permutation |
| CommitScan.CountReplicated | src/raft/raft.py:448 | the sum counts the nodes that reach an index |
| CommitScan.ReplicatedEverywhere | src/raft/raft.py:448-449 | an index counts on all nodes iff it is at most every match index |
| CommitScan.CommitIsUnanimous | src/raft/raft.py:443-454 | the scan passes the commit index iff every node's match index does |
| CommitScan.MajorityIsNotEnough | src/raft/raft.py:359-361 | the documented majority commit is false of the code: 5, 5, 0 does not commit 5 |
| RaftSpec.InitNode | src/raft/raft.py:67-80 | a new node satisfies the invariant that every turn keeps |
| RaftNodes.RaftNode.constructor | src/raft/raft.py:67-80 | the fields as set up |
| RaftNodes.RaftNode.IncrementTerm | src/raft/raft.py:541-556 | adopts or increments the term, frees the vote, and nothing else |
| RaftNodes.RaftNode.CastVote | src/raft/raft.py:683-699 | sends the vote with the current term and records it, granted or not |
| RaftNodes.RaftNode.CommitAt | src/raft/raft.py:613-629 | the three commit fields, and nothing else |
| RaftNodes.RaftNode.AppendEntry | src/raft/raft.py:578-611 | the log is cut after the given index (or not) and extended, the entry is filed under its id, and the previous index and term are reported |
| RaftNodes.RaftNode.HandleAppend | src/raft/raft.py:235-251 | an AppendEntries is refused, or taken after the given index, and answered |
| RaftNodes.RaftNode.HandleAsFollower | src/raft/raft.py:198-255 | new state and messages for each request in the follower loop |
| RaftNodes.RaftNode.BecomeCandidate | src/raft/raft.py:284-295 | new term, the request, and the vote for itself |
| RaftNodes.RaftNode.HandleAsCandidate | src/raft/raft.py:300-338 | tally, victory, or demotion |
| RaftNodes.RaftNode.StepDown | src/raft/raft.py:466-469 | adopt a higher term, vote in it, follow |
| RaftNodes.RaftNode.ResetTables | src/raft/raft.py:379-383 | the new leader takes everyone to be up to date |
| RaftNodes.RaftNode.BecomeLeader | src/raft/raft.py:372-390 | heartbeat, fresh tables, and the opening entry |
| RaftNodes.RaftNode.BroadcastAppendEntries | src/raft/raft.py:631-652 | the loop over the table sends to exactly the nodes that are up to date, and marks them behind |
| RaftNodes.RaftNode.BroadcastCommitEntries | src/raft/raft.py:654-668 | commits here and tells everyone |
| RaftNodes.RaftNode.SendNext | src/raft/raft.py:404-407 | the entry a row points at, with the index and term before it |
| RaftNodes.RaftNode.MoveRow | src/raft/raft.py:424-437 | the row moves by the answer, and the next entry goes out unless it is up to date |
| RaftNodes.RaftNode.HandleAck | src/raft/raft.py:417-454 | the row, the scan and the commit of one ack, or the end of the thread when its sender is unknown |
| RaftNodes.RaftNode.HandleAsLeader | src/raft/raft.py:409-473 | one message in the leader loop |
| RaftNodes.RaftNode.Turn | src/raft/raft.py:163-480 | one turn of the node: a loop's message or timer, the dispatch of `run`, a client's call, pause and un_pause; the bookkeeping stays valid, so that the next turn can follow |
| RaftNodes.RaftNode.CheckCommittedEntry | src/raft/raft.py:120-132 | a query returns what the theorems on `Query` are about: `ClientView.QueriesSeeTheLeadersLog` without an id; `QueryById.QueriesFindTheLatestAppend`, `QueryById.FoundEntriesAreTheLeaders` and `QueryById.QueriesByIdAreExact` with one; `CutBelowCommit.QueriesFail` for the IndexError |
| RaftLocal.BroadcastsAre | src/raft/raft.py:644-648 | all broadcast messages carry the new entry to nodes that were up to date |
| RaftLocal.BroadcastsReach | src/raft/raft.py:644-648 | every node that was up to date gets one |
| RaftLocal.ActKeepsNodeOk | src/raft/raft.py:381-454 | under any event and any acks, stale, repeated or its own: rows are None or in 1..last index, the own row is None, the own match is the last index, so every log read is in bounds |
| RaftLocal.ReignGrows | src/raft/raft.py:392-480 | in a reign the log is append-only, the commit index only grows, and only to an index inside the log that every row reaches |
| RaftLocal.TermsNeverDecrease | src/raft/raft.py:541-556 | no turn lowers the term |
| RaftLocal.QuietTurns | src/raft/raft.py:184-480 | which turns can send votes, vote requests and heartbeats |
| RaftTurns.FollowerVotes | src/raft/raft.py:206-216 | a follower answers a request with one vote to its sender in the higher of the two terms, granted iff its vote there is free and the candidate has applied no less; it is recorded either way |
| RaftTurns.HigherTermDemotes | src/raft/raft.py:325-330 | a candidate or leader (lines 465-469) grants a request of a higher term and follows; other requests change and send nothing |
| RaftTurns.RequestRaisesTerm | src/raft/raft.py:209-210 | in every loop a request takes the node to the higher of the two terms |
| RaftTurns.HeartbeatRaisesTerm | src/raft/raft.py:222-232 | so does a heartbeat for followers and candidates; it ends a campaign iff its term is not older, and a follower hands on its oldest queued request; leaders ignore it |
| RaftTurns.CampaignOpens | src/raft/raft.py:284-295 | the next term, a request that tells what was applied, and the node's own vote |
| RaftTurns.VoteIsTallied | src/raft/raft.py:308-319 | a granted vote counts one, and the candidate leads iff that is more than half, or it is alone |
| RaftTurns.AckCommitsIff | src/raft/raft.py:443-454 | a leader that takes an ack into a row commits iff all rows are then beyond its commit index, and then the highest index that all have reached, with the term of its entry; it tells every node that and nothing else |
| RaftTurns.OtherAcks | src/raft/raft.py:417-422 | an ack for a row that is up to date changes nothing; one of an unknown sender ends the thread |
| RaftTurns.CommittalIsTaken | src/raft/raft.py:254-255 | only followers take a Committal, and take it as it is |
| RaftTurns.AppendIsAnswered | src/raft/raft.py:235-251 | every AppendEntries gets one answer, a success iff the term is not older and the log has the preceding entry; the new log, and what an accepted one commits |
| RaftTurns.ReignOpens | src/raft/raft.py:372-390 | a heartbeat, a table in which all are taken to be up to date, and the opening entry to every node |
| RaftTurns.RequestIsAppended | src/raft/raft.py:457-459 | what is handed on is appended and spread in the leader loop, and dropped in the others |
| RaftTurns.OldestIsAppended | src/raft/raft.py:475-478 | a leader appends and spreads the oldest request in its queue |
| RaftTurns.LeaderTimers | src/raft/raft.py:394-407 | the timers send the heartbeat, or the entry that a row points at, and change nothing |
| RaftTurns.CrashesIff | src/raft/raft.py:418 | a node's thread ends iff it leads and gets an ack of an unknown sender |
| CommitProgress.NothingLeftToCommit | src/raft/raft.py:443-454 | every run over any network, two nodes or more: at every moment of every reign some other node's row is at most the leader's commit index |
| CommitProgress.CommitIsTheLeastRow | src/raft/raft.py:443-454 | in every state of an orderly run of two nodes or more, a leader's commit index is the least of its rows, or that of the reign's start if it is higher |
| CommitProgress.LoneNodeNeverCommits | src/raft/raft.py:422-454 | in every run of a cluster of one the query without an id returns the initial entry |
| ElectionRule.VotesCompareCommits | src/raft/raft.py:213-216 | every run over any network: a follower's vote is granted iff it is free and the candidate, as it opened that campaign, had a commit index and a last applied term at least the follower's now |
| ElectionRule.WinsIffMajority | src/raft/raft.py:308-319 | every run over any network: a step makes a candidate the winner iff it hears a vote and the grants heard since its campaign opened are then more than half, or it is alone |
| ElectionRule.HeardTermsStay | src/raft/raft.py:209-210 | a term heard in a request or heartbeat is never fallen behind again, and a higher one ends the campaign or reign |
| ClientQueues.QueueIsFifo | src/raft/raft.py:502-509 | in every run what clients gave a node is what it has appended or handed on, in order, followed by its queue |
| ClientQueues.RequestsGoToTheLeader | src/raft/raft.py:228-232 | requests are handed on only by a follower, one per heartbeat, to the node it came from |
| ClientQueues.NothingIsInvented | src/raft/raft.py:101-118 | every entry of every log is the initial one, or opened a reign, or was given by a client |
| PausedNodes.RoleTurns | src/raft/raft.py:172-183 | timeouts, pause, un_pause and entering or leaving a loop change role and loop alone, and send nothing |
| PausedNodes.PauseIsLostIff | src/raft/raft.py:138-146 | a pause is overwritten iff the turn under way times out, ends a campaign, or demotes a leader |
| PausedNodes.PausedNodeRests | src/raft/raft.py:140-141 | once its loop has ended, a paused node keeps all but its queue until it is un-paused, whatever is sent |
| PausedNodes.PausedNodeIsSilent | src/raft/raft.py:140-141 | and it sends nothing |
| RaftSystem.RunKeepsSysOk | src/raft/raft.py:381-454 | in every run over any network every node keeps the bookkeeping that makes its log reads safe |
| VoteDiscipline.TurnVotes | src/raft/raft.py:206-338 | what a turn's votes say about the voter, and what can free its vote |
| VoteDiscipline.NewGrant | src/raft/raft.py:209-216 | a new grant is the term's first, or a former candidate's second after a heartbeat |
| VoteDiscipline.VotesAreDisciplined | src/raft/raft.py:206-226 | any network: one candidacy per node and term; one grant per term until a heartbeat of it; then only a former candidate, which voted for itself, grants again, and once |
| VoteDiscipline.TermsOnlyGrow | src/raft/raft.py:541-556 | in every run no node's term decreases |
| ElectionSafety.VotersAreFresh | src/raft/raft.py:308-311 | a candidate never tallies two votes of one node in its term |
| ElectionSafety.VictoryHasQuorum | src/raft/raft.py:316-319 | a victory rests on a majority of distinct voters |
| ElectionSafety.WinnersAgree | src/raft/raft.py:308-319 | two winners of a term are one node, although votes can be freed within a term |
| ElectionSafety.NoTermHasTwoLeaders | src/raft/raft.py:264-347 | election safety in every run with `NoStaleVote`, for any loss, reordering, repetition and pausing |
| LogMatching.OwnEntryOk | src/raft/raft.py:389-390 | a leader's own entry keeps its log and the record of its reign good |
| LogMatching.CarriedAppend | src/raft/raft.py:235-251 | an append that passes the follower's test makes its log the sender's, cut after the entry |
| LogMatching.AcceptedAppend | src/raft/raft.py:235-251 | so the follower's log agrees with the leader of the message's term, and stays good |
| LogMatching.TurnReplicates | src/raft/raft.py:404-437 | every AppendEntries sent, first, next or resent, carries an entry of the sender's log and the term before it |
| LogMatching.AllLogsMatch | src/raft/raft.py:558-611 | Log Matching in every run with `NoStaleVote` and `OwnTermStamp`: equal terms at an index mean equal logs through it |
| CommitSafety.AcceptKeepsRow | src/raft/raft.py:245-251 | an accepted append never cuts a committed prefix or a real match |
| CommitSafety.SuccessKeepsRow | src/raft/raft.py:425-427 | after a success the match index says what the follower holds |
| CommitSafety.RefusalKeepsRow | src/raft/raft.py:428-430 | stepping back after a refusal stays clear of every committed prefix and real match |
| CommitSafety.NewEntryKeepsRow | src/raft/raft.py:640-648 | a broadcast starts above everything committed |
| CommitSafety.CommitKeepsRow | src/raft/raft.py:452-454 | what every row has matched is on every node, and rows stay true once it is committed |
| CommitSafety.OpeningStep | src/raft/raft.py:372-390 | a reign that opens on drained channels keeps all that was committed |
| CommitSafety.CommittedForever | src/raft/raft.py:349-480 | in orderly runs, once a leader's scan commits index c every node's log begins with its entries 0..c, then and in every later state, over any number of reigns |
| CommitSafety.MatchIsTrue | src/raft/raft.py:424-454 | in every state of an orderly run, the log of a follower that has acked in the reign agrees with the leader's through its match index; before the first success that is the commit index of the reign's start |
| MatchProgress.StepMovesForward | src/raft/raft.py:403-454 | no step of a reign takes back an acked follower's match, or cuts the leader's log |
| MatchProgress.ReignLasts | src/raft/raft.py:349-480 | a node that leads a term at two moments has led it all the time between |
| MatchProgress.AckedIsHeld | src/raft/raft.py:245-251 | what a follower has acked to the leader of a term it holds at every later moment of the reign, so later appends never cut below it; and its match index never falls |
| CatchUp.ExchangeAdvances | src/raft/raft.py:416-437 | one append and its answer copy one entry and step forward, or step back |
| CatchUp.SuccessesStay | src/raft/raft.py:424-430 | refusals come first: after a success there are only successes |
| CatchUp.AdvanceCounts | src/raft/raft.py:424-437 | each exchange takes exactly one off the number of answers still to come |
| CatchUp.CatchesUp | src/raft/raft.py:416-437 | with matching logs and no new entry there are exactly 2(k - j) - 1 exchanges, at most 2k - 1; the row is up to date after that many and not before, and then the logs are equal |
| StableReign.TurnAgrees | src/raft/raft.py:245-251 | a turn keeps the log a prefix of the reign's, and sends only its entries |
| StableReign.LogsArePrefixes | src/raft/raft.py:578-652 | from the opening of a reign on equal logs, first or later, until another opens: every log is a prefix of the leader's, over any network and any stamps, if the appends of earlier reigns that still arrive carry entries of the common log |
| StableReign.FirstLogsArePrefixes | src/raft/raft.py:578-652 | while only one reign has opened there are no such appends, and every log is a prefix of the leader's |
| ClientView.StaysInLogIff | src/raft/raft.py:235-255 | a turn keeps the commit index inside the log iff an accepted append commits or cuts nothing at or below the commit index, and a Committal points into the log |
| ClientView.ActorInLog | src/raft/raft.py:254-255 | in a reign that opened on equal logs, with orderly delivery, every turn meets that condition |
| ClientView.QueriesSeeTheLeadersLog | src/raft/raft.py:120-130 | in a reign that opens on equal logs, with the commit indices inside them and no earlier commit lost, until another opens; orderly delivery, any stamps: the query without an id succeeds on every node and returns the leader's value at that index |
| ClientView.OrderlyReignServes | src/raft/raft.py:349-390 | the last reign of an orderly run is such a reign, if it opens on equal logs with the commit indices inside them |
| ClientView.FirstReignServes | src/raft/raft.py:349-390 | so is the first reign of any run with orderly delivery, if no other opens |
| QueryById.QueriesFindTheLatestAppend | src/raft/raft.py:120-132 | every run over any network: a query by id returns the most recent entry with that id that the node has appended, cut since or not, and nothing iff there was none |
| QueryById.QueriesFindTheLog | src/raft/raft.py:604-605 | every run over any network: a query by the id of any entry after the first finds an entry of that id |
| QueryById.AnswersFromLogIff | src/raft/raft.py:599-605 | a turn keeps all that queries by id return in the log iff an accepted append cuts no entry that the hash holds, unless the log has it below or the new entry has its id |
| QueryById.StaysExactIff | src/raft/raft.py:122-126 | a turn keeps the promise that a query by id returns the log's most recent entry of the id iff an accepted append changes the most recent entry of no other id; turns that cut nothing always keep it |
| QueryById.AddedIsCommittedIff | src/raft/raft.py:599-611 | an entry is found as soon as it is appended; it is then committed on its node iff the commit index reached its place before, which an append that commits does not change |
| QueryById.FoundEntriesAreTheLeaders | src/raft/raft.py:120-132 | in a reign on equal logs that held all that the hashes did, over any network: what a query by id finds on any node is in the leader's log, and is the leader's entry if the id occurs there once |
| QueryById.QueriesByIdAreExact | src/raft/raft.py:122-132 | with orderly delivery, in a reign that opened with exact hashes: a query by id on any node returns the most recent entry of its log with that id, or nothing iff there is none |
| CutBelowCommit.QueriesFail | src/raft/raft.py:599-609 | an orderly run after which one node's query without an id raises the IndexError, and its query by id returns an entry that is in no log prefix any leader committed and no longer in its log |
| Scenarios.StaleVotesElectTwo | src/raft/raft.py:308-311 | a run without `NoStaleVote` only: one term has two leaders, each by its own vote of an earlier term |
| Scenarios.RepeatedAckLosesACommit | src/raft/raft.py:421-427 | without `DeliveredOnce` only: a repeated ack commits an entry that a node does not hold |
| Scenarios.EarlyResendLosesACommit | src/raft/raft.py:403-427 | without `StopAndWait` only: a resend that was not needed has the same effect |
| Scenarios.OwnCopyLosesACommit | src/raft/raft.py:644-648 | without `NoSelfAppend` only: a leader paused and resumed cuts its own committed log by its own broadcast |
| Scenarios.ForeignStampsBreakMatching | src/raft/raft.py:113-118 | without `OwnTermStamp` only: two entries stamped by an earlier term break Log Matching |
| OverlappingReigns.OverlappingReignsLoseACommit | src/raft/raft.py:235-251 | without `DisjointReigns` only: an entry that the new leader commits is overwritten by the old one's resend |
| Scenarios.OrderlyRunsCommit | src/raft/raft.py:349-480 | the assumptions can all be met in a run that elects, replicates and commits |
| Framing.Frame | src/raft/berkeley_socket_interface.py:86-90 | a frame exists iff the payload has at most 65535 bytes; its first two bytes are the payload's length, and the payload follows |
| Framing.Publish | src/raft/berkeley_socket_interface.py:83-98 | the talker's loop: every connection gets what its sends write of the frames of the messages before the first one that is too long |
| Framing.HandleSocket | src/raft/berkeley_socket_interface.py:170-184 | the listener's loop yields the decoded payloads in order, drops what is not JSON, and ends at what is not text |
| Framing.SplitUndoesFrames | src/raft/berkeley_socket_interface.py:173-174 | cutting the concatenated frames of any messages gives them back, and goes on with what follows |
| Framing.ListenerHearsTalker | src/raft/berkeley_socket_interface.py:83-184 | end to end: a listener receives exactly the talker's messages in order |
| Framing.HeardIffComplete | src/raft/berkeley_socket_interface.py:91 | the result of `send` is not looked at: a listener cuts out exactly the nonempty messages sent iff every send wrote its whole frame |
| Bytes.PackingIsBijective | ns3-src/peer_node.cpp:103-119 | packing words as four bytes is a bijection |
| AdvertCodec.Serialize | ns3-src/peer_node.cpp:159-173 | the bytes at their positions in the format, or the throw when a list is too short |
| AdvertCodec.Deserialize | ns3-src/peer_node.cpp:175-199 | the message by row numbers; it throws iff the rows are cut |
| AdvertCodec.ParseAfterWire | ns3-src/peer_node.cpp:159-199 | reading what was written gives the message back |
| AdvertCodec.WireAfterParse | ns3-src/peer_node.cpp:159-199 | writing what was read gives a tagged buffer back |
| SendDataCodec.Serialize | ns3-src/peer_node.cpp:280-304 | the header and the ids in ascending order |
| SendDataCodec.Deserialize | ns3-src/peer_node.cpp:305-330 | the header fields and the set of ids in the tail |
| SendDataCodec.ParseAfterWire | ns3-src/peer_node.cpp:280-330 | reading what was written gives the message back, for any set and any location bits |
| SendDataCodec.Normalises | ns3-src/peer_node.cpp:280-330 | writing what was read keeps the header and lists the distinct ids in ascending order |
| SendDataCodec.NormalisesOnce | ns3-src/peer_node.cpp:280-330 | doing it again changes nothing |
| SendDataCodec.AscendingIsNormal | ns3-src/peer_node.cpp:298-328 | a buffer comes back unchanged iff its ids are ascending |
| PeerNodes.AgreementInformation.AddAgreeingNode | ns3-src/peer_node.cpp:57 | inserts, and reports whether the node was new |
| PeerNodes.AgreementInformation.TakeOver | ns3-src/peer_node.cpp:567-578 | the record after a SEND_DATA |
| PeerNodes.AgreementInformation.Confirm | ns3-src/peer_node.cpp:587-591 | the record after an ACK |
| PeerNodes.PeerNode.constructor | ns3-src/peer_node.cpp:392-413 | records at version and round 0 with the node's own id |
| PeerNodes.PeerNode.FindBest | ns3-src/peer_node.cpp:463-478 | the scan over the local group |
| PeerNodes.PeerNode.StartAgreement | ns3-src/peer_node.cpp:459-498 | a request to the best neighbour, or a record that has a round |
| PeerNodes.PeerNode.OnAdvert | ns3-src/peer_node.cpp:526-556 | the sender's pairs are filed and agreement begins on the nearby elements for which it is better |
| PeerNodes.PeerNode.OnRequest | ns3-src/peer_node.cpp:557-562 | the record goes to the sender's address, or the lookup throws |
| PeerNodes.PeerNode.OnSendData | ns3-src/peer_node.cpp:563-582 | the record is replaced even if the lookup of the sender then throws |
| PeerNodes.PeerNode.OnAck | ns3-src/peer_node.cpp:583-592 | the sender is added once |
| PeerNodes.PeerNode.ReceiveData | ns3-src/peer_node.cpp:517-596 | one packet |
| PeerNodes.PeerNode.GetNearbyElements | ns3-src/peer_node.cpp:443-455 | entering and leaving neighbourhoods, in order |
| PeerNodes.PeerNode.Prune | ns3-src/peer_node.cpp:502-515 | exactly the nodes silent for the timeout are forgotten |
| PeerSpec.BestIsGreatest | ns3-src/peer_node.cpp:463-478 | the scan finds the greatest (version, round) and the smallest id that shows it |
| PeerSpec.WantsIffBetter | ns3-src/peer_node.cpp:479-489 | a request is sent iff some neighbour shows more than our own pair, and then to a known node |
| PeerNeighbours.BeginsIff | ns3-src/peer_node.cpp:459-498 | one request to the best neighbour iff some neighbour shows more; otherwise nothing is sent and the record has a round |
| PeerNeighbours.LookAsksTheBest | ns3-src/peer_node.cpp:443-455 | a look leaves exactly the near elements nearby, asks the best neighbour once for each that has come near and that some neighbour has a higher pair for, starts the other new ones, and touches nothing else |
| PeerNeighbours.AdvertAsksTheBest | ns3-src/peer_node.cpp:526-556 | an advertisement is filed under its sender and answered with a request for exactly the nearby elements that it has a higher pair for, each to the best of all neighbours |
| PeerMemory.RemembersTheRecent | ns3-src/peer_node.cpp:502-515 | in every run a node knows of another iff it has heard of it and no check since found that to be ten seconds ago |
| PeerMemory.KnowledgeIsPastTruth | ns3-src/peer_node.cpp:137-149 | in every run what is known of a node is its address and the pairs of the elements near it, all of one moment at which it announced itself |
| PeerMemory.NearbyIsTheLastLook | ns3-src/peer_node.cpp:443-455 | in every run the nearby elements are those that were near at the last look |
| PeerMemory.RepliesReachTheSender | ns3-src/peer_node.cpp:557-582 | in every run a request or data of a known node gets one reply, to that node's own address: the record, or the acknowledgement |
| PeerMemory.OnlyStrangersThrow | ns3-src/peer_node.cpp:557-592 | in every run a handler throws iff it gets a request or data of a node it does not know; it then sends nothing, and only data has replaced its record |
| PeerSystem.BalanceBounds | ns3-src/peer_node.cpp:77-80 | a balanced round is at most 2N - 1 |
| PeerSystem.JoinBalances | ns3-src/peer_node.cpp:567-578 | joining conserves round - size, without a wrap |
| PeerSystem.AcknowledgeBalances | ns3-src/peer_node.cpp:588-591 | so does an acknowledgement |
| PeerSystem.InitialiseBalances | ns3-src/peer_node.cpp:466-496 | starting a record moves the difference from -1 to the node's id |
| PeerSystem.RoundsAreConserved | ns3-src/peer_node.cpp:459-592 | in every run of at most 128 peers over any network every record and SEND_DATA is balanced, and no round exceeds 2N - 1 |
| PeerLocations.LocationsFollowRounds | ns3-src/peer_node.cpp:459-592 | in every run of at most 128 peers over any network a started record carries exactly the location guessed by node round - size, which did start the element; any other record carries the guess of an agreeing node |
| PeerOverflow.RoundsWrap | ns3-src/peer_node.cpp:588-591 | with 129 or more peers a run in which packets arrive only where they were sent to leaves 128 agreeing nodes at round 0 |
| PeerOverflow.ConservedIffAtMost128 | ns3-src/peer_node.cpp:28-29 | all runs of n peers conserve the balance iff n is at most 128, and so do all runs in which packets arrive only where they were sent to |
| PeerExchange.ExchangeSynchronises | ns3-src/peer_node.cpp:557-592 | after one exchange both ends hold the same record, joined by the requester, even if the round wraps, and nothing else changes |
| PeerExchange.Complete | ns3-src/peer_node.cpp:557-592 | three deliveries of the system are one exchange |
| PeerExchange.ExchangeRaises | ns3-src/peer_node.cpp:563-592 | the requester strictly gains and the responder does not lose |
| PeerConvergence.EventAsks | ns3-src/peer_node.cpp:469-481 | every request of an event goes to the neighbour that shows the highest pair, above our own, and to the smallest id of those; all are for different elements |
| PeerConvergence.CompleteKeepsKnown | ns3-src/peer_node.cpp:557-592 | an exchange, even on an old advertisement, raises the requester's round, and what is known of others stays true or out of date |
| PeerConvergence.RoundsOnlyGrow | ns3-src/peer_node.cpp:459-592 | with complete exchanges no round ever decreases |
| PeerConvergence.ExchangesAreBounded | ns3-src/peer_node.cpp:459-592 | at most N(2N - 1) exchanges per element in any such run, N at most 128 |
| PeerConvergence.QuietIffEqual | ns3-src/peer_node.cpp:463-481 | with fresh, mutually heard advertisements nobody asks iff all rounds are equal |
| PeerLocations.QuietAgreement | ns3-src/peer_node.cpp:463-481 | when nobody asks, started records of equally many agreeing nodes have one starter and one location; in general two agree on the location iff their starters guessed the same |
| PeerDisagreement.QuietDisagreement | ns3-src/peer_node.cpp:479-489 | quiet is not agreed: a reachable state of three peers that know each other's current pairs, with equal rounds, no requests, and different locations |

## Left out

- Sockets, zmq, processes, threads, and clocks: timeouts, resends and heartbeats are steps that may
  happen at any time their guard on the state allows; `heard_from`, `verbose` and logging go with them.
- Delivery by receiver follows `src/raft/interface.py` (line 113), the interface that `raft.py`
  imports; the listener of `berkeley_socket_interface.py` does not filter, and is modelled only as a stream.
- Node identifiers are positions in `all_ids`, and entry ids are integers (the source takes any immutable value).
- `start`/`stop`; a starting role other than follower.
- Message fields that no receiver reads, and the field copying of `src/raft/protocol.py`.
- The check and the set of `un_pause` are one step.
- Monotone commit indices of followers, and liveness while a node is down: `CommitScan.CommitIsUnanimous` says what a commit waits for.
- Agreement of peers on a location in every quiet state: `PeerDisagreement.QuietDisagreement` shows that the code does not reach it.
- Framing.HandleSocket: a receive returns all it asks for that the stream still holds; the stop event is not modelled, and JSON and UTF-8 are a parameter.
- AdvertCodec.Deserialize: needs the nine header bytes, below which the C++ reads past its buffer.
- SendDataCodec.Deserialize: likewise needs sixteen header bytes and whole ids.
- The REQUEST_DATA and ACK codecs (fixed fields), and the size expression of `SendACK` at line 643: an ACK is its two fields.
- Float geometry: nearness is an input of `GetNearbyElements`, locations are 32-bit patterns.
- A packet with an unknown type byte, which changes nothing.
- PeerConvergence.RoundsOnlyGrow: claimed only when exchanges complete before the next event, since a SEND_DATA overwrites the round whatever it was (line 571).
- PeerConvergence.ExchangesAreBounded: assumes distinct addresses, and a request to a node that has not heard of the requester is dropped, as its lookup throws.
- The commit log, node, edge and broadcast scripts, the ns-3 setup, the plots and the test drivers.
