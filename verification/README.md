# A verified model of landsraad

landsraad is a Raft implementation: a consensus node (`crates/raft`), its storage, its wire codec, a
replicated key-value store (`crates/kv`), and a simulator that injects faults and audits safety
(`crates/sim`). This project models all of it in Dafny and proves, for clusters of any size and for
every run, what the repository checks on random schedules.

## How it fits together

**The node.** `Node` is the node as the code has it: a mutable object whose methods update its fields,
with the loops of the append handler, the commit scan and delivery. Every method is proved equal to a
step function of `NodeSpec`, in its new state, in the messages it returns, and in the storage writes it
makes *and their order*. The timers appear as one bit, `due`: whether the deadline has passed.

**The cluster.** `Cluster` is a transition system: live or crashed nodes, a disk each, and the set of all
packets ever sent. A packet that was sent may arrive any number of times, in any order, or never, so loss,
duplication, reordering and partitions are all covered. A node may crash between calls, or inside one
after any number of its storage writes and before anything is sent. A run is any finite interleaving.

**The proof.** `Ledger` holds an abstract history that only the proof sees: who led each term and with
which log, every vote with the voter's log when it voted, every acknowledgement with the prefix it
covers. `LedgerSteps` proves that each elementary change keeps the invariant: a term change, a vote, an
election, an append by a leader, a truncation, a follower taking entries, an acknowledgement. `Coupling`
shows that every storage write of every handler is such a change, so that a crash after any of them is
harmless. `Runs` lifts this to whole runs. `Safety` then states the theorems on runs alone; no theorem
there mentions the history.

**Around it.** `Effects` says, in terms of its own, what each call owes its caller, and `Elections` what votes come
to on runs. `Promises` says what a reply on its way, a leader's count of its peers, a vote and a truncation promise
about disks. `Origins` traces every commit index back to a leader. `Repair` proves that a leader and one follower
that keep talking end with equal logs, and `CatchUp` with what is committed. `Replication` proves the merge and the
commit scan against simpler statements, and `Redelivery` says what is delivered when. `Checker`, `Clauses`,
`Simulator` and `Ticks` are the simulator and its audit, and `Scenarios` and `Quartet` hold four runs worth
knowing. `Keys`, `Sietch` and `SietchStorage` refine the record on disk to an ordered map of byte keys. `Codec` and
`Kv` are the two encodings and the state machine, and `Layouts` fixes every format byte by byte.

## Where the code and its documentation disagree

* **The commit index can move back, and entries can be delivered again.** `crates/raft/tests/node.rs:327` says
  the commit index never does and `crates/raft/tests/node.rs:337` that each entry is delivered once, but
  `crates/raft/src/node.rs:438-440` assigns `min(leader_commit, matched)` whenever the leader's commit
  index is ahead, and `matched` may be behind. The model follows the code.
  `Replication.CommitMovesBack` says exactly when the commit index moves back, for any state and any input, in
  terms a receiver can test on arrival, and `Scenarios.CommitIndexMovesBack` is a run on which it does.
  `Redelivery.OnceExactly` says exactly when each entry is delivered once, for any run, and
  `Scenarios.EntryDeliveredTwice` is a run on which one is delivered twice. It is harmless to the store:
  `Safety.StoreIsReplay`.
* **The leader-completeness clause can fire on a correct run.** `crates/sim/src/cluster.rs:441-445`
  compares the leader's term with the term of the *entry*, not of its commit. `Checker.AuditExactly` says
  exactly when it fires; `Checker.AuditOfRun` adds that a leader of a later term has then already advanced its
  commit index; `Scenarios.ClauseFiresOnCorrectRun` is a run after which it fires whatever the checker
  remembers. Every other clause, and the durability check on restart, never fires on any run. Leader
  completeness itself holds in commit-term form: `Origins.LeaderHoldsAllCommitted`.
* **Lengths are cast to 32 bits** when encoding (`crates/raft/src/message.rs:139`,
  `crates/raft/src/message.rs:142`, `crates/kv/src/lib.rs:24`). `Codec.RoundTripExactly` and
  `Kv.RoundTripExactly` say exactly which values survive the round trip.

## Model

| member | source | states |
|---|---|---|
| Safety.ElectionSafety | crates/sim/src/cluster.rs:391-402 | two nodes that lead the same term, in any two states of a run, are the same node |
| Safety.SingleTenure | crates/raft/src/node.rs:209-219 | a node that led a term and was later found not leading it never leads it again, not even after a restart |
| Safety.NoRivalAppend | crates/raft/src/node.rs:407-411 | a leader is never sent an append of its own term by another node, so the assertion is unreachable |
| Safety.LogsMatch | crates/sim/src/cluster.rs:456-474 | two disks, at any two times, that agree on the term at an index agree on everything up to it |
| Safety.AppendMatchesLog | crates/raft/src/node.rs:418-436 | a disk, at any time, that has the term an append in flight states for a position, in its prev pair or its entries, has the prev pair and all the entries up to there |
| Safety.AppendsMatch | crates/raft/src/node.rs:257-272 | two appends, whoever sent them and whenever, that state the same term for a position agree on everything both carry up to it |
| Safety.TermsInOrder | crates/raft/src/node.rs:418-436 | terms along a log never decrease and never exceed the node's term |
| Safety.LeaderIsComplete | crates/raft/src/node.rs:471-483 | what any node ever committed in a term is in the log of every leader of every later term, at every moment of its leadership |
| Safety.LeaderIsCurrent | crates/raft/src/node.rs:437-440 | the same for a leader of the same term, from the commit on |
| Origins.CommitHasLeader | crates/raft/src/node.rs:437-440 | whatever a node believes committed, some leader of no later term had committed before by its own scan, and the believer's prefix is a prefix of that leader's |
| Origins.LeaderHoldsAllCommitted | crates/raft/src/node.rs:471-483 | a leader whose term is at least every term in which some leader advanced its commit index holds everything anyone committed |
| Safety.CommittedAgree | crates/sim/src/cluster.rs:405-430 | any two committed prefixes, of any nodes at any times, before or after restarts, are prefixes of one another |
| Safety.CommittedSurvives | crates/sim/src/cluster.rs:216-226 | what a node once committed stays on its disk through every truncation, crash and restart, and its term never goes back |
| Safety.NothingOutOfRange | crates/raft/src/node.rs:257-272 | in every reachable state disk and memory of a live node are equal, its bookkeeping is in range and its commit index is within its log |
| Promises.MatchIsSound | crates/raft/src/node.rs:444-468 | what a leader counts for a peer is true: the peer was in the leader's term when it acknowledged, and from then on its disk has the leader's entries up to the index counted whenever it is in that term, no matter when the reply is counted |
| Promises.AckIsBacked | crates/raft/src/node.rs:424-441 | a success reply on its way is backed: while its sender is in the term of the reply, the sender's disk has the entries of that term's leader up to the index acknowledged |
| Promises.MatchAccounted | crates/raft/src/node.rs:454-457 | a leader counts for a peer no more than that peer has acknowledged to it in that term |
| Promises.LeaderAppendsOnly | crates/raft/src/node.rs:284-291 | from any moment of a leadership to any later one, the leader's log only grows |
| Promises.OneVotePerTerm | crates/raft/src/node.rs:11-12 | two votes a node ever granted in one term, in any two states of a run, went to the same candidate |
| Promises.TruncatesAboveCommitted | crates/raft/src/node.rs:430-431 | whatever call a node makes, it truncates only above every commit index it ever had, before restarts too |
| Elections.VotesTallied | crates/raft/src/node.rs:209-381 | in every reachable state of a cluster of any size, a node that is not a follower has counted exactly its own vote and the votes of its term handled since its candidacy began, and it leads if and only if they are enough |
| Elections.LeadsByMajority | crates/raft/src/node.rs:376-379 | such a node leads if and only if its supporters are a majority of the cluster |
| Elections.LastVoteElects | crates/raft/src/node.rs:376-379 | the vote that completes a majority makes its candidate leader in the next state, and any vote before it leaves a candidate |
| Elections.NamedLeaderLed | crates/raft/src/node.rs:125-127 | whoever a node names as the leader, also when it turns a command away, did lead the node's term |
| Safety.MatchNeverDecreases | crates/raft/src/node.rs:454-457 | throughout a leadership no peer's match index ever goes down |
| Safety.ReplicasAgree | crates/kv/src/lib.rs:94-98 | of two nodes' committed prefixes the longer replays to the shorter's store with the missing entries applied |
| Safety.StoreIsReplay | crates/raft/src/node.rs:487-493 | whatever the commit index did, applying the entries between the applied index and the highest one delivered to the store gives the replay of all delivered ones |
| Redelivery.HandedIsUpToHigh | crates/raft/src/node.rs:487-493 | the indices a node has handed over since boot are exactly those up to the highest one |
| Redelivery.RepeatsExactly | crates/raft/src/node.rs:487-493 | a delivery repeats an index handed over since boot if and only if the applied index is below both the highest index handed over and the commit index |
| Redelivery.OnceExactly | crates/raft/tests/node.rs:335-338 | between a boot and any later state no index is delivered twice if and only if that guard was false at every delivery |
| Redelivery.OnceUnlessBack | crates/raft/tests/node.rs:335-338 | as long as the commit index does not move back, each entry is delivered once |
| Safety.StoresAgree | crates/kv/src/lib.rs:64-74 | two caught-up nodes with equally many delivered entries hold equal stores |
| Runs.RunKeeps | crates/raft/src/node.rs:294-331 | every completed call keeps the whole invariant for an extended history, and loses nothing any node ever promised to hold |
| Runs.CrashDuringKeeps | crates/sim/src/cluster.rs:348-353 | so does a crash after any number of the storage writes of any call |
| Runs.NextKeeps | crates/sim/src/cluster.rs:294-365 | so does every action of the environment |
| Runs.RunWitnessed | crates/sim/src/cluster.rs:367-372 | every state of every run satisfies the invariant for histories that only grow |
| LedgerSteps.TermIsFree | crates/raft/src/node.rs:376-379 | a majority of votes for a term implies nobody leads it yet |
| LedgerSteps.WinnerHasIt | crates/raft/src/node.rs:345-356 | a candidate with a majority of votes holds every entry an earlier leader got onto a majority |
| LedgerSteps.ElectKeeps | crates/raft/src/node.rs:234-250 | an election with its no-op keeps the invariant |
| LedgerSteps.TruncateKeeps | crates/raft/src/node.rs:430-431 | cutting a log at a genuine conflict removes nothing that is committed and no acknowledged entry of the node's term |
| LedgerSteps.VoteKeeps | crates/raft/src/node.rs:346-355 | a vote for an up-to-date candidate keeps every promise made by earlier acknowledgements |
| Ledger.LeaderCompleteness | crates/raft/src/node.rs:471-483 | an entry a leader got onto a majority in its term is in the starting log of every later leader |
| Quorum.QuorumsMeet | crates/raft/src/node.rs:141-143 | two majorities of one cluster share a node |
| Quorum.CountedQuorum | crates/raft/src/node.rs:377-377 | the count over the vote vector reaches the quorum exactly when the true positions form a majority |
| Coupling.StepOk | crates/raft/src/node.rs:294-331 | each call from a sound state is crash-atomic after every write, ends in a sound state, and sends only sound messages |
| Coupling.NewLeaderFresh | crates/raft/src/node.rs:234-250 | a call that makes a node leader does so in a term nobody has led |
| NodeSpec.StepMirrored | crates/raft/src/storage.rs:48-64 | the writes of any call, replayed on the disk, give the node's new term, vote and log |
| NodeSpec.StepShape | crates/raft/src/node.rs:454-467 | whatever arrives, stale or forged, a leader keeps `match < next <= last + 1` for every peer, no match index goes down within a leadership, and a node's term never goes back |
| NodeSpec.BroadcastOnce | crates/raft/src/node.rs:252-255 | a broadcast is exactly one append for each peer, in order |
| NodeSpec.VoteBroadcastOnce | crates/raft/src/node.rs:226-231 | a candidacy asks each peer exactly once, in order, all with the same request |
| NodeSpec.KeptIsFirstConflict | crates/raft/src/node.rs:424-432 | the position where the merge splices is the first where log and append part |
| NodeSpec.DeliveryIsStretch | crates/raft/src/node.rs:488-490 | a delivery is the stretch of the log after the applied index, numbered in order |
| Cluster.BatchIsStretch | crates/raft/src/node.rs:487-493 | what the state machine is given is the stretch of the log between the applied and the commit index, and nothing when the latter is not ahead |
| Replication.MergeIdempotent | crates/raft/src/node.rs:424-436 | merging the same append twice changes nothing the second time and writes nothing |
| Replication.MergeIsLeaders | crates/raft/src/node.rs:424-436 | an append of a leader either finds all in place or leaves exactly the leader's log up to its last entry |
| Replication.AcksNeverUndone | crates/raft/src/node.rs:424-437 | appends from one leader, in any order and repeated at will, never undo the furthest acknowledgement |
| Replication.ScanIsGreatest | crates/raft/src/node.rs:471-483 | with sorted terms, the scan with its early break finds the greatest index above the commit index that has an entry of the term on a majority, if any |
| Replication.CallCommitsGreatest | crates/raft/src/node.rs:471-483 | in every reachable state and for every call that scans, the node scanned (just crowned, with the new command, or with the acknowledgement noted) has sorted terms, and the commit index the call leaves is the greatest that node could commit; no other call but an append moves it |
| Replication.NothingLeftToCommit | crates/raft/src/node.rs:454-458 | in every reachable state no leader has an index left that it could commit |
| Replication.CommitMovesBack | crates/raft/src/node.rs:437-440 | the commit index decreases in a call if and only if the call is an accepted append that ends below it and announces a commit index above it |
| Repair.ExchangeProgress | crates/raft/src/node.rs:454-467 | any answer of a follower to the append meant for it brings the two closer to done: a rejection by the hint, an acknowledgement by a whole batch |
| Repair.MatchedMeansEqual | crates/raft/src/node.rs:418-442 | once everything is matched the logs are equal, stale tail included |
| Repair.LogRepair | crates/raft/src/node.rs:418-467 | any run with a leader and a follower of no later term goes on by one heartbeat and then only the two nodes' own messages, each handling what the other sent in the step before, to equal logs, the leader's log and everyone else unchanged; it takes at most one rejection for whatever the leader starts beyond the follower's log, one for each position from there down to the match, and one exchange for each batch |
| Repair.BatchesMeans | crates/raft/src/node.rs:257-262 | the batches counted for a log are its length over the batch size, rounded up |
| Repair.EmptyPeer | crates/raft/src/node.rs:463-466 | against an empty log one rejection is enough, however long the leader's log: the rest is batches |
| CatchUp.CommitRepair | crates/raft/src/node.rs:437-441 | log repair and one more heartbeat leave the follower with the greater of its commit index and the leader's: the leader's exactly when the follower did not know of more, and always when the leader has committed an entry of its own term |
| CatchUp.NobodyAhead | crates/raft/src/node.rs:471-483 | a follower with the leader's log has committed no more than a leader that has committed an entry of its own term |
| CatchUp.LeaderCommitGrows | crates/raft/src/node.rs:471-483 | throughout a leadership the commit index never goes down |
| Quartet.FollowerStaysAhead | crates/raft/src/node.rs:438-440 | a run of four nodes on which leader and follower have equal logs and one more heartbeat leaves the follower with commit index 1 and the leader with 0 |
| Scenarios.CommitIndexMovesBack | crates/raft/src/node.rs:438-440 | a run of three nodes on which a live node's commit index goes from 2 to 1 |
| Scenarios.EntryDeliveredTwice | crates/raft/src/node.rs:487-493 | a run on which a node hands over index 2 twice, with no restart in between |
| Scenarios.ClauseFiresOnCorrectRun | crates/sim/src/cluster.rs:441-445 | a run after which every audit, whatever the checker remembers of the run, reports a leader that lacks a committed entry |
| Effects.StrangersIgnored | crates/raft/src/node.rs:295-297 | a message from the node itself or from outside the cluster changes nothing and is not answered |
| Effects.LaterTermAdopted | crates/raft/src/node.rs:298-300 | a later term is adopted from any message and saved before anything else; the node gives up leading or standing, and its vote is open unless the message wins it |
| Effects.VoteAnswered | crates/raft/src/node.rs:345-363 | a request for a vote gets exactly one answer, and the vote if and only if the term is not over, no one else has the vote in it, and the candidate's last entry is not behind; the vote is on disk by then |
| Effects.VoteRepeated | crates/raft/src/node.rs:345-363 | the same request again gets the same answer and changes nothing |
| Effects.ElectionStarted | crates/raft/src/node.rs:209-232 | an election is for the next term, with the node's own vote saved first; it leads at once if and only if it is alone, and otherwise asks every peer exactly once |
| Effects.LeaderStarts | crates/raft/src/node.rs:234-250 | a new leader adds an empty entry of its term, knows nothing of its peers, and sends each what comes after the log it was elected with |
| Effects.AppendCarries | crates/raft/src/node.rs:257-272 | an append starts at the peer's next position and carries the smaller of the batch size and what is left |
| Effects.HeartbeatSent | crates/raft/src/node.rs:193-199 | a due heartbeat goes to every peer and changes nothing, and nothing happens before it is due |
| Effects.ProposalSent | crates/raft/src/node.rs:276-292 | an accepted command is the leader's last entry, on disk, and goes out to every peer exactly once; any other node stays as it is |
| Effects.StaleAppend | crates/raft/src/node.rs:403-405 | an append of a term that is over changes nothing and is answered with the later term |
| Effects.AppendAccepted | crates/raft/src/node.rs:411-441 | an append that attaches is acknowledged up to its last entry and taken into the log, and the commit index becomes the smaller of announcement and acknowledged index whenever the announcement is ahead, empty appends included |
| Effects.AppendRefused | crates/raft/src/node.rs:417-422 | one that does not attach leaves log and commit index, and the reply says how far back to look |
| Effects.StaleReply | crates/raft/src/node.rs:451-453 | a reply to anyone but the leader of its term changes nothing |
| Effects.AckNoted | crates/raft/src/node.rs:454-462 | an acknowledgement raises the match, the next append starts right after it, and it is sent if and only if there is anything left |
| Effects.HintTaken | crates/raft/src/node.rs:463-467 | after a rejection the next append starts no later than the greater of match and hint, no later than the last one and never before the match; a hint not before the last append changes nothing; the append is sent at once |
| Effects.ShortLogFound | crates/raft/src/node.rs:417-419 | when the follower's log is the shorter one, the append after its first rejection starts at its end |
| Node.Node.constructor | crates/raft/src/node.rs:89-114 | boots a follower with the term, vote and log of its disk and everything volatile reset |
| Node.Node.PersistHardState | crates/raft/src/node.rs:172-174 | exactly one save of the current term and vote |
| Node.Node.StepDown | crates/raft/src/node.rs:177-184 | adopts the term, forgets the vote, saves both, follows nobody |
| Node.Node.Tick | crates/raft/src/node.rs:191-207 | a leader whose timer is due broadcasts, anyone else's starts an election, and nothing happens before |
| Node.Node.StartElection | crates/raft/src/node.rs:209-232 | new term and own vote are saved before anything else; leads at once when its own vote is a majority |
| Node.Node.BroadcastVote | crates/raft/src/node.rs:221-231 | the same request to every peer, in order |
| Node.Node.BecomeLeader | crates/raft/src/node.rs:234-250 | resets the bookkeeping from the log before the no-op, stores the no-op, scans, broadcasts |
| Node.Node.BroadcastAppend | crates/raft/src/node.rs:252-255 | one append per peer, in order |
| Node.Node.Propose | crates/raft/src/node.rs:276-292 | a leader stores the command and returns its index and appends; anyone else refuses, names the leader it knows, and changes nothing |
| Node.Node.Handle | crates/raft/src/node.rs:294-331 | ignores itself and strangers; a newer term is saved before the message is looked at |
| Node.Node.Dispatch | crates/raft/src/node.rs:301-330 | each message reaches its handler with its fields in order |
| Node.Node.OnRequestVote | crates/raft/src/node.rs:337-364 | answers with a vote, saved first, or without, as the step function of which `Effects.VoteAnswered` says exactly when |
| Node.Node.OnVoteResponse | crates/raft/src/node.rs:366-381 | remembers a granted vote of the current candidacy, also one short of a majority, and leads on a majority: the step function that `Elections.VotesTallied` is about |
| Node.Node.OnAppendEntries | crates/raft/src/node.rs:384-442 | the four outcomes with their replies, the log and the commit index: the step function of `Effects.StaleAppend`, `Effects.AppendAccepted` and `Effects.AppendRefused` |
| Node.Node.MergeEntries | crates/raft/src/node.rs:424-436 | the loop computes the merge, with at most one truncation followed by at most one append |
| Node.Node.OnAppendResponse | crates/raft/src/node.rs:444-468 | bookkeeping moves up on success, and back by the hint but never below the match on failure; what is missing is sent: the step function of `Effects.AckNoted` and `Effects.HintTaken` |
| Node.Node.AdvanceCommit | crates/raft/src/node.rs:471-483 | the scanning loop computes the commit scan |
| Node.Node.TakeCommitted | crates/raft/src/node.rs:487-493 | returns the delivery and sets the applied index to the commit index, also when that is lower |
| Storage.MemStorage.SaveHardState | crates/raft/src/storage.rs:52-56 | replaces term and vote, keeps the log |
| Storage.MemStorage.Append | crates/raft/src/storage.rs:57-59 | extends the log, keeps the rest |
| Storage.MemStorage.TruncateFrom | crates/raft/src/storage.rs:60-63 | keeps the entries before the index; index 0 counts as 1, and an index past the end changes nothing |
| Layouts.DiskLaidOut | crates/raft/src/storage.rs:66-74 | the stored record: keys, entry keys highest byte first, term and vote lowest byte first with all ones for no vote |
| Keys.KeyOrder | crates/raft/src/storage.rs:70-74 | a later entry has a key that sorts later |
| Sietch.ScanIsLog | crates/raft/src/storage.rs:104-111 | a scan of the entry prefix is exactly the log in index order, so the assertion about gaps holds |
| Sietch.WriteRefines | crates/raft/src/storage.rs:125-163 | the batch of one storage call does to the table what the write does to the record |
| Sietch.LoadExactly | crates/raft/src/storage.rs:94-123 | loading succeeds with a record if and only if the table stands for that record |
| Sietch.SessionRefines | crates/raft/src/storage.rs:86-163 | after any sequence of saves, appends, truncations and reopenings, loading gives the record the same calls build in memory |
| Sietch.HardStateRoundTrip | crates/raft/src/storage.rs:95-103 | term and vote survive their sixteen bytes for every id below the code for no vote |
| SietchStorage.SietchStorage.Open | crates/raft/src/storage.rs:86-90 | opening counts the stored entries |
| SietchStorage.SietchStorage.Load | crates/raft/src/storage.rs:94-123 | the loop returns the record, or the first reason to stop, of the only possible scan |
| SietchStorage.SietchStorage.SaveHardState | crates/raft/src/storage.rs:125-131 | one put; the disk then stands for the changed record |
| SietchStorage.SietchStorage.Append | crates/raft/src/storage.rs:133-150 | one batch after the cached last index, none when there is nothing to append |
| SietchStorage.SietchStorage.TruncateFrom | crates/raft/src/storage.rs:152-163 | one batch of deletions; nothing past the end |
| SietchStorage.Store.Scan | crates/raft/src/storage.rs:88-88 | a listing of the pairs with the prefix, each once, in key order |
| SietchStorage.Store.ApplyBatch | crates/raft/src/storage.rs:146-148 | a batch takes effect operation by operation, whole |
| Checker.AbsorbMeans | crates/sim/src/cluster.rs:416-428 | the entry-by-entry comparison accepts exactly the prefixes on one line with what was seen, and keeps the longer |
| Checker.CommitsRecorded | crates/sim/src/cluster.rs:405-430 | the record of committed entries only grows and covers every live node's committed prefix |
| Clauses.TermsExactly | crates/sim/src/cluster.rs:376-403 | for any nodes and any memory: exactly when the first clause fires, that its report is so, and exactly what it remembers |
| Clauses.CommitsExactly | crates/sim/src/cluster.rs:407-430 | the same of the second clause, the per-node marks included |
| Checker.HighestSuffices | crates/sim/src/cluster.rs:463-472 | testing the highest index with equal terms is equivalent to log matching at every index |
| Checker.AuditOfRun | crates/sim/src/cluster.rs:374-476 | after any run an audit reports nothing, or a live leader that a leader of a later term has overtaken; nothing it remembers is made up |
| Checker.AuditExactly | crates/sim/src/cluster.rs:432-454 | after any run an audit reports if and only if some live leader lacks an entry, of a term before its own, that is in the record it starts with or in the committed prefix of some live node; it then names such a leader and entry |
| Checker.RestartPasses | crates/sim/src/cluster.rs:216-226 | everything a node was ever seen to have committed is on the disk it recovers from |
| Checker.TermNotBack | crates/sim/src/cluster.rs:380-389 | no live node is below a term it was once seen in |
| Simulator.Simulation.constructor | crates/sim/src/cluster.rs:114-144 | all nodes booted from empty disks, nothing sent, nothing remembered |
| Simulator.Simulation.Crash | crates/sim/src/cluster.rs:204-208 | takes the node away and nothing else |
| Simulator.Simulation.Restart | crates/sim/src/cluster.rs:210-227 | boots a node that is down; the durability check finds nothing lost |
| Simulator.Simulation.CheckRecovered | crates/sim/src/cluster.rs:217-225 | reports a loss if and only if the recovered log does not start with the recorded entries up to the node's mark |
| Simulator.Simulation.Partition | crates/sim/src/cluster.rs:244-251 | exactly the pairs on different sides are cut |
| Simulator.Simulation.Quiesce | crates/sim/src/cluster.rs:233-240 | the network is whole, every node is up, and no durability check fails |
| Simulator.AllAreUp | crates/sim/src/cluster.rs:236-238 | restarting everyone leaves all nodes up and the live ones untouched |
| Simulator.Simulation.Leader | crates/sim/src/cluster.rs:195-202 | the live leader of the strictly highest term, or none exactly when nobody leads |
| Simulator.Simulation.Route | crates/sim/src/cluster.rs:282-292 | everything not cut off goes on the wire, and nothing else |
| Simulator.Simulation.Call | crates/sim/src/cluster.rs:348-353 | a call takes effect on node and disk; after a crash nothing is sent |
| Simulator.Simulation.Propose | crates/sim/src/cluster.rs:264-273 | the command goes to the leader and gets the index it now has in that leader's log; refused exactly when nobody leads |
| Simulator.Simulation.Arrive | crates/sim/src/cluster.rs:338-354 | a packet for a node that is down is dropped; any other is handled |
| Simulator.Simulation.ArriveAll | crates/sim/src/cluster.rs:338-354 | arrivals are handled in order |
| Simulator.Simulation.Timers | crates/sim/src/cluster.rs:356-362 | every live node's timer is checked, in order, its messages routed |
| Simulator.Simulation.Inject | crates/sim/src/cluster.rs:300-322 | crash, restart, partition, heal, proposal, in this order |
| Simulator.Simulation.Tick | crates/sim/src/cluster.rs:295-365 | a tick carries out its events, arrivals and timers in order as steps of the transition system, and reports exactly when, after them, a live leader lacks an entry of an earlier term that is in the record from before the tick or in the committed prefix of some live node |
| Simulator.Simulation.RunTicks | crates/sim/src/cluster.rs:367-372 | all the ticks are carried out, one after the other, or those up to the first that reports |
| Ticks.ArrivalHandled | crates/sim/src/cluster.rs:338-354 | a packet on the wire is handled by the node it is for, if that is up, and nobody else moves; anything else changes nothing |
| Ticks.ArrivalsInOrder | crates/sim/src/cluster.rs:338-354 | arrivals are handled one after the other, in the order given |
| Ticks.TimersAllChecked | crates/sim/src/cluster.rs:356-362 | every live node has its own timer checked exactly once, from the state it was in, and what is sent is what those timers sent on links that are not cut |
| Ticks.EventsTaken | crates/sim/src/cluster.rs:300-322 | a tick's crash, restart, partition, healing and command take effect in this order, each on what it names and nothing else |
| Simulator.Simulation.CheckInvariants | crates/sim/src/cluster.rs:374-476 | the audit computes its four clauses in order, first violation first |
| Simulator.Simulation.CheckTerms | crates/sim/src/cluster.rs:376-403 | fires if and only if a live node is below the term it was seen in, or a live leader's term is led or was led by another, and names such a node; otherwise every live node's term and every live leader is remembered and nothing else changes |
| Simulator.Simulation.CheckCommits | crates/sim/src/cluster.rs:407-430 | fires if and only if a live commit index is beyond its log or two of the record and the live committed prefixes are not on one line, and names such a node and index; otherwise the record is the longest of them and every live node's mark is raised |
| Simulator.Simulation.CheckLeaders | crates/sim/src/cluster.rs:434-454 | third clause: silent exactly when every leader holds the committed entries of earlier terms |
| Simulator.Simulation.CheckLogs | crates/sim/src/cluster.rs:457-474 | fourth clause: silent exactly when all live logs match at every index |
| Layouts.MessageLaidOut | crates/raft/src/message.rs:8-16 | the wire format, kind by kind: which field lies where, how wide it is, its bytes lowest first, and the entries of an append one after the other |
| Codec.RoundTrip | crates/raft/src/message.rs:110-219 | a message whose numbers and lengths fit decodes to itself |
| Codec.RoundTripExactly | crates/raft/src/message.rs:135-145 | a message survives the round trip if and only if its numbers and lengths fit their fields |
| Codec.DecodeSound | crates/raft/src/message.rs:168-220 | every accepted kind and payload is exactly the encoding of the message returned |
| Codec.PrefixRejected | crates/raft/src/message.rs:87-93 | every strict prefix of an encoded message is rejected |
| Codec.GuardIsHarmless | crates/raft/src/message.rs:186-191 | the guard on the declared count rejects nothing that would parse |
| Codec.Reader.Take | crates/raft/src/message.rs:86-93 | takes the first bytes and keeps the rest, or fails and keeps all |
| Codec.Reader.ReadEntries | crates/raft/src/message.rs:192-200 | the counted loop parses that many entries from the front |
| Codec.Reader.ReadMessage | crates/raft/src/message.rs:171-215 | each kind is read field by field in order, with the first failure returned |
| Codec.DecodeMessage | crates/raft/src/message.rs:168-220 | the reader computes the decoding function, trailing bytes rejected |
| Codec.EncodeMessage | crates/raft/src/message.rs:110-157 | the growing buffer computes the encoding function |
| Codec.ExtendWithEntries | crates/raft/src/message.rs:140-144 | the loop appends the encoded entries in order |
| Layouts.CommandLaidOut | crates/kv/src/lib.rs:19-36 | the format of a command: tag, key length lowest byte first, key, value; a deletion without length |
| Kv.RoundTripExactly | crates/kv/src/lib.rs:20-51 | a command survives the log if and only if the length of a stored key fits four bytes |
| Kv.DecodeSound | crates/kv/src/lib.rs:37-51 | an accepted byte string encodes exactly the command it decodes to |
| Kv.ReplayMeans | crates/kv/src/lib.rs:94-98 | a replayed store holds under a key what the last command about it said, and nothing if there was none |
| Kv.LastWriteWins | crates/kv/src/lib.rs:64-74 | applying entries makes every key they touch independent of the store before, and leaves the others alone |
| Kv.RedeliveryAbsorbed | crates/kv/src/lib.rs:64-74 | if a suffix of the log completes a store to the replay of the whole, so does every longer suffix |
| Kv.DeliveryCompletes | crates/raft/src/node.rs:487-493 | every delivery, with a commit index that moved either way, keeps the store one replay away from right |
| Kv.Store.Apply | crates/kv/src/lib.rs:64-74 | one entry's effect on the map; empty and malformed commands have none |
| Kv.ReplayAll | crates/kv/src/lib.rs:94-98 | the loop over a new store computes the replay |

## Left out

- The `frame`, `channel` and `storage` crates are not part of this model: a datagram is a pair of kind and
  payload, a corrupted one counts as lost, a channel is the set of packets handed to it, and the embedded
  store is an ordered map whose batches take effect whole and are durable.
- Timeout values, probabilities and the random number generators: a timer is due, and a fault happens, whenever
  the environment says so, which covers every seed.
- Liveness under random timing and the measured recovery bounds; `Repair.LogRepair` is the progress claim that
  holds without probabilities.
- Overflow of 64-bit terms, indices and ticks in the protocol: these are unbounded there. Widths appear in the
  codec, in the storage keys and in the two round-trip theorems.
- Sharing of a disk between handles and stopping on disk errors: a disk is one record per node that outlives it,
  and the reasons for which `load` stops are returned as errors.
- `Simulator` keeps its nodes and disks as values that its methods replace, where the code has them inside a
  vector; the node as a mutable object is `Node`, proved against the same step functions.
- The choice between in-memory and on-disk storage in the simulator: it uses the record, and `Sietch.SessionRefines`
  shows the disk format stands for the same record.
- Statistics, accessors, error texts and the command-line program.
