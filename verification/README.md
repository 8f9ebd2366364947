# toyDB in Dafny

A model of the parts of toyDB that other parts rely on, with proofs of what they promise.
`dafny verify dfyconfig.toml` checks everything.

**Raft** (Raft paper sections 5.2 to 5.4, Raft thesis section 6.4). `RaftNode` gives every handler of a
node as a function from a node and a message to the new node, what it sends, and the panic that stops it,
if any. `RaftRawNode` and `RaftLogStore` are the node and its log in place, with their loops over peers,
entries and requests and with the log's key/value engine; each method is proved to do what the function
says. `RaftCluster` puts nodes and every envelope ever sent into one state; an envelope may be delivered
late, repeatedly or never, nodes tick and restart, and a restart keeps the log, the term and the vote but may
lose any part of the commit index and of the applied state. Proofs about runs (`RaftSafety`, `RaftLinear`,
`RaftResults`, `RaftClients`, `RaftCatchUp`, `RaftConverge`, `RaftPanics`) rest on one invariant (`RaftInvariant`) about a history of
elections, acknowledgements and confirmations that no node sees. The replicated state machine is the free
one: its state is the sequence of applied entries, so whatever a deterministic machine answers is a function
of what is answered here.

**Storage.** `Keycode` and `MvccKey` are the order-preserving key encoding. `Mvcc` is the transactional
engine in place; `MvccIsolation` compares every run of it with a reference in which each transaction takes a
copy of the committed state when it begins; `MvccScan` is the batched scan iterator. `BitCask` is the
append-only store.

**SQL.** `SqlIndex` says when secondary indexes agree with rows, `SqlStatements` what each statement
writes, in order, and `SqlTransaction` is the transaction in place that writes it. `SqlCommit` runs programs of
statements as concurrent MVCC transactions and carries the agreement to the committed state. `SqlJoin` compares the two join iterators. `SqlParser` is the
precedence-climbing expression parser, which inverts the printer that omits needless parentheses.

Two promises do not hold as they stand, and the exact condition is proved instead:

- A node can panic after a restart: a former leader gets the answer to a heartbeat it sent before
  (`RaftPanics.RestartedLeaderStops`). `RaftPanics.PanicsExactly` says which deliveries stop a node; all other
  panics are unreachable in every run. Without restarts no node stops, as long as it may send at least one
  entry per append (`RaftSafety.NeverPanics`).
- The planner replaces a nested-loop equijoin by a hash join (`src/sql/planner/optimizer.rs:316-347`), but an
  integer and an equal float are equal in the predicate and have different hashes
  (`SqlJoin.MixedNumbersDiffer`). `SqlJoin.JoinsEquivalent` says exactly when the two joins agree.

Where a comment and the code differ, the code is modelled: the worked example at
`src/sql/parser/parser.rs:913-949` puts exponentiation at level 9, the table below it at level 8.

## Model

| member | source | states |
|---|---|---|
| RaftSafety.StateMachineSafety | src/raft/node.rs:984-1032 | in every run, any two nodes at any two times have committed and applied sequences of which one extends the other |
| RaftSafety.CommittedInLeaders | src/raft/node.rs:425-449 | what any node has committed or applied is a prefix of the log of every later leader of at least its term |
| RaftSafety.ElectionSafety | src/raft/node.rs:601-606 | two nodes that ever lead the same term, at any times and across restarts, are the same node |
| RaftSafety.LogMatching | src/raft/node.rs:387-410 | logs of any nodes at any times that share an index and a term are equal up to it |
| RaftSafety.NeverPanics | src/raft/node.rs:341-487 | a node that does not restart and may send entries is never stopped by any assertion |
| RaftSafety.SafeAgree | src/raft/node.rs:999-1008 | sequences that were safe to apply at any two moments of a run extend one another |
| RaftPanics.PanicsExactly | src/raft/node.rs:797-943 | a delivery stops its node if and only if the message is for a role the node does not have; then the node restarted or sends no entries; second leaders, failed splices and future indexes are unreachable |
| RaftPanics.StopsExactly | src/raft/node.rs:454-487 | the same for one message in any state the invariant allows |
| RaftPanics.MisdirectedStops | src/raft/node.rs:629-632 | a misdirected message stops any node |
| RaftPanics.RestartedLeaderStops | src/raft/node.rs:480-484 | a run of six events in which a restarted leader is stopped by the answer to its own heartbeat |
| RaftLinear.RealTimeOrder | src/raft/node.rs:1036-1066 | if a result was sent before a later request reached the leader that answers it, by any way and in any term, then the later result extends it, strictly for a write |
| RaftLinear.SubmissionOrder | src/raft/node.rs:898-917 | so a request submitted after another completed gets a state that extends the other's result |
| RaftLinear.ResultsAgree | src/raft/node.rs:1013-1022 | any two results ever sent are states of which one extends the other |
| RaftLinear.ResultsApplied | src/raft/node.rs:1013-1022 | a result agrees with what any node has committed or applied at any time |
| RaftLinear.ResultsWereAsked | src/raft/node.rs:898-917 | every result answers a request submitted before: a read carries that command, a write's state ends with it |
| RaftResults.WritesApplied | src/raft/node.rs:1008-1022 | a successful write was submitted before, and by the time it is answered some node has committed and applied a log that ends with that command, which is the state answered |
| RaftResults.ResultsComputed | src/raft/node.rs:1036-1066 | the state of every result was applied by some node by then, and is committed there |
| RaftResults.StepSourced | src/raft/node.rs:108-123 | a step sends only results that the node computes from what it has applied, or passes on results sent to it |
| RaftClients.AnsweredOnce | src/raft/node.rs:454-474 | a submitted request is at every later moment pending and unanswered, or answered at exactly one step, with exactly one message |
| RaftClients.StepAccounts | src/raft/node.rs:782-795 | each step answers or keeps every pending local request, and none twice |
| RaftClients.TickAccounts | src/raft/node.rs:490-507 | each tick does too |
| RaftConverge.CatchesUp | src/raft/node.rs:812-842 | from every reachable state with a leader and a running node of no later term, a bounded number of ticks and deliveries, with no client request or restart, leads to the same leader with the same log and the node with a log equal to it |
| RaftConverge.FollowerCatchesUp | src/raft/node.rs:846-893 | the same for a follower of the leader's term, within one heartbeat interval of ticks, six deliveries per entry of the leader's log, and four more |
| RaftConverge.ProbeStarts | src/raft/node.rs:956-964 | a heartbeat to a follower whose log differs, and its answer, start an exchange of appends |
| RaftConverge.ExchangeRuns | src/raft/node.rs:1081-1128 | every exchange is continued by two deliveries per round until the logs are equal |
| RaftConverge.Joins | src/raft/node.rs:618-620 | a heartbeat makes any running node of no later term a follower of the leader's term, without a panic |
| RaftCatchUp.CatchUp | src/raft/node.rs:846-890 | from any latest append to a diverging follower, optimistic or a probe, every run of the exchange is bounded, can go on while an append is on its way, and ends with equal logs |
| RaftCatchUp.RoundOk | src/raft/node.rs:723-729 | each round keeps the leader's log and lowers the number of rounds that may remain |
| RaftCatchUp.RoundExists | src/raft/node.rs:1081-1128 | an exchange with an append on its way can always go on |
| RaftCatchUp.CaughtUp | src/raft/node.rs:1081-1096 | with nothing on its way the two logs are equal |
| RaftCatchUp.ReachableExchange | src/raft/node.rs:1112-1127 | in every run, the latest append to a follower of the leader's term starts such an exchange |
| RaftCatchUp.HeartbeatStarts | src/raft/node.rs:827-830 | a heartbeat response without a match makes the leader send such an append |
| RaftCatchUp.StatusHeld | src/raft/node.rs:1131-1146 | in every run, each match index that a leader reports is held, as the same entries, by its node if that is in the leader's term |
| RaftNode.NextAppendFacts | src/raft/node.rs:1081-1128 | which peers are sent nothing, an empty probe or a batch, exactly; appends are empty if and only if they are probes or the batch size is 0 |
| RaftHistory.LeaderCompleteness | src/raft/node.rs:425-449 | a prefix that a majority acknowledged in a term is in the log of every later leader |
| RaftHistory.LogsMatch | src/raft/log.rs:309-317 | logs that follow the leaders' logs are equal up to a shared index and term |
| RaftLeader.QuorumChosen | src/raft/node.rs:984-1005 | what a quorum of match indexes reaches, in the leader's own term, is acknowledged by a majority |
| RaftLeader.NoOtherLeader | src/raft/node.rs:601-606 | a majority of votes in a term that has a leader is impossible |
| RaftLeader.AppliedResult | src/raft/node.rs:1044-1048 | once an entry of its own term is committed and applied, a leader's state is safe and as far as its commit index |
| RaftReplica.SpliceSucceeds | src/raft/log.rs:278-343 | an append of the term's leader meets none of the assertions of splice |
| RaftReplica.FollowerAppendOk | src/raft/node.rs:387-410 | handling an append keeps the invariant and acknowledges only what the log now holds |
| RaftReplica.FollowerHeartbeatOk | src/raft/node.rs:361-384 | handling a heartbeat keeps the invariant; only what the leader committed is committed |
| RaftSteps.StepOk | src/raft/node.rs:108-123 | every message keeps the invariant, in every role |
| RaftSteps.TickOk | src/raft/node.rs:126-132 | every tick keeps the invariant |
| RaftSteps.RestartOk | src/raft/node.rs:268-290 | every restart keeps the invariant, whatever part of the commit index and applied state is lost |
| RaftRuns.NextOk | src/raft/node.rs:68-132 | every event of a cluster keeps the invariant, and histories only grow |
| RaftRuns.TraceOf | src/raft/node.rs:73-132 | every run has histories that satisfy the invariant at every state |
| RaftNode.QuorumValueUnique | src/raft/node.rs:207-213 | there is one greatest value that a quorum reaches |
| RaftQuorum.SelectIsQuorumValue | src/raft/node.rs:207-213 | the value at the quorum's place from the top is the greatest that a quorum of the cluster reaches |
| RaftQuorum.SelectedIsReached | src/raft/node.rs:207-213 | at least a quorum of values reach the selected one, and fewer reach the next |
| RaftRawNode.RawNode.constructor | src/raft/node.rs:268-290 | the node starts as a leaderless follower with the committed entries applied |
| RaftRawNode.RawNode.Send | src/raft/node.rs:221-224 | one envelope of the node's term is sent |
| RaftRawNode.RawNode.SendAll | src/raft/node.rs:233-239 | as many envelopes as there are peers are sent, and they are one to each peer |
| RaftRawNode.RawNode.MaybeApply | src/raft/node.rs:510-520 | the committed entries after the applied ones are applied in order |
| RaftRawNode.RawNode.AbortForwarded | src/raft/node.rs:500-507 | every forwarded request is answered with one abort, and none is left |
| RaftRawNode.RawNode.FollowerNewTerm | src/raft/node.rs:316-338 | as `RaftNode.FollowerNewTerm`: the new term without a vote or leader, requests aborted |
| RaftRawNode.RawNode.StartCampaign | src/raft/node.rs:649-659 | as `RaftNode.StartCampaign`: a new term, a vote for itself, a request to every peer |
| RaftRawNode.RawNode.IntoCandidate | src/raft/node.rs:294-312 | as `RaftNode.IntoCandidate`: requests aborted, entries applied, campaign started |
| RaftRawNode.RawNode.HearLeader | src/raft/node.rs:316-327 | as `RaftNode.HearLeader`: follows the sender, or panics on a second leader |
| RaftRawNode.RawNode.FollowerHeartbeat | src/raft/node.rs:361-384 | as `RaftNode.FollowerHeartbeat`: match, response, commit and application |
| RaftRawNode.RawNode.FollowerAppend | src/raft/node.rs:387-410 | as `RaftNode.FollowerAppend`: splice and response, or rejection, or the splice's panic |
| RaftRawNode.RawNode.FollowerRead | src/raft/node.rs:413-422 | as `RaftNode.FollowerRead`: confirmation to the leader |
| RaftRawNode.RawNode.FollowerCampaign | src/raft/node.rs:425-449 | as `RaftNode.FollowerCampaign`: one vote per term, only for logs at least as up to date |
| RaftRawNode.RawNode.FollowerClientRequest | src/raft/node.rs:454-465 | as `RaftNode.FollowerClientRequest`: forwarded and remembered, or aborted |
| RaftRawNode.RawNode.FollowerClientResponse | src/raft/node.rs:468-474 | as `RaftNode.FollowerClientResponse`: passed on once |
| RaftRawNode.RawNode.FollowerStep | src/raft/node.rs:341-487 | as `RaftNode.FollowerStep`, for every message of the node's term |
| RaftRawNode.RawNode.CandidateNewTerm | src/raft/node.rs:546-560 | as `RaftNode.CandidateNewTerm` |
| RaftRawNode.RawNode.CandidateVote | src/raft/node.rs:601-606 | a vote is counted, and a quorum makes the node leader |
| RaftRawNode.RawNode.CandidateLost | src/raft/node.rs:618-620 | as `RaftNode.CandidateLost`: the winner is followed and its message handled |
| RaftRawNode.RawNode.CandidateStep | src/raft/node.rs:598-634 | as `RaftNode.CandidateStep`, for every message of the node's term |
| RaftRawNode.RawNode.IntoLeader | src/raft/node.rs:564-583 | as `RaftNode.IntoLeader`: empty command proposed, committed if alone, heartbeat sent |
| RaftRawNode.RawNode.MaybeSendAppend | src/raft/node.rs:1081-1128 | as `RaftNode.MaybeSendAppend`: a batch from the next index, an empty probe, or nothing |
| RaftRawNode.RawNode.Propose | src/raft/node.rs:969-980 | as `RaftNode.ProposeAs`: the entry is appended and sent to every peer in steady state |
| RaftRawNode.RawNode.QuorumIndexOf | src/raft/node.rs:984-990 | the index selected is the greatest that a quorum holds |
| RaftRawNode.RawNode.MaybeCommitAndApply | src/raft/node.rs:984-1032 | as `RaftNode.MaybeCommitAndApply`: commits a quorum's entry of the own term only |
| RaftRawNode.RawNode.CommitAndApply | src/raft/node.rs:1008-1022 | as `RaftNode.CommitAndApply`: entries applied in order and each waiting write answered with its state |
| RaftRawNode.RawNode.ApplyEntries | src/raft/node.rs:1012-1022 | exactly the writes of the applied indexes are answered, in as many envelopes, and forgotten |
| RaftRawNode.RawNode.MaybeRead | src/raft/node.rs:1036-1066 | as `RaftNode.MaybeRead`: the reads a quorum confirmed, once an own entry is applied |
| RaftRawNode.RawNode.AnswerReads | src/raft/node.rs:1057-1064 | exactly the confirmed front of the queue is answered, in as many envelopes |
| RaftRawNode.RawNode.SendHeartbeat | src/raft/node.rs:956-964 | as `RaftNode.SendHeartbeat` |
| RaftRawNode.RawNode.AbortPending | src/raft/node.rs:782-791 | every pending write and read is answered with an abort, in as many envelopes |
| RaftRawNode.RawNode.LeaderNewTerm | src/raft/node.rs:776-795 | as `RaftNode.LeaderNewTerm`: requests aborted, new term entered |
| RaftRawNode.RawNode.LeaderConfirm | src/raft/node.rs:713-719 | as `RaftNode.LeaderConfirm`: a risen confirmation may release reads |
| RaftRawNode.RawNode.LeaderMatch | src/raft/node.rs:703-710 | as `RaftNode.LeaderMatch`: a risen match index may commit |
| RaftRawNode.RawNode.LeaderProbe | src/raft/node.rs:723-729 | as `RaftNode.LeaderProbe`: the next index moves back, not below the match index, and is probed |
| RaftRawNode.RawNode.LeaderHeartbeatResponse | src/raft/node.rs:812-842 | as `RaftNode.LeaderHeartbeatResponse` |
| RaftRawNode.RawNode.LeaderAppendResponse | src/raft/node.rs:846-893 | as `RaftNode.LeaderAppendResponse` |
| RaftRawNode.RawNode.LeaderReadConfirmed | src/raft/node.rs:862-866 | as `RaftNode.LeaderReadConfirmed` |
| RaftRawNode.RawNode.LeaderWrite | src/raft/node.rs:898-904 | as `RaftNode.LeaderWrite`: proposed and remembered under its index |
| RaftRawNode.RawNode.LeaderRead | src/raft/node.rs:909-917 | as `RaftNode.LeaderRead`: queued under a new sequence number that is broadcast |
| RaftRawNode.RawNode.LeaderStatus | src/raft/node.rs:1131-1146 | the status names the leader and its term, has a match index within the log for exactly the nodes of the cluster, its own being its last index, and a commit index within the log |
| RaftRawNode.RawNode.LeaderStep | src/raft/node.rs:797-943 | as `RaftNode.LeaderStep`, for every message of the node's term |
| RaftRawNode.RawNode.Step | src/raft/node.rs:108-123 | as `RaftNode.Step`: past terms dropped, future terms entered first |
| RaftRawNode.RawNode.Tick | src/raft/node.rs:126-132 | as `RaftNode.Tick` |
| RaftRawNode.New | src/raft/node.rs:73-87 | refuses an identifier among the peers; a node without peers elects itself |
| RaftLogStore.LogStore.constructor | src/raft/log.rs:120-146 | the fields loaded are those of the one log the engine holds |
| RaftLogStore.LogStore.SetTermAndVote | src/raft/log.rs:172-188 | engine and fields hold the new term and vote, and the rest of the log |
| RaftLogStore.LogStore.Append | src/raft/log.rs:193-203 | the log is extended by one entry of the current term |
| RaftLogStore.LogStore.CommitTo | src/raft/log.rs:207-222 | only the commit index and its term change |
| RaftLogStore.LogStore.Get | src/raft/log.rs:225-227 | the entry of an index, for every index |
| RaftLogStore.LogStore.HasEntry | src/raft/log.rs:230-240 | agrees with the sequence, also on the fast path |
| RaftLogStore.LogStore.Scan | src/raft/log.rs:243-255 | exactly the entries between two indexes, in order |
| RaftLogStore.LogStore.ScanApply | src/raft/log.rs:259-267 | the committed entries after an index, or none |
| RaftLogStore.LogStore.SpliceIn | src/raft/log.rs:278-343 | panics exactly where an assertion fails, and otherwise cuts at the first difference and keeps everything committed |
| RaftLogStore.LogStore.Skip | src/raft/log.rs:306-318 | skips exactly the entries that are already stored |
| RaftLogStore.LogStore.WriteTail | src/raft/log.rs:328-343 | writes the rest and removes the old tail |
| RaftLogStore.HoldsOne | src/raft/log.rs:92-115 | an engine holds at most one log, so cached fields are what reloading would give |
| RaftLogStore.CheckIndexes | src/raft/log.rs:285-288 | pairwise checks decide contiguity |
| RaftLogStore.CheckTerms | src/raft/log.rs:289-292 | pairwise checks decide that terms never decrease |
| RaftLog.SpliceKeepsShape | src/raft/log.rs:278-343 | splicing keeps a log well formed and its committed prefix unchanged |
| Keycode.EncodeBytes | src/encoding/keycode.rs:292-324 | the loop computes the escaped form |
| Keycode.DecodeBytes | src/encoding/keycode.rs:345-418 | the loop computes the decoding, with its error cases |
| Keycode.BytesOrder | src/encoding/keycode.rs:177-195 | escaped strings followed by anything compare as the strings, and by what follows only if those are equal |
| Keycode.BytesRoundTrip | src/encoding/keycode.rs:197-230 | decoding an escaped string followed by anything gives both back |
| Keycode.BytesCanonical | src/encoding/keycode.rs:197-230 | only escaped strings decode |
| Keycode.BigEndianOrder | src/encoding/keycode.rs:923-926 | fixed-width big-endian numbers followed by anything compare as the numbers first |
| MvccKey.KeyOrder | src/storage/mvcc.rs:166-200 | encoded keys compare exactly as variant and fields do, for all user keys |
| MvccKey.EncodeInjective | src/storage/mvcc.rs:166-200 | different keys have different encodings |
| MvccKey.DecodeExact | src/encoding/keycode.rs:436-445 | bytes decode to a key exactly if they are its encoding |
| MvccKey.ComputePrefixEnd | src/encoding/keycode.rs:762-838 | the loop computes the end of a prefix range |
| MvccKey.PrefixRangeExact | src/encoding/keycode.rs:849-860 | a prefix range holds exactly the strings with the prefix |
| MvccKey.ScanRangeExact | src/storage/mvcc.rs:585-597 | the translated bounds select exactly the versions of the user keys in range |
| MvccKey.VersionPrefixTruncates | src/storage/mvcc.rs:600-608 | the truncated prefix is the encoded prefix key without its last two bytes |
| MvccKey.ScanPrefixExact | src/storage/mvcc.rs:600-608 | the truncated prefix selects exactly the versions of the user keys with the prefix |
| MvccKey.RecordPrefixExact | src/storage/mvcc.rs:438-448 | the prefixes of active records and of one transaction's writes select exactly those |
| MvccKey.VersionRangeExact | src/storage/mvcc.rs:565-575 | the range between two versions of a key selects exactly the versions between |
| Mvcc.Store.ScanActive | src/storage/mvcc.rs:438-448 | the scan finds exactly the active transactions |
| Mvcc.Store.Begin | src/storage/mvcc.rs:371-391 | a new version, its snapshot of the active set unless empty, and its active record |
| Mvcc.Store.BeginReadOnly | src/storage/mvcc.rs:397-425 | the current or a past version with the active set of that time; an unused version is an error |
| Mvcc.Store.Resume | src/storage/mvcc.rs:428-435 | a read-write transaction resumes if and only if it is active |
| Mvcc.Store.Write | src/storage/mvcc.rs:528-562 | refused exactly if read-only or the last version in the checked range is invisible; otherwise one version and one record are written |
| Mvcc.Store.FindConflict | src/storage/mvcc.rs:534-553 | looking at the last version of the scan decides the conflict |
| Mvcc.FindVisible | src/storage/mvcc.rs:569-579 | searching from the end finds the last visible version of a list |
| Mvcc.Store.Get | src/storage/mvcc.rs:565-581 | the value of the last visible version |
| Mvcc.Store.Commit | src/storage/mvcc.rs:472-485 | exactly the write records and the active record are removed |
| Mvcc.Store.Rollback | src/storage/mvcc.rs:490-512 | the versions written, their records and the active record are removed |
| Mvcc.Store.WriteRecords | src/storage/mvcc.rs:477-480 | the prefix scan finds exactly the transaction's write records |
| Mvcc.ConflictsExactly | src/storage/mvcc.rs:534-553 | looking at the last key of the scan decides the conflict |
| MvccIsolation.SnapshotIsolation | src/storage/mvcc.rs:565-581 | in every run an open transaction reads its own last write, or else the value committed when it began |
| MvccIsolation.SnapshotFixed | src/storage/mvcc.rs:331-352 | the state a transaction reads is the committed state of the moment it began, whatever follows |
| MvccIsolation.FirstWriterWins | src/storage/mvcc.rs:528-553 | a write is refused exactly if another transaction wrote the key, did not roll back and was not committed when this one began |
| MvccIsolation.ConcurrentWritersDisjoint | src/storage/mvcc.rs:528-553 | transactions that ran at the same time and both committed wrote different keys |
| MvccIsolation.ConflictsAgree | src/storage/mvcc.rs:534-553 | the check of the last version finds a conflict exactly if there is one |
| MvccIsolation.ReadsAgree | src/storage/mvcc.rs:344-352 | visibility gives the reference's value |
| MvccIsolation.StepMatches | src/storage/mvcc.rs:371-562 | every begin, write, commit and rollback keeps the engine and the reference in step |
| MvccIsolation.WrittenUntouched | src/storage/mvcc.rs:528-562 | nobody commits a key that an open transaction has written |
| MvccIsolation.TxnsStay | src/storage/mvcc.rs:472-512 | what is known of a transaction never changes once it has ended, and its snapshot never at all |
| MvccIsolation.TimeTravel | src/storage/mvcc.rs:397-425 | a read-only transaction as of a version reads what that transaction saw when it began, whenever it begins and however that one ended |
| MvccIsolation.TimeTravelToStart | src/storage/mvcc.rs:397-425 | as of version 0, which no transaction has, every key reads as missing |
| MvccIsolation.ReadOnlySnapshot | src/storage/mvcc.rs:397-425 | a read-only transaction reads the state committed when it began, however long it runs |
| MvccScan.ScanIterator.constructor | src/storage/mvcc.rs:651-658 | nothing buffered, the whole range left |
| MvccScan.ScanIterator.FillBuffer | src/storage/mvcc.rs:661-698 | no live pair is lost or repeated, and the buffer is not left empty while there are some |
| MvccScan.ScanIterator.Next | src/storage/mvcc.rs:704-712 | the first of the pairs still to come |
| MvccScan.Drain | src/storage/mvcc.rs:661-712 | calling the iterator yields the pairs of the view, all of them if it ends, for any buffer size and any changes between batches that the transaction does not see |
| MvccScan.ScanDuring | src/storage/mvcc.rs:585-597 | a scan called at any moments of a run, while other transactions begin, write, commit and roll back, returns in strictly ascending order of key exactly the transaction's snapshot overlaid with its writes |
| MvccScan.ReadOnlyScanDuring | src/storage/mvcc.rs:585-597 | the same of a read-only transaction: exactly the state committed when it began, or when the version began that it is as of |
| MvccScan.ScanYields | src/storage/mvcc.rs:585-597 | a scan yields a pair exactly if its key is in range and reading the key gives its value |
| MvccScan.ScanPrefixYields | src/storage/mvcc.rs:600-608 | the same for a prefix |
| MvccScan.ScanSorted | src/storage/mvcc.rs:730-741 | pairs come in strictly ascending order of key |
| MvccScan.ViewStays | src/storage/mvcc.rs:661-698 | others' begins, writes, commits and rollbacks do not change what an open transaction sees |
| MvccScan.ReadOnlyViewStays | src/storage/mvcc.rs:661-698 | nothing changes what a read-only transaction sees |
| BitCask.CutRecovery | src/storage/bitcask.rs:272-334 | a log cut at any byte holds exactly the entries that are complete before it |
| BitCask.CutHistory | src/storage/bitcask.rs:272-334 | any sets and deletes appended to any entries, cut at any byte after those: reopening gives the map after exactly the operations written completely |
| BitCask.CrashAndReopen | src/storage/bitcask.rs:120-157 | the same of an engine in place: operations, a cut file, and the contents of the engine opened on it |
| BitCask.WholeExists | src/storage/bitcask.rs:272-334 | every cut comes after some number of complete entries and before the end of the next |
| BitCask.EntriesOf | src/storage/bitcask.rs:272-334 | reading written entries followed by an incomplete one gives the entries back |
| BitCask.DirectoryExact | src/storage/bitcask.rs:279-331 | the directory locates exactly the live keys and their values |
| BitCask.GarbageSize | src/storage/bitcask.rs:159-166 | a file is at least as long as its live data, and as long exactly if nothing in it is dead |
| BitCask.BitCask.constructor | src/storage/bitcask.rs:272-334 | opening any file keeps exactly its complete entries and gives the map after them |
| BitCask.BitCask.WriteEntry | src/storage/bitcask.rs:347-368 | one entry is appended, and the location returned is that of its value |
| BitCask.BitCask.Put | src/storage/bitcask.rs:153-157 | the map gets the pair, and the file one entry |
| BitCask.BitCask.Delete | src/storage/bitcask.rs:120-124 | the map loses the key, and the file gets one tombstone |
| BitCask.BitCask.Get | src/storage/bitcask.rs:135-140 | the value in the map, for every key |
| BitCask.BitCask.Status | src/storage/bitcask.rs:159-166 | the counts are those of the map and the file |
| BitCask.BitCask.Compact | src/storage/bitcask.rs:172-193 | the map stays and no garbage is left |
| SqlTransaction.Transaction.Insert | src/sql/engine/local.rs:252-268 | if it returns Ok, it wrote what `SqlStatements` says, exactly the rows are added, all were new, and every index agrees with the rows; in every case reads see the snapshot overlaid with the writes |
| SqlTransaction.Transaction.InsertRow | src/sql/engine/local.rs:254-266 | one row: refused if the key exists, and else the row and its index entries are written in order |
| SqlTransaction.Transaction.Update | src/sql/engine/local.rs:296-337 | if it returns Ok, it wrote what `SqlStatements` says, each row is replaced, moved if its key changed, and every index agrees with the rows |
| SqlTransaction.Transaction.UpdateRow | src/sql/engine/local.rs:299-334 | one row: a new key is a deletion and an insertion |
| SqlTransaction.Transaction.ReplaceRow | src/sql/engine/local.rs:307-334 | one row whose key stays: the entries of changed columns are moved before the row is written |
| SqlTransaction.Transaction.Delete | src/sql/engine/local.rs:194-246 | if it returns Ok, it wrote what `SqlStatements` says, exactly the rows are gone and every index agrees with the rows |
| SqlTransaction.Transaction.DeleteRow | src/sql/engine/local.rs:230-244 | one row: it leaves the entries of its values before it is removed |
| SqlTransaction.Transaction.LookupIndex | src/sql/engine/local.rs:270-273 | finds exactly the primary keys of the rows with one of the values |
| SqlTransaction.Transaction.GetIndex | src/sql/engine/local.rs:117-125 | the entry of a value, empty if there is none |
| SqlTransaction.Transaction.SetIndex | src/sql/engine/local.rs:143-158 | stores the entry, or removes it if empty |
| SqlStatements.StatementOk | src/sql/engine/local.rs:194-337 | every statement that can return Ok takes a table whose indexes agree with its rows to one where they do, with exactly the rows the statement says |
| SqlStatements.KeepsExecuted | src/sql/engine/local.rs:194-337 | a statement writes keys of its own table only, and what is read afterwards is the overlay of what was written |
| SqlStatements.ProgramOk | src/sql/engine/local.rs:194-337 | the same for any program of statements on any tables |
| SqlCommit.CommittedIndexes | src/sql/engine/local.rs:186-192 | in every run of concurrent transactions in which each one that commits wrote what a program of statements on its snapshot writes, all returning Ok, the indexes of every committed state and every snapshot agree with the rows |
| SqlCommit.ProgramConsistent | src/sql/engine/local.rs:194-337 | what such a program wrote by any step of a run makes a consistent state out of a consistent snapshot |
| SqlCommit.ReadsAreViews | src/sql/engine/local.rs:117-133 | what a transaction reads from the engine during a run is the view its statements work on: the snapshot overlaid with the writes so far |
| SqlCommit.LoggedWrites | src/storage/mvcc.rs:528-562 | the writes on record of a transaction are its accepted write events, the last one for each key |
| SqlCommit.MergedConsistent | src/sql/engine/local.rs:194-337 | a transaction whose keys nobody else wrote can be laid over a later committed state |
| SqlJoin.JoinsEquivalent | src/sql/execution/join.rs:39-182 | draining both joiners gives the same, rows and failure, if and only if every pair of values agrees |
| SqlJoin.AgreeExactly | src/sql/types/value.rs:92-127 | which pairs of values agree, by their types and values |
| SqlJoin.MixedNumbersDiffer | src/sql/planner/optimizer.rs:316-347 | an integer and an equal float: the joiners differ |
| SqlJoin.NestedIsJoin | src/sql/execution/join.rs:54-92 | the nested-loop joiner fails exactly if some pair cannot be compared, and else yields the join under evaluated equality |
| SqlJoin.HashIsJoin | src/sql/execution/join.rs:129-182 | the hash joiner yields the join under equality of keys |
| SqlJoin.NestedLoopJoiner.TryNext | src/sql/execution/join.rs:54-92 | yields the next item of what remains |
| SqlJoin.HashJoiner.constructor | src/sql/execution/join.rs:129-150 | the table holds, under each defined value, the rows that have it, in order |
| SqlJoin.HashJoiner.TryNext | src/sql/execution/join.rs:153-182 | yields the next item of what remains |
| SqlParser.ParserInvertsPrinter | src/sql/parser/verified_minparen.rs:1738-1750 | parsing what was printed consumes all tokens and gives the expression, for every printable expression |
| SqlParser.PrinterInjective | src/sql/parser/verified_minparen.rs:2216-2228 | different expressions print differently |
| SqlParser.Normalizes | src/sql/parser/verified_minparen.rs:2581-2635 | every input that parses prints to a normal form that parses to the same expression |
| SqlParser.ParsesPrintable | src/sql/parser/verified_minparen.rs:2523-2573 | whatever is parsed can be printed |
| SqlParser.GroupsByPrecedence | src/sql/parser/parser.rs:878-911 | of any two operators in a row the tighter one groups first, and of equally tight ones the left one unless right-associative |
| SqlParser.DocumentedGrouping | src/sql/parser/parser.rs:862-877 | exponentiation groups to the right and above multiplication, that above subtraction, which groups to the left |
| SqlParser.ParsePrinted | src/sql/parser/parser.rs:956-993 | an expression printed for a level and parsed at it ends where it ended, if what follows cannot continue it |
| SqlParser.BodyPrinted | src/sql/parser/parser.rs:979-983 | an operand without parentheses leaves the operators that follow it to the loop |
| SqlParser.ArgumentsPrinted | src/sql/parser/parser.rs:1030-1039 | the argument loop reads back the printed arguments |
| SqlParser.Parser.ParseExpressionAt | src/sql/parser/parser.rs:956-993 | consumes and returns what the grammar function says |
| SqlParser.ParseInput | src/sql/parser/parser.rs:951-953 | an input parses exactly if all of it is one expression |
| SqlParser.Parser.ParseAtom | src/sql/parser/parser.rs:1000-1056 | the same for atoms, with their errors |
| SqlParser.Parser.ParseArguments | src/sql/parser/parser.rs:1030-1039 | the loop reads arguments up to the closing parenthesis |
| SqlParser.Parser.ParsePostfixOperatorAt | src/sql/parser/parser.rs:1101-1133 | an operator of too low a precedence is not consumed; a malformed one is an error |
| SqlParser.Parser.ParsePostfixesAt | src/sql/parser/parser.rs:967-970 | the loop applies every postfix operator of the level |
| SqlParser.Parser.ParseInfixesAt | src/sql/parser/parser.rs:979-983 | the loop applies every infix operator of the level |

## Left out

- Node.step: the checks that a message is for this node and from a known sender are the conditions of a delivery in `RaftCluster`; a candidate that is sent a leader's message by itself, which no run contains, panics here and not in the source.
- The order in which a node sends the messages of one step, and messages to itself: an envelope to itself is an answer to a local client and is not delivered again.
- Widths of terms, indexes and sequence numbers in Raft, which are unbounded here.
- Election timing and liveness, membership changes, and logs that are not flushed (`fsync` off). Random timeouts are parameters.
- The snapshot of a state machine and a crash in the middle of applying one command.
- Raft log status and storage engine errors; entries are stored as values, since their encoding is injective.
- RaftRawNode.RawNode.LeaderStatus: the storage engine's own status is not reported.
- RaftConverge.CatchesUp: a leader whose batch size is set to 0 is excluded, since all its appends are empty (`RaftNode.NextAppendFacts`). That the messages are in fact delivered is up to the network.
- RaftClients.AnsweredOnce: nodes that restart are not covered, since a restart forgets pending requests.
- Mvcc.Store.Begin: excludes the overflow of the 64-bit version counter, where the source panics or wraps around.
- Mvcc.Store.Write: excludes the last 64-bit version, for the same reason.
- Mvcc.Store.FindConflict: excludes it too.
- Unversioned keys and MVCC status. The engine under MVCC is a map from decoded keys, scanned in the order of their encodings; `MvccKey` shows that this is what byte ranges select.
- Float and signed integer keys in Keycode, booleans, options and the serde plumbing.
- BitCask file locks, renaming, `new_maybe_compact` and ordered scans; a crash during compaction; disk errors.
- BitCask.BitCask.WriteEntry: keys and values longer than their 4-byte length fields, which the source truncates silently, are excluded.
- BitCask.BitCask.Put: excludes them too.
- BitCask.BitCask.Delete: excludes keys longer than the length field.
- SqlTransaction.Transaction.ValidateRow: types, nulls, references and uniqueness may reject any row; which rows they reject is not modelled.
- SqlTransaction.Transaction.Delete: whether rows are referenced from other tables may reject any deletion; references are not modelled.
- SqlTransaction.Transaction.Set: any write may fail because of another transaction's; in `SqlCommit` it fails exactly when the engine refuses it.
- SqlCommit.CommittedIndexes: the encoding of rows, index entries and their keys is any injective one that can be read back. A transaction that commits after a statement failed is excluded: what the statement had written stays.
- Changes of a table's columns while it has rows, dropping tables, and foreign keys or uniqueness across concurrent transactions, which snapshot isolation does not promise.
- SqlJoin.NestedLoopJoiner.TryNext: errors of the sources, which are passed on, are not modelled.
- SqlJoin.HashJoiner.constructor: errors of the right source, likewise.
- SqlJoin.HashJoiner.TryNext: errors of the left source, and hash collisions between keys that hash differently by type but compare equal; keys are found by type and value.
- Rounding of large integers to floats in comparisons.
- The lexer, the limit on nesting, and statements other than expressions. Float tokens are opaque.
- SqlParser.ParserInvertsPrinter: the printer is modelled by the sequences its vectors hold (src/sql/parser/verified_minparen.rs:128-176).
