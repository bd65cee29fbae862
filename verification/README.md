# yaraft, modelled and proved in Dafny

yaraft is a C++11 port of etcd/raft: a deterministic Raft state machine that does no I/O of its own. It is
stepped with messages and ticks and hands back messages to send, entries to store and entries to apply. This
project models that state machine and proves what it is for.

## How it is built

1. **The log.** `Logs` is `RaftLog` as one plain sequence. `Stores` and `RaftLogs` are the real thing: a stable
   store with a dummy first entry, the entries not yet in it, and the methods that update them in place. Every
   method is proved to act on the pair as `Logs` acts on the sequence, across compaction, truncation and
   asynchronous storing.
2. **Flow control and reads.** `Progresses` and `ReadQueues` are the progress of a peer and the queue of pending
   reads as values; `Trackers` has the ring buffer, the progress object and the read queue in place, proved against
   them. `Commitment` is the choice of the commit index.
3. **One node.** `Nodes` is `Raft::Step` with all its handlers as a function from a node and a message to the next
   node; a panic sets a flag. `RaftNode` is the same node as an object with fields and loops, and each of its
   methods is proved to do what the function says. `NodeLocal` proves what every step keeps whatever it is given.
   `Laws` says what a step does in terms of what its caller sees: who is elected, what is voted, logged, sent and
   answered, with majorities counted in voters and messages written out. `Promptness` does the same for commitment.
4. **The cluster.** `History` records who led which term with which log, who voted for whom and who acknowledged
   what, and proves that every way it can grow keeps the facts that make Raft safe. `Invariants` and `Steps` relate
   nodes and messages to it and carry the relation through every handler. `Cluster` has the runs: any number of
   fixed voters, a network that loses, repeats and reorders messages, ticks at any time, and nodes that stop and
   come back with their log, term and vote. Its theorems speak about any two nodes at any two times of a run.
   `Frames` and `Reads` add ReadIndex linearizability, `ReadRuns` says what callers and the network must do for it,
   and `ReadFailure` has the runs in which it fails. `Elections` has a run that elects by way of pre-votes.
5. **Around it.** `Readies` is the Ready/Advance cycle and its exactly-once delivery. `Storing` joins it to the runs:
   what is on disk when a node stops, and that starting from it is the restart of the cluster model. `Repair` is how a
   leader brings a follower's log in line: the two nodes step, joined by channels that keep the order of messages and
   lose none, and for every order of deliveries, size limit and window it is proved where the exchange ends.
   `RepairFailure` has the runs in which it ends too early, `Heartbeats` how it is taken up again.

The heart is `History.SafeInv`: an entry of a leader that is missing from the log of a later leader can no longer
reach a majority, because a majority has moved to a later term without acknowledging it. Match soundness, Leader
Completeness and State Machine Safety are one induction over it, since a follower may answer an append message with
its own commit index.

Four promises hold only under a condition, and each comes with an input on which it fails without it:

- Delivery is exactly once on a freshly started node, and on any node whose cursor starts where the application
  stopped applying. A restarted one takes its commit index as cursor, wherever that was. `Readies.RunExact` says when a
  whole run is still right, if and only if; `Readies.RestartSkips` is a node that skips an entry.
- Declaring entries stable keeps the log only given log matching between what was stored and what is there now.
  `Cluster.LogsMatch` provides it in every run, and `Readies.RawNode.StoreAndAdvance` puts the two together;
  `RaftLogs.MatchingNeeded` shows it cannot be dropped.
- A read is linearizable if the context whose answer released it was queued once in the term. It is enough that reads
  are asked for under contexts of their own and that no read request is delivered twice; `ReadFailure.StaleRead` has a
  run without the one and a run without the other in which a read is answered too low.
- One exchange of log repair brings the follower in line if and only if it was so already or the leader's first message
  gets the exchange going, which `Repair.Hopeful` spells out in terms of the two nodes before it is sent.
  `RepairFailure` has two runs of the cluster that end with all that was sent delivered and the follower short of an
  entry: in `ProbeStuck` the leader probes from below what is matched, in `ReplicateStuck` it streams from below what
  the follower has committed. Heartbeats get it going again: `Heartbeats.HeartbeatsRepair` needs no condition.

## Assumptions of the cluster model

- A node of a run comes back with its log, term and vote. `Storing.CrashIsRestart` derives that from what the comments on
  Ready ask of the application (include/yaraft/ready.h): the entries and the hard state of a Ready are stored before
  its messages leave. Then a node may stop at any time, and what it did since its last Ready, which nobody has heard
  of, might as well not have happened.
- The voters are fixed, every node is one of them, ids are not zero and the lists of voters are ascending, which is
  the order in which the source's maps are walked.
- Messages from the network are those some node sent. Local messages are the ones the application and the clock may
  hand in, in any number, at any time, with any content the source accepts.

## Model

| member | source | states |
|---|---|---|
| Cluster.StateMachineSafety | src/raft.cc:434-581 | in every run, what any node has committed at any time agrees with what any node has committed at any other time |
| Cluster.AppliedPrefix | src/raft_log.h:191-201 | of the entries two nodes have applied at two times, one sequence starts the other |
| Cluster.NeverPanics | src/raft_log.h:178-189 | no node of any run reaches a panic: committing or appending out of range, conflicting with a committed entry, bad role changes, unset terms |
| Cluster.LaterLeaderHasAll | src/raft.cc:541-563 | Leader Completeness: what any node has committed by its term is in the log of every leader of a higher term, whenever either is looked at |
| Cluster.LeaderHasCommitted | src/raft.cc:1077-1087 | what a node has committed is in the log of any leader of its own or a later term in the same state |
| Cluster.CompletenessAt | src/raft_log.h:268-286 | committed entries of earlier terms lie in the part of the log a leader had when it was elected |
| Cluster.ElectionSafety | src/raft.cc:608-665 | over a whole run, including pre-vote and transfer campaigns and restarts, a term has at most one leader |
| Cluster.LogMatching | src/raft_log.h:54-109 | two logs with the same term at an index, of any nodes at any times, are equal up to it |
| Cluster.LogsMatch | src/raft_log.h:272-278 | the same as the hypothesis under which entries may be declared stable |
| Cluster.LeaderAppendOnly | src/raft.cc:915-926 | while it leads a term, a node's log only grows |
| Cluster.MatchSoundness | src/raft.cc:303-314 | a peer that has not moved on to a later term agrees with the leader's log up to its recorded match index |
| Cluster.NobodyAhead | src/raft.cc:667-686 | a node that is not in a later term has the leader's log, or lacks the last entry of it |
| Cluster.Pipelining | src/raft.cc:130-204 | in every run every peer's window is strictly increasing, strictly between match and next, and within the configured size |
| Cluster.ReadQueueInOrder | src/read_only.cc:25-78 | in every run queued contexts are distinct and are exactly the pending ones, with non-decreasing indexes within the commit index |
| Cluster.ConfChangesKnown | src/raft.cc:676-684 | in every run a leader's configuration changes are at or below its pending index |
| Cluster.RestartGood | src/raft.cc:21-95 | coming back with log, term and vote, and any older commit index, keeps all invariants |
| Cluster.RebootIsStart | src/raft.cc:78-84 | coming back is starting from what was stored |
| ReadFailure.ThreeVotersCommit | src/raft.cc:627-665 | there is a run of three voters in which one is elected by another, which takes its first entry, and commits it |
| Steps.StepGood | src/raft.cc:434-581 | one message, from the application or the network, extends the history, keeps the node in agreement with it, sends only true messages and does not panic |
| Steps.HandleAppendEntriesGood | src/raft.cc:1049-1066 | a follower may acknowledge what it answers, including its own commit index |
| Steps.HandleHeartbeatGood | src/raft.h:280-283 | applying a heartbeat's commit index never overruns the log and commits only what a leader committed |
| Steps.SendHeartbeatGood | src/raft.cc:717-732 | the commit index of a heartbeat is within what the receiver has acknowledged |
| Steps.MaybeCommitFrame | src/raft.cc:1077-1087 | the commit index moves to the last index that more than half of the voters reach, if and only if that is further on and an entry of the current term |
| Steps.MaybeCommitGood | src/raft.cc:1077-1087 | what a leader commits by counting is on a majority of acknowledged logs |
| Steps.QuorumIndexChosen | src/raft.h:156 | the quorum index is the last index that more than half of the match indexes reach, and a majority has acknowledged it |
| Steps.AppendMsgInv | src/raft.cc:130-204 | every append message is a slice of the log of the leader of its term |
| Steps.GrantGood | src/raft.cc:541-563 | granting a vote keeps one vote per term and only for candidates with an up-to-date log |
| Steps.NoOtherLeader | src/raft.cc:958-969 | a candidate with a majority of votes wins a term nobody else has won |
| Steps.BecomeLeaderGood | src/raft.cc:667-686 | taking office with a majority keeps all invariants |
| Steps.CampaignGood | src/raft.cc:627-665 | campaigning, with or without pre-vote, keeps all invariants |
| Steps.HandleAppRespGood | src/raft.cc:287-336 | answers to append messages never make the leader believe more than was acknowledged |
| Steps.NoteTermGood | src/raft.cc:435-505 | taking note of a message's term keeps all invariants |
| Steps.DueFine | src/raft.cc:112-127 | a message of the run never meets the conditions of a panic |
| History.WinnerHasAll | src/raft_log.h:262-270 | an entry missing from the log of an election winner is dead: a majority moved on without it |
| History.LeaderCompleteness | src/raft.cc:1077-1087 | a leader's counted prefix is in the log of every later leader on record |
| History.ElectInvStep | src/raft.cc:667-686 | an election keeps every fact about the history |
| History.ExtendInv | src/raft.cc:915-926 | a leader's append keeps every fact about the history, even after it has been superseded |
| History.AcknowledgeInv | src/raft.cc:1049-1066 | an acknowledgement keeps every fact about the history |
| History.CountInvStep | src/raft_log.h:280-286 | counting a majority on an entry of the leader's own term keeps every fact about the history |
| History.CastVoteInv | src/raft.cc:541-563 | a vote keeps every fact about the history |
| History.StandInv | src/raft.cc:695-703 | starting a campaign keeps every fact about the history |
| Invariants.CommittedAgree | src/raft_log.h:54-85 | two logs with committed prefixes agree on the shorter |
| NodeLocal.StepLocal | src/raft.cc:434-581 | any step keeps cursors, windows, read queue and the configuration change rule, and panics only on messages outside a stated list of conditions |
| NodeLocal.MaybeSendAppendLocal | src/raft.cc:130-204 | one send moves only the peer's next index and window, stays within bounds and uses up budget |
| NodeLocal.SendLoopLocal | src/raft.cc:321-328 | the send loop ends with the peer paused or nothing left to send |
| NodeLocal.OnePendingConf | src/raft.cc:233-245 | a proposal adds a configuration change only when every earlier one is applied |
| NodeLocal.OnlyConf | src/raft.cc:233-245 | a proposal adds at most one configuration change, whatever its batch |
| NodeLocal.AdvancedPipelined | src/raft.cc:303-314 | acknowledging keeps the window in order |
| Promptness.CommitsPromptly | src/raft.cc:314 | in every run a leader has committed every entry of its own term that more than half of the voters are known to have |
| Promptness.AcceptanceCommits | src/raft.cc:303-314 | of any leader: an acceptance moves the commit index to the last index that more than half of the voters are then known to have, if and only if that is further on and an entry of the leader's term |
| Promptness.MajorityAccepted | src/raft.cc:303-314 | so an acceptance that gives more than half of the voters an entry of the leader's term commits it |
| Promptness.StepPrompt | src/raft.cc:434-581 | no step of any node, elections and proposals included, leaves anything uncommitted that could be committed, given that nobody answers its own append messages |
| Promptness.CountsItself | src/raft.cc:921-925 | in every run a leader counts itself for all of its log |
| Promptness.CommitAnnounced | src/raft.cc:314-320 | a commit index that moves is told to every other voter that is not waiting |
| Promptness.AnswerHeard | src/raft.cc:289-290 | an answer to an append message, accepting or not, counts its sender as heard from, and nobody else |
| Promptness.TransferFinished | src/raft.cc:329-333 | an acceptance makes the leader send one MsgTimeoutNow if it comes from the transferee and completes its log, and none otherwise |
| Laws.HupCampaigns | src/raft.cc:508-531 | asked to campaign, a leader or a node with an unapplied configuration change does nothing; with pre-vote a node keeps its term and asks every other voter for a pre-vote in the next; without, it stands in the next term and asks for votes |
| Laws.LoneVoterLeads | src/raft.cc:641-650 | a lone voter leads the next term at once, with or without pre-vote |
| Laws.TimeoutNowCampaigns | src/raft.cc:1017-1027 | a follower told to take over stands in the next term without pre-vote, and its requests say so |
| Laws.ElectedByMajority | src/raft.cc:958-969 | the vote that first gives a candidate more than half of the voters makes it leader, with the opening entry of its term; until then it goes on counting |
| Laws.RefusedByMajority | src/raft.cc:970-974 | one that more than half refuse gives up and stays in its term |
| Laws.RepeatedVote | src/raft.cc:608-625 | a repeated or revised answer changes nothing |
| Laws.OfficeAnnounced | src/raft.cc:967-968 | a new leader sends its opening entry to every other voter |
| Laws.PreElectedByMajority | src/raft.cc:963-966 | the pre-vote that first gives a pre-candidate more than half of the voters makes it candidate of the next term, voted for itself, with a request to every other voter |
| Laws.VoteDecided | src/raft.cc:532-571 | a vote is granted if and only if the log of the sender is current and the node is free to vote, which a later term makes it; the state and the answer in either case |
| Laws.PreVoteDecided | src/raft.cc:532-571 | a pre-vote is granted if and only if the log is current and the request is for a later term or the node is free to vote; nothing but the answer changes, and a refusal in term 0 is a panic |
| Laws.LeaseProtects | src/raft.cc:439-449 | a node that has heard from a leader within its timeout does not hear of other candidates, unless the leader hands over |
| Laws.EarlierTerm | src/raft.cc:468-505 | what a message of an earlier term is answered with, and that it changes nothing else |
| Laws.LaterTerm | src/raft.cc:459-467 | an answer of a later term makes a follower of that term, without leader or vote |
| Laws.ProposalForwarded | src/raft.cc:983-993 | a follower sends a proposal on as it is, unless it has no leader or may not |
| Laws.ReadForwarded | src/raft.cc:1028-1035 | and a read request |
| Laws.TransferForwarded | src/raft.cc:1009-1016 | and a request to hand over |
| Laws.HeartbeatTaken | src/raft.h:280-283 | a node follows the sender of a heartbeat, raises its commit index and answers with the context |
| Laws.AppendHeard | src/raft.cc:994-998 | a node that is sent entries by a leader of its term or a later one follows it and waits a whole timeout again |
| Laws.ProposalLogged | src/raft.cc:218-247 | a proposal is dropped while the leader hands over; otherwise the log grows by the batch in order, each entry with the leader's term, its index and the kind and data proposed, except that a configuration change is blanked if and only if one is pending or comes before it in the batch |
| Laws.ProposalSent | src/raft.cc:245-247 | and goes out to every other voter that is not waiting |
| Laws.BehindIsSent | src/raft.cc:338-348 | the answer to a heartbeat frees a probed peer that is behind and sends it what follows its next index |
| Laws.RefusalTaken | src/raft.cc:292-301 | a refusal of what was sent last makes the leader probe from the right place and send what is there; any other only counts as hearing from the peer |
| Laws.LinkLost | src/raft.cc:387-394 | a peer that cannot be reached is probed again from behind what is matched |
| Laws.SnapshotReported | src/raft.cc:370-386 | a peer that was sent a snapshot is probed from behind it, or from behind what is matched if it failed, once it answers |
| Laws.HeartbeatsSent | src/raft.cc:1068-1075 | every other voter is sent a heartbeat with the last context queued and no more of the commit index than it is known to have |
| Laws.ReadTaken | src/raft.cc:248-276 | a read is taken at the commit index: answered at once by a lone voter or under a lease, dropped before the leader has committed in its term, and otherwise queued once, with a request to all others to confirm it |
| Laws.ReadConfirmed | src/raft.cc:350-368 | the answer that first gives a read more than half of the voters answers every read queued through it, each once and in order, the leader's own by a read state and one that was sent on by a message to its asker; until then nothing is answered |
| Laws.NothingConfirmed | src/raft.cc:350-352 | with leases or without a context nothing is |
| Laws.ReadAnswered | src/raft.cc:1036-1042 | a follower that gets an answer with one entry has one more read state, with that index and context |
| Laws.TransferBegun | src/raft.cc:395-427 | a request to hand over sends MsgTimeoutNow if and only if the transferee is known to have the whole log |
| Laws.QuorumChecked | src/raft.cc:212-217 | a leader steps down if and only if it has heard from at most half of the voters, itself included, and otherwise starts to listen anew |
| Elections.PreVoteElects | src/raft.cc:627-665 | a run of three voters with pre-vote in which one is elected, with all terms unchanged until the pre-votes are in |
| ReadFailure.FollowerReads | src/raft.cc:1028-1042 | a run in which a read that a follower sends on comes back to it |
| Reads.ReadIndexLinearizable | src/raft.cc:248-262 | in safe mode, a read state of any node whose releasing context was queued once in the term was accepted earlier by a leader with that index, and up to then no node had ever committed more |
| Reads.ReadAnswersLinearizable | src/raft.cc:354-367 | the same of every answer on its way to the node that asked |
| Reads.UniqueIsClean | src/read_only.cc:25-35 | if no context is queued twice in a term, that condition holds of every read |
| ReadRuns.FreshReadsUnique | src/raft.cc:1028-1035 | if every read is asked for under a context of its own and no read request is delivered twice, no context is queued twice |
| ReadRuns.FreshReadsLinearizable | src/raft.cc:248-262 | then every read state of any node in safe mode is linearizable |
| ReadFailure.StaleRead | src/read_only.cc:48-78 | neither can be dropped: a run with a request delivered twice, and one with a context used twice, in which a read is released at an index below what had been committed before it was asked for |
| Reads.MajorityMovedOn | src/raft.cc:250-253 | if anyone has ever committed more than a leader that committed in its own term, a majority has left that term |
| Reads.Confirmed | src/read_only.cc:37-46 | a read acknowledged by a majority, and every read queued before it, is sound |
| Frames.StepKeeps | src/raft.cc:434-581 | a step never changes the configuration, never takes the commit index back, and keeps a leader's log ending in its own term and a lone leader's log committed |
| Logs.MaybeAppendCorrect | src/raft_log.h:54-73 | when `maybeAppend` accepts, when it panics, what the log then holds on and outside the message's range, and the commit index |
| Logs.MaybeAppendIdempotent | src/raft_log.h:54-73 | delivering the same append again changes nothing |
| Logs.ConflictPoint | src/raft_log.h:98-109 | `findConflict` finds the first entry that is not in the log |
| Stores.LimitEntries | src/util.cc:20-34 | the loop computes the size-limited prefix |
| Stores.LimitSizeExact | src/util.cc:20-34 | that prefix is the longest within the limit, but never empty |
| Stores.MemoryStorage.constructor | include/yaraft/memory_storage.h:37-41 | a new store holds only the dummy entry |
| Stores.MemoryStorage.Entries | src/memory_storage.cc:25-45 | which error or which size-limited entries a read returns |
| Stores.MemoryStorage.Term | src/memory_storage.cc:47-58 | which error or which term |
| Stores.MemoryStorage.Append | src/memory_storage.cc:121-154 | compacted entries are skipped, the rest overwrites from its first index on |
| Stores.MemoryStorage.Compact | src/memory_storage.cc:99-119 | everything up to the index is dropped, its term stays in the dummy |
| Stores.Unstable.StableTo | src/unstable.h:81-97 | exactly when entries are dropped, and which |
| Stores.Unstable.TruncateAndAppend | src/unstable.h:131-152 | the entries and offset in the three cases |
| RaftLogs.RaftLog.constructor | src/raft_log.h:29-44 | a new log is what its store holds, committed and applied at the last compaction |
| RaftLogs.RaftLog.LastIndex | src/raft_log.h:163-176 | the length of the whole log, from whichever store has it |
| RaftLogs.RaftLog.Term | src/raft_log.h:216-239 | the term in the whole log, zero outside it and below the last compaction |
| RaftLogs.RaftLog.Slice | src/raft_log.h:295-331 | the size-limited part of the whole log, across the boundary of the stores |
| RaftLogs.RaftLog.FindConflictIn | src/raft_log.h:98-109 | the conflict in the log, whose terms read zero below the last compaction |
| RaftLogs.RaftLog.Append | src/raft_log.h:75-85 | the whole log is cut and continued |
| RaftLogs.RaftLog.MaybeAppendEntries | src/raft_log.h:54-73 | the log, the commit index and the answer are those of the plain-sequence append on the log as it reads, and what is compacted away stays |
| RaftLogs.MaskedSame | src/raft_log.h:216-222 | for a message that does not start below the last compaction that is the append on the whole log |
| RaftLogs.RaftLog.CommitTo | src/raft_log.h:178-189 | the commit index never goes back |
| RaftLogs.RaftLog.MaybeCommit | src/raft_log.h:280-286 | commits exactly above the commit index and at the given term |
| RaftLogs.RaftLog.AppliedTo | src/raft_log.h:191-201 | moves the applied index within its range |
| RaftLogs.RaftLog.IsUpToDateWith | src/raft_log.h:268-270 | the comparison of last entries, on the whole log |
| RaftLogs.RaftLog.NextEnts | src/raft_log.h:121-132 | the committed entries not yet applied, within the size limit |
| RaftLogs.RaftLog.Persist | src/memory_storage.cc:121-154 | storing unstable entries leaves the whole log as it is |
| RaftLogs.RaftLog.StableTo | src/raft_log.h:203 | given log matching, declaring entries stable leaves the whole log as it is, rewritten in between or not, and is ignored when the entry is no longer unstable |
| RaftLogs.RaftLog.Compact | src/memory_storage.cc:99-119 | compaction leaves the whole log as it is |
| RaftLogs.StableJoined | src/unstable.h:81-97 | why: by log matching the stored entries are those of the log |
| RaftLogs.MatchingNeeded | src/unstable.h:81-97 | without log matching the log can change |
| Readies.FreshInStep | src/raw_node.cc:60-68 | a freshly started node has its cursor where delivery stopped |
| Readies.ExactlyOnce | src/raft.cc:1110-1133 | on any node whose cursor starts where delivery stopped the batches handed out are the committed log in order, no gap and no repeat, under any size limit and whatever happens in between |
| Readies.StretchEvolves | src/raft.cc:434-581 | what may happen in between is any stretch of a run of the cluster in which the node is not restarted |
| Readies.RunExact | src/raw_node.cc:60-68 | wherever the cursor starts, the whole run delivers exactly once if and only if, at the first Ready, there is a hard state to report or one batch is enough |
| Cluster.NodeEvolves | src/raft_log.h:178-189 | until it is restarted, a node's commit index and term only rise and its committed entries stay |
| Readies.CycleInStep | src/raw_node.cc:185-203 | a cycle that starts with the cursor at the applied index ends there too |
| Readies.CycleExact | src/raft.cc:1120-1133 | a cycle applies exactly what it handed out if and only if there was a hard state to report or one batch was enough |
| Readies.RestartSkips | src/raw_node.cc:62-68 | a restarted node can skip a committed entry |
| Readies.RawNode.constructor | src/raw_node.cc:60-68 | the cursor starts empty on an empty store and at the commit index otherwise |
| Readies.RawNode.GetReady | src/raft.cc:1110-1133 | the unstable entries; the next committed entries, and none only if there are none; no hard state only if term, vote and commit index are those reported last or there is nothing yet; otherwise term, vote and the smaller of the commit index and the end of the batch |
| Readies.RawNode.Advance | src/raw_node.cc:185-214 | cursor, applied index and stable entries after a cycle |
| Readies.RawNode.StoreAndAdvance | src/raw_node.cc:185-214 | a Ready made at one time of a run, stored and reported back at any later one, leaves the two stores together reading as the node's log then, whatever was rewritten in between |
| Storing.StoredIsRestart | include/yaraft/ready.h:81-93 | whenever a node of a run stops, what is on disk is the log, term and vote it had when its last Ready was stored, the stored commit index covers all that was handed out, and starting from it is the restart of that node that the cluster model has |
| Storing.CrashIsRestart | include/yaraft/ready.h:104-108 | if messages leave only once their Ready is stored, a node may stop at any time: started again from disk, it and the others are in a state that a run of the cluster reaches with a restart |
| Storing.Undone | include/yaraft/ready.h:104-108 | what a node did and nobody has heard of can be taken out of a run |
| Storing.NothingNew | include/yaraft/ready.h:81-84 | a Ready without a hard state means that term, vote and commit index are those reported last |
| Storing.VoteStays | src/raft.cc:541-564 | in every run a node never changes its vote within a term, not even over restarts |
| Storing.CoherentStores | src/unstable.h:131-152 | the disk below the offset and the unstable entries are what the two-store log keeps |
| Readies.HardReported | src/raft.cc:1121-1133 | what a Ready reports, in the same words for the value of the cycle |
| Readies.ReadyHandsOut | src/raft.cc:1110-1118 | the entries of a Ready, put on top of the store below them, are the log it was made from |
| Repair.RepairExact | src/raft.cc:287-336 | after one append message the exchange of leader and follower ends, for every order of deliveries, size limit and window; the follower then has the leader's log and the leader knows it if and only if that was so before or the stated condition on the two nodes holds; and if not, unless the peer was held back, more is matched or the leader probes further on |
| Repair.Converges | src/raft.cc:321-328 | once under way, every exchange ends with equal logs |
| Repair.TurnProgress | src/progress.cc:34-57 | every delivery keeps the exchange under way and leaves less unmatched, less to go back, or less under way |
| Repair.StreamFollower | src/raft.cc:1049-1066 | while the leader streams, what is under way are consecutive slices from where the follower is in line, and the follower stays in line |
| Repair.StreamLeader | src/raft.cc:302-328 | and so it is after any acknowledgement and everything that the leader then sends |
| Repair.HearsAcceptance | src/raft.cc:302-328 | an acknowledgement of something new is recorded, consecutive slices are sent until the window is full or nothing is left, and exactly when anything is sent |
| Repair.HearsRefusal | src/raft.cc:292-301 | the next index goes back but not to what is matched, and the leader probes there |
| Repair.HearsNothingNew | include/yaraft/progress.h:96-107 | an acknowledgement of nothing new sends nothing and leaves the peer paused |
| Repair.FollowerAnswers | src/raft.cc:1049-1066 | a node in any role that is not in a later term takes the message by its handler and follows the leader |
| Repair.Received | src/raft_log.h:54-73 | a slice of the leader's log is refused exactly when its start does not match, and otherwise brings the follower in line as far as it reaches |
| Repair.RepairApplies | src/raft.cc:287-336 | in every run a leader and any other node not in a later term are in the situation that `RepairExact` asks for, unless the leader is handing over to it |
| Heartbeats.HeartbeatsRepair | src/raft.cc:338-352 | from any leader and follower, finitely many rounds of a heartbeat, its answer and the exchange it sets off bring the follower in line, for every order of deliveries |
| Heartbeats.OneRound | src/raft.cc:338-352 | every round ends, with the follower in line, more matched, or the leader probing further on |
| Heartbeats.RevivedTurn | src/raft.cc:338-352 | the answer to a heartbeat always frees the peer, and the step that takes it sends the message that starts the exchange |
| RepairFailure.ProbeStuck | src/progress.cc:47-55 | a run of three voters in which an old refusal makes the leader probe from below what is matched, and which ends with all that was sent between the two delivered, the peer paused and the follower without the last entry |
| RepairFailure.ReplicateStuck | src/raft.cc:302-328 | a run in which a late acknowledgement makes the leader stream from below what the follower has committed, and which ends with all that was sent between the two delivered and the follower without the last entry |
| Commitment.QuorumIndexExact | src/raft.cc:1077-1087 | the chosen index is exactly the largest one a quorum has reached |
| Commitment.SortCorrect | src/raft.cc:1084 | the sort is descending and keeps how many reach each index |
| Progresses.FreeToPrefix | src/inflights.h:51-79 | freeing removes the longest run of leading messages at or below the index, whatever the window holds |
| Progresses.FreeToExact | src/inflights.h:51-79 | from an increasing window it removes exactly the messages at or below the index |
| ReadQueues.AdvanceReleases | src/read_only.cc:48-78 | the released requests are the queue through the context, in order, with non-decreasing indexes |
| ReadQueues.AdvanceValid | src/read_only.cc:48-78 | queue and map agree afterwards |
| ReadQueues.AddRequestValid | src/read_only.cc:25-35 | queue and map agree after a new request |
| ReadQueues.RecvAckValid | src/read_only.cc:37-46 | they agree after an acknowledgement, which counts only for a queued context |
| Trackers.Inflights.constructor | src/inflights.h:28-30 | a new ring is empty |
| Trackers.Inflights.Add | src/inflights.h:33-49 | one message is queued; the slot is in the buffer or at its end |
| Trackers.FirstLarger | src/inflights.h:57-69 | the loop counts the acknowledged messages and ends at the slot of the next |
| Trackers.Inflights.FreeUpTo | src/inflights.h:51-79 | the leading acknowledged messages leave the queue |
| Trackers.Inflights.FreeFirst | src/inflights.h:81-83 | what the oldest message acknowledges leaves the queue |
| Trackers.Inflights.Reset | src/inflights.h:90-93 | the queue is empty |
| Trackers.Tracker.ToProbe | include/yaraft/progress.h:70-82 | probing starts after the match or the pending snapshot, with an empty window |
| Trackers.Tracker.ToReplicate | include/yaraft/progress.h:84-87 | replication starts after the match, with an empty window |
| Trackers.Tracker.ToSnapshot | include/yaraft/progress.h:89-92 | a snapshot is pending, with an empty window |
| Trackers.Tracker.Update | include/yaraft/progress.h:96-107 | match and next after an acknowledgement |
| Trackers.Tracker.DecreaseTo | src/progress.cc:34-57 | stale rejections are ignored, the next index moves back but not below one |
| Trackers.Tracker.SentUpTo | src/raft.cc:184-190 | entries on their way move the next index and enter the window |
| Trackers.Tracker.Paused | src/progress.cc:66-78 | when sending waits |
| Trackers.ReadOnlyQueue.Add | src/read_only.cc:25-35 | a new context is queued once |
| Trackers.ReadOnlyQueue.Ack | src/read_only.cc:37-46 | acknowledgements are counted with the leader's own |
| Trackers.ReadOnlyQueue.AdvanceTo | src/read_only.cc:48-78 | the queue through the context is released; otherwise nothing, though statuses have been moved out |
| RaftNode.Raft.constructor | src/raft.cc:53-84 | a node that starts from a stored log, hard state and applied index, or for the first time |
| RaftNode.Raft.LoadState | src/raft.h:320-327 | term, vote and commit index are those stored, and exactly when that is a panic |
| RaftNode.Raft.Send | src/raft.cc:97-128 | the stamped message is queued, or the term check panics |
| RaftNode.Raft.MaybeSendAppend | src/raft.cc:130-204 | the object does what the transition function says |
| RaftNode.Raft.SendAll | src/raft.cc:321-323 | the loop ends and does what the transition function says |
| RaftNode.Raft.MaybeCommit | src/raft.cc:1077-1087 | collecting, sorting and committing as the transition function says |
| RaftNode.Raft.AppendEntry | src/raft.cc:915-926 | stamping, appending and committing as the transition function says |
| RaftNode.Raft.Reset | src/raft.cc:888-913 | the reset state |
| RaftNode.Raft.BecomeLeader | src/raft.cc:667-686 | the state of a new leader |
| RaftNode.Raft.Poll | src/raft.cc:608-625 | first votes count, and how many were granted |
| RaftNode.CountGranted | src/raft.cc:618-623 | the loop counts exactly the granted votes |
| RaftNode.Raft.Campaign | src/raft.cc:627-665 | campaigns, including the lone voter's |
| RaftNode.FilterProposal | src/raft.cc:233-245 | the loop lets configuration changes through one at a time |
| RaftNode.Raft.Propose | src/raft.cc:218-247 | a proposal, and exactly when it is dropped |
| RaftNode.Raft.ReadIndex | src/raft.cc:248-275 | read requests in both modes and for a lone voter |
| RaftNode.Raft.HandleAcceptance | src/raft.cc:302-334 | an acknowledgement and everything it sets off |
| RaftNode.Raft.HandleHeartbeatResp | src/raft.cc:338-369 | a heartbeat answer and the reads it releases |
| RaftNode.CountActive | src/raft.cc:744-759 | the loop counts the active peers and starts the next round |
| RaftNode.Raft.StepLeader | src/raft.cc:206-432 | the leader's step |
| RaftNode.Raft.StepCandidate | src/raft.cc:928-979 | the candidate's step |
| RaftNode.Raft.StepFollower | src/raft.cc:981-1047 | the follower's step, and exactly when it drops a proposal |
| RaftNode.Raft.HandleAppendEntries | src/raft.cc:1049-1066 | the log, the commit index and the answer |
| RaftNode.Raft.NoteTerm | src/raft.cc:435-505 | the term rules, and whether the step goes on |
| RaftNode.Raft.Step | src/raft.cc:434-581 | the object keeps its invariant, ends in the state the transition function gives and drops proposals exactly when it says so |
| RaftNode.NumOfPendingConf | src/raft.h:401-409 | the loop counts configuration changes |

## Left out

- Snapshots in nodes and runs: MsgSnap, restoring and sending snapshots, the pending snapshot of the unstable entries. Without compaction of a node's own log in a run they do not arise; the two-store log has compaction but no pending snapshot.
- Membership changes and learners: the voters are fixed; configuration changes are entries that are only counted.
- Lease-based reads and clock timing: lease reads are in the node's transition, but no linearizability is claimed for them; election and heartbeat ticks are modelled as messages that may come at any time and an elapsed count that may take any value.
- The rest of Ready: soft state, messages, read states, snapshots and mustSync; the application stores every Ready whole, and at the time it is made.
- Bootstrap entries of RawNode::New in cluster runs: nodes of a run start with an empty log; exactly-once delivery covers them.
- RawNode::Step, its filter on senders, and the rest of RawNode: runs drive Raft::Step directly.
- GoSlice and span aliasing, shared_ptr sharing of Progress, move semantics except in the read queue, mutexes: entries and progress are values where they are not objects of their own.
- 64-bit wrap-around of indexes, terms and sizes; the byte size of an entry is taken as ten plus the length of its data.
- Marshalling, logging, error strings, status reports, configuration validation.
- RaftNode.Raft.Step: has no snapshots, and keeps the log, the progress of peers and the read queue as values; RaftLogs and Trackers have them as objects of their own, and the two layers are joined through the plain-sequence functions, not in one object.
- Trackers.Inflights.Add: takes the capacity of the vector to be exactly the reserved size, which the C++ standard only gives as a lower bound.
- Trackers.Inflights.FreeFirst: asks for a message in the ring, as its only caller ensures; on an empty ring the source reads outside the buffer.
- RaftLogs.RaftLog.MaybeAppendEntries: asks that the append not run into the panic on committed entries, and that the message be numbered and carry real terms.
- Repair.RepairApplies: speaks of a leader and a follower with nothing under way between them; messages of a run that come later than the exchange are not part of it.
- Repair.RepairExact: answers of other peers, proposals and heartbeats do not come in between.
- Heartbeats.HeartbeatsRepair: each round runs until nothing is under way before the next heartbeat; answers of other peers and proposals do not come in between, and answers to reads travel apart.
- Readies.RawNode.GetReady: has no soft state, messages, read states or snapshot, which the source copies out unchanged.
- Readies.RawNode.Advance: has no soft state, read states or snapshot.
- RaftNode.Raft.constructor: has no learners and takes the voters from the configuration.
- RaftNode.Raft.MaybeSendAppend: has no snapshot to send, since a node's own log is never compacted.
- RaftNode.Raft.StepCandidate: a snapshot message is a panic.
- RaftNode.Raft.StepFollower: a snapshot message is a panic.
- ReadFailure.StaleRead: shows that the two conditions are needed, not that every repeated context does harm.
