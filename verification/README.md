# A verified model of the Raft key-value store

The project models the three parts of the store that its guarantees rest on and proves those guarantees:

- the Raft node (`Raft/Raft.cc`), with pre-vote, log compaction, snapshot install, ReadIndex and restart, and
  clusters of such nodes over an unreliable network;
- the skip list (`include/SkipLists.h`) as a finite map, for every choice of tower heights;
- the replicated state machine and the answering of clients (`Server/KVServer.cc`, `include/KVServer.h`).

Names of properties follow the extended Raft paper (Ongaro and Ousterhout, 2014): Figure 3 and section 5 for the
safety properties, section 7 for compaction; and sections 6.4 and 9.6 of Ongaro's dissertation for ReadIndex and
PreVote.

## How it is built

One event thread runs each handler of a node to completion, so a handler is one atomic step.

- `Types`, `Node`: messages, and a node as a value with every handler as a function on it. A handler's sends, apply
  messages and read answers are the node's `out`.
- `RaftNode`: the class whose methods update the fields in place, with the source's loops; every method is proved to
  do exactly what its function in `Node` says.
- `Cluster`: nodes, and a trace of everything let out. The position of a request in the trace names it. Requests may
  be lost, delayed, reordered and delivered more than once; an answer belongs to one request and at most one answer,
  or one failure, is consumed per request. Elections, heartbeats, lost quorums, client calls, reads, compaction and
  restarts from disk may happen at any time. A run is any sequence of states linked by such steps. A handler that
  trips an index assertion is allowed to do anything, so nothing is assumed about it: `Safety.IndexSafety` shows
  that none does.
- `History`, `Steps`: the protocol on ghost histories: full logs with the compacted part put back, every vote, and
  for each term its leader, quorum, starting log and log since. `Relation`, `Handlers`: what a node's fields and
  messages mean in those histories, and that every handler is a sequence of protocol steps. `Outputs`, `Reachable`,
  `Runs`: every state of every run is explained by histories that only grow.
- `RaftRules`, `LeaderRules`: what each handler must do, said in terms of the fields and messages alone, as Figure 2
  does; this is what the functions of `Node` are held to. `Effects`, `Deliveries`: what must come out of a run:
  commands pushed, reads answered, snapshots saved and sent.
- `Safety`: the theorems about all runs. `Compaction`, `Backtracking`, `ReadAssertion`, `SnapshotCredit`: properties
  of one or two nodes. `ReadAssertion`, `SnapshotCredit` and `StuckReplication` also hold runs that show what can go
  wrong.
- `SkipLists`, `SkipListLevels`: pointer structure. The ghost sequence `nodes` is level 0 with the header in front,
  and `contents` the map; `Valid` says that keys are strictly sorted, that pointer i of every tower leads to the
  next tower that reaches level i, that no tower is higher than the header, that `curLevel` is the greatest height
  in use, and that `elementCount` is the size of the map.
- `StateMachine`, `Pending`, `KvServer`, `Service`: commands with deduplication over the skip list, waiting RPCs as
  interleaved steps, the server's objects, and what Raft's guarantees make of them.

In the table, "likewise" means: the method leaves the object in exactly the state that the function of `Node` of the
same purpose gives for the old state.

## Where a natural claim fails

Each but the last comes with an input and with the exact condition under which the code does meet it; the last holds
after all, for a reason in a distant handler.

- "A read never trips the index assertion." `buildReadHeartBeat` (`Raft/Raft.cc:1134-1139`) has no snapshot branch.
  Condition: `ReadAssertion.ReadSafeIff`; a run of three nodes that reaches a state where it is not met:
  `ReadAssertion.ReadCanTrip`. A failed assertion ends the process, so in a run such a read leaves the node to start
  again from its disk.
- "Stepping nextIndex back ends." If the follower's snapshot point is not below what the leader tries, the
  follower's suggestion is larger than nextIndex and is refused (`Raft/Raft.cc:1052-1053`). The leader then goes
  down to 1, and if it has no snapshot it is rejected there forever. Condition: `Backtracking.EndsIff`. If it has
  one but the follower is ahead of it, snapshots and rejections alternate forever. Condition for a match:
  `Backtracking.JoinsIff`, and for the states of runs `Safety.ReplicationJoinsIff`. A stuck pair:
  `Backtracking.StuckForever`; a run that leads to one: `StuckReplication.CanGetStuck`.
- "matchIndex is what the peer holds." The answer to a snapshot credits the snapshot point of now, not the one sent
  (`Raft/Raft.cc:1111`). Conditions: `SnapshotCredit.CreditExactIff` and `SnapshotCredit.CreditStoredIff`; a run in
  which matchIndex lies beyond the peer's log: `SnapshotCredit.OverCredits`. Above the commit index matchIndex is
  right (`Safety.MatchIsStored`), and the commit rule is not affected (`Safety.CommitIsStored`).
- "A retry gets its own reply." A request id older than the client's latest is answered with the latest reply
  (`Server/KVServer.cc:30-31`). Condition: `StateMachine.OwnReplyIff`; input: `StateMachine.LateRetryMisled`.
- "currentTermCommitted_ is cleared on leaving office." Three handlers set only `status_`. The flag is never set
  there, which needs Election Safety (`Handlers.NotLeaderOf`), so the claim holds in every run
  (`Safety.LeadershipFlags`).

## Assumptions

- An answer is matched to the request it answers; the per-peer responder slot does not itself see to that.
- What is persisted in one call is written atomically and survives a restart.
- Node ids differ from -1, the value of votedFor_ for no vote.
- The requestId of a no-op is not initialised in the source, so it is a parameter (`junk`) of the steps that make
  one.
- Read round numbers come from one counter per process; a node's next number is only required to exceed its last.

## Model

| member | source | states |
|---|---|---|
| Safety.StateMachineSafety | Raft/Raft.cc:1229-1242 | in every run, two apply messages for one index, on any nodes at any times, restarts and snapshots included, have the same term and, if both are commands, the same command |
| Safety.CommittedSurvives | Raft/Raft.cc:1207-1228 | whatever any node has committed, at any index and any time, is in the log or compacted away on every node while it leads a later term, and on the leader of the same term from then on |
| Safety.AnnouncedSurvives | Raft/Raft.cc:1216-1219 | the entry at which a leader moved its commit index, too, survives that leader |
| Safety.CommittedAgree | Raft/Raft.cc:547-551 | the committed parts of two nodes, at any two times, hold the same entries wherever neither is compacted |
| Safety.ReadIndexFresh | Raft/Raft.cc:333-373 | a read answered with success was opened earlier by the same node, and its index is at least that of every entry any leader had committed before it was opened |
| Safety.LogMatching | Raft/Raft.cc:502-546 | two logs, of any nodes at any two times, with the same term at an index at or above both snapshot points hold the same entries from the higher snapshot point up to it |
| Safety.ElectionSafety | Raft/Raft.cc:759-819 | at most one node ever leads in a term, over all states of a run and across restarts |
| Safety.VotesAreDistinct | Raft/Raft.cc:799-819 | votesGranted is the number of distinct nodes that voted for the candidate in its term, each with the vote on disk or past the term |
| Safety.PreVoteForetellsVote | Raft/Raft.cc:438-459 | without a recent leader a pre-vote for a later term is granted exactly if the vote itself would be; it never is while a leader was heard |
| Safety.LeadershipFlags | Raft/Raft.cc:1216-1222 | the current-term flag is set exactly while a leader's commit point is of its own term; an open read belongs to the leader of its term |
| Safety.IndexSafety | Raft/Raft.cc:1331-1347 | whatever may happen next, except a read as ReadAssertion.ReadSafeIff tells, its handler meets both index assertions; log indexes are contiguous and snapshot point <= applied = committed <= last |
| Safety.Durability | Raft/Raft.cc:1365-1400 | after every handler the persisted record is the node's term, vote, snapshot point and log, and a restart restores exactly those |
| Safety.SentCommitCovered | Raft/Raft.cc:1117-1132 | every append request ever sent has a leader commit index within its previous index plus its entries |
| Safety.FollowerCommitMatched | Raft/Raft.cc:547-551 | so a follower that takes one commits up to the leader's index and not into an unmatched suffix |
| Safety.MatchIsStored | Raft/Raft.cc:1037-1044 | matchIndex above the commit index means that the peer, at some time and in the leader's term, had the leader's log up to there, and has it now if it is still in that term |
| Safety.UpdateCommitGreatest | Raft/Raft.cc:1207-1228 | the new commit index is the greatest of the leader's term that enough distinct peers are credited with, or unchanged if there is none |
| Safety.CommitIsStored | Raft/Raft.cc:1207-1228 | every entry a leader announces as committed was stored by a quorum of nodes, each at some time and in the leader's term |
| Safety.FullLog | Raft/Raft.cc:1264-1282 | every node of every run keeps the tail of a full log; that log has what any node at any time holds as committed, as far as both have committed, and compaction keeps to it |
| Safety.SnapshotPointAgrees | Raft/Raft.cc:502-504 | a follower's snapshot point agrees with the log of every leader that is not behind its term, and its commit point lies within that log |
| Safety.ReplicationJoinsIff | Raft/Raft.cc:894-921 | so in every run, replication to a peer that changes only by this exchange comes to a match exactly under the condition Backtracking.CanJoin |
| Safety.StartedIsApplied | Raft/Raft.cc:307-326 | a command pushed for the index and term that start returned is the command start was given |
| Safety.StartedOnce | Raft/Raft.cc:307-326 | no two calls of start return the same index and term |
| Safety.ReplicaQueuesAgree | Raft/Raft.cc:1229-1242 | apply queues without snapshot messages, of any nodes at any times, count upwards and agree wherever both have an index; of two that start at index 1 one extends the other |
| Service.ReplicasAgree | Server/KVServer.cc:269-296 | replicas whose apply queues have no snapshot message and start at index 1 (not restarted from a compacted disk) have equal contents and deduplication tables after k commands |
| Service.AnsweredWriteCommitted | Server/KVServer.cc:313-338 | the command applied for an answer is the caller's own, the answer is its result in the state machine as it was then, restored snapshots included, and no node applies another command at that index |
| Service.OwnPlace | Server/KVServer.cc:234-246 | two calls, at the desks of any nodes, are never given the same index and term by start |
| Service.OneWaiter | Server/KVServer.cc:356-372 | so of all calls registered in the tables of all nodes at most one waits for a given index and term |
| History.QuorumsMeet | Raft/Raft.cc:275-278 | two quorums of one cluster share a node |
| History.SameTermSamePrefix | Raft/Raft.cc:502-504 | Log Matching on full logs |
| History.LeaderCompleteness | Raft/Raft.cc:1207-1228 | whatever the commit rule certified in a term is in the log that every later leader started with |
| History.SettledAgree | Raft/Raft.cc:1207-1228 | of two committed prefixes one extends the other |
| Steps.VoteCarries | Raft/Raft.cc:1296-1302 | a candidate that passes the vote test has every entry the voter acknowledged, unless a leader in between lacked it |
| Steps.OneWinner | Raft/Raft.cc:406-415 | two elections of one term would share a voter, so they have one winner |
| Steps.AcceptKeepsCommitted | Raft/Raft.cc:524-544 | taking over a leader's entries drops none that is committed |
| Steps.CastVoteAdvances | Raft/Raft.cc:406-415 | granting a vote keeps the protocol invariant |
| Steps.StandAdvances | Raft/Raft.cc:763-768 | standing for election keeps it |
| Steps.ElectAdvances | Raft/Raft.cc:859-869 | winning an election keeps it |
| Steps.LeaderAppendAdvances | Raft/Raft.cc:316-321 | a leader's own append keeps it |
| Steps.AcceptAdvances | Raft/Raft.cc:523-546 | a follower's append or truncation keeps it |
| Steps.DeclareAdvances | Raft/Raft.cc:1216-1219 | a leader's commit keeps it |
| Steps.OpenAdvances | Raft/Raft.cc:361-368 | opening a read round keeps it |
| Handlers.BecomeFollowerGood | Raft/Raft.cc:825-841 | entering a later term as follower is a protocol step; open reads fail |
| Handlers.StepDownGood | Raft/Raft.cc:843-857 | stepping down keeps what is known of the node |
| Handlers.TakeVoteGood | Raft/Raft.cc:390-422 | the vote handler is protocol steps, and a granted reply means the vote is cast |
| Handlers.NotLeaderOf | Raft/Raft.cc:497-498 | a node that gets a request of its own term from that term's leader is not leader itself, so changing only status_ leaves no stale flag or read |
| Handlers.BuildAppendSound | Raft/Raft.cc:1117-1132 | append requests carry a stretch of the leader's log with a covered commit index |
| Handlers.CountCertifies | Raft/Raft.cc:1207-1218 | the count over matchIndex certifies the entry, although a snapshot reply may have over-credited at or below the commit point |
| Handlers.UpdateCommitGood | Raft/Raft.cc:1207-1227 | committing and applying push only committed entries |
| Handlers.BecomeLeaderGood | Raft/Raft.cc:859-876 | a candidate with a counted quorum becomes the one leader of its term and appends |
| Handlers.BeginElectionGood | Raft/Raft.cc:759-797 | an election is protocol steps and asks with the log as it is |
| Handlers.BeginPreVoteGood | Raft/Raft.cc:696-734 | a pre-vote changes nothing the protocol relies on |
| Handlers.OnPreVoteReplyGood | Raft/Raft.cc:736-757 | so do its answers, up to the election they lead to |
| Handlers.OnVoteReplyGood | Raft/Raft.cc:799-819 | a granted answer adds at most the one voter that was asked |
| Handlers.MergeAdopts | Raft/Raft.cc:524-544 | the loop over incoming entries, on the compacted log, adopts the leader's log up to the last entry sent and keeps the rest only if nothing conflicts |
| Handlers.TakeAppendGood | Raft/Raft.cc:482-557 | the append handler is protocol steps, and success means the entries are stored in this term |
| Handlers.TakeReadHeartBeatGood | Raft/Raft.cc:565-590 | success means the node had joined no later quorum that committed before the round |
| Handlers.SuffixIsPrefix | Raft/Raft.cc:648-652 | keeping the suffix means holding all the leader had up to the snapshot, and only then |
| Handlers.TakeSnapshotGood | Raft/Raft.cc:629-676 | installing a snapshot is protocol steps and loses nothing committed |
| Handlers.DoSnapshotGood | Raft/Raft.cc:1264-1282 | compaction leaves the full log and all it means as they are |
| Handlers.BootGood | Raft/Raft.cc:70-75 | a restart loses the commit point down to the snapshot point and nothing the protocol relies on |
| Handlers.CreditGood | Raft/Raft.cc:1039-1042 | crediting what a peer stored, or what is committed anyway, keeps the accounting |
| Handlers.QuorumConfirms | Raft/Raft.cc:1032-1035 | a quorum of acknowledgements confirms the round against every later leader |
| Handlers.OnAppendReplyGood | Raft/Raft.cc:997-1072 | the append answer handler keeps all of it |
| Handlers.OnSnapshotReplyGood | Raft/Raft.cc:1091-1115 | so does the snapshot answer handler |
| Handlers.StartGood | Raft/Raft.cc:311-326 | start appends to the leader's log of its term |
| Handlers.CoversEarlier | Raft/Raft.cc:347-364 | with a current-term entry committed, a leader's commit index covers every commit of its and earlier terms |
| Handlers.ReadIndexGood | Raft/Raft.cc:338-372 | a read opens a round named by a fresh number, or changes nothing in the histories |
| Outputs.BeginElectionElects | Raft/Raft.cc:759-797 | every election has a later term, one counted vote, and a vote request to every peer and to none twice |
| Runs.StepExplained | Raft/Raft.cc:149-245 | every possible step meets the index assertions and leads from an explained state to an explained state whose histories extend the earlier ones |
| Runs.RunExplained | Raft/Raft.cc:149-245 | so every state of every run is explained, by growing histories |
| Deliveries.StepPushes | Raft/Raft.cc:1229-1242 | whenever a step other than a restart moves a node from commit index a to c, what it pushes is exactly the commands a + 1 to c, in order and once each; a snapshot install pushes the one snapshot |
| Deliveries.QueueIsWhole | Raft/Raft.cc:547-551 | in every run, an apply queue without snapshot messages has exactly the commands from the point where the node last started up to its commit index |
| Deliveries.ReadsAnswered | Raft/Raft.cc:1021-1036 | when an answer for the open round makes a majority together with the earlier ones, and only then, every callback is answered with success, in order; any other answer for it is recorded; reads are refused, join or open a round as the flags say; rounds fail only for a later term or a lost quorum |
| Deliveries.AnswerMeans | Raft/Raft.cc:1168-1200 | a read answered with success had its majority in this very step; one answered with failure was refused, or a later term has come, or the leader lost its quorum |
| Deliveries.CallbacksConserved | Raft/Raft.cc:333-373 | in every run, the callbacks a node was given since it last started are those it has answered and those of its open round, counted with multiplicity |
| Deliveries.SnapshotOnDisk | Raft/Raft.cc:1264-1282 | a compaction above the snapshot point and up to the commit index puts its own data on disk, an install the data received, and nothing else touches the snapshot on disk |
| Deliveries.SnapshotsAreMade | Raft/Raft.cc:906-914 | in every run, the snapshot on every disk, in every InstallSnapshot request and in every snapshot message is the data that an earlier compaction that took effect was given for the same index |
| Effects.CommitAtFeeds | Raft/Raft.cc:1229-1242 | moving the commit index pushes the commands between the old and the new one and nothing else |
| Effects.OnAppendReplyConfirms | Raft/Raft.cc:1021-1036 | the answer handler closes the awaited round with success if this peer completes a majority of distinct nodes, and otherwise records it |
| Effects.ReadIndexAsks | Raft/Raft.cc:338-372 | readIndex answers -1 or -2 at once, joins the open round, or opens one at the commit index with the node itself as first acknowledgement |
| Effects.StepDownCloses | Raft/Raft.cc:843-857 | losing the quorum answers every callback of the open round with failure |
| Effects.DoSnapshotCompacts | Raft/Raft.cc:1264-1282 | compaction takes effect exactly for an index above the snapshot point and up to the commit index, and then its data is on disk |
| Effects.TakeSnapshotInstalls | Raft/Raft.cc:629-676 | a snapshot of a term not past and beyond the own snapshot point is saved with its data and pushed; any other is not |
| RaftRules.TermRule | Raft/Raft.cc:825-841 | a later term makes a follower that has not voted; no other term changes anything |
| RaftRules.VoteRule | Raft/Raft.cc:390-422 | a vote is granted exactly if the term is not past, no other candidate has the vote of that term, and the candidate's log is at least as up to date; the new vote, term and status and the answer's term are those of Figure 2 |
| RaftRules.PreVoteRule | Raft/Raft.cc:438-459 | a pre-vote is granted exactly if the term is not past, no leader was heard lately, and the log is at least as up to date |
| RaftRules.MergeRule | Raft/Raft.cc:524-544 | the log stays as it is if it has all the entries, and otherwise is cut exactly at the first entry it lacks and continued with the sender's |
| RaftRules.AppendRule | Raft/Raft.cc:482-557 | entries are refused exactly if the term is past or the previous entry is not there; otherwise conflicts and only conflicts are replaced, and the commit index becomes min(leaderCommit, last index) if that was beyond |
| RaftRules.HintRule | Raft/Raft.cc:507-517 | the hint of a refusal is the start of the run of the term at the previous index or the end of the log, above the snapshot point |
| RaftRules.HeartBeatRule | Raft/Raft.cc:565-590 | a read heartbeat is acknowledged, with its round, exactly if its term is not past |
| RaftRules.InstallRule | Raft/Raft.cc:629-676 | a snapshot is taken exactly if its term is not past and it goes beyond the own one; the log above it stays exactly if the log has its last entry |
| RaftRules.CompactRule | Raft/Raft.cc:1264-1282 | compaction drops the log up to the index and nothing above, and the snapshot point gets the term of its entry |
| RaftRules.RestartRule | Raft/Raft.cc:70-75 | a restarted node has exactly what was persisted, follows, and has committed up to its snapshot point |
| LeaderRules.SendRule | Raft/Raft.cc:894-921 | an idle peer is sent the snapshot if its next entry is compacted away and otherwise all entries from that one on; for a busy one it is remembered |
| LeaderRules.SendAllRule | Raft/Raft.cc:878-884 | so every peer that was idle is sent what it lacks, and every other will be |
| LeaderRules.ElectionRule | Raft/Raft.cc:759-797 | a candidate enters the next term, votes for itself and asks every peer, in order, with the end of its log; alone, it leads at once |
| LeaderRules.PreElectionRule | Raft/Raft.cc:696-734 | a pre-vote asks every peer about the next term and changes neither term nor vote |
| LeaderRules.PreVoteCountRule | Raft/Raft.cc:736-757 | the granted answer that makes more than half of the cluster starts the election, fewer are counted, and stale or refused ones ignored |
| LeaderRules.VoteCountRule | Raft/Raft.cc:799-819 | likewise for votes and taking office |
| LeaderRules.OfficeRule | Raft/Raft.cc:859-876 | a new leader knows nothing of its peers but where to try, appends an entry of its term and sends it to all |
| LeaderRules.CommitGreatestRule | Raft/Raft.cc:1207-1227 | the commit index moves to the greatest index of the own term that a majority, as a set of nodes, is credited with, and stays if there is none |
| LeaderRules.MatchRule | Raft/Raft.cc:1037-1044 | a success credits the peer with all it was sent and no other, leaves nothing uncommitted that may be committed, and what the peer lacks is sent at once |
| LeaderRules.RefusalRule | Raft/Raft.cc:1046-1067 | a refusal credits nobody; the next index is the hint if that is a step back and one less otherwise, at least 1, and what the peer then lacks is sent at once |
| LeaderRules.LostRule | Raft/Raft.cc:1001-1009 | a lost answer frees the peer for the next request and changes nothing else |
| LeaderRules.SnapshotAnswerRule | Raft/Raft.cc:1091-1115 | the answer to a snapshot credits the peer up to the snapshot point, and what it lacks beyond is sent at once |
| LeaderRules.LaterVoteRule | Raft/Raft.cc:736-819 | an answer of a later term to a vote or pre-vote request makes a follower of that term, whatever the node was |
| LeaderRules.LaterAnswerRule | Raft/Raft.cc:1010-1014 | so does one to entries or to a snapshot |
| LeaderRules.RoundRule | Raft/Raft.cc:361-370 | opening a round asks every idle peer at once and owes it to every busy one |
| LeaderRules.ForgetRule | Raft/Raft.cc:1168-1200 | a closed round is owed to nobody any more, and what is owed for another stays |
| LeaderRules.OwedMatchRule | Raft/Raft.cc:940-961 | what is owed to a peer is sent as soon as a match leaves nothing else to send to it |
| LeaderRules.StartRule | Raft/Raft.cc:311-326 | start appends the command at the next index in the leader's term, returns that place, commits what may be, and has every peer busy with it |
| Node.WalkBack | Raft/Raft.cc:511-517 | the suggested index is the first of the run of equal terms |
| Node.CommitScan | Raft/Raft.cc:1210-1224 | the scan finds the greatest committable index |
| Compaction.AnswersAsFull | Raft/Raft.cc:1284-1339 | last index, last term, the vote test, matchLog and getLogTermFromIndex answer as the full log does |
| Compaction.SendsTheRest | Raft/Raft.cc:1117-1132 | append requests carry exactly the full log from nextIndex on |
| Compaction.CompactionKeeps | Raft/Raft.cc:1264-1282 | compaction moves only to committed indexes and keeps to the same full log |
| Compaction.InstallKeeps | Raft/Raft.cc:648-666 | keeping the suffix happens exactly if the log holds the snapshot's last entry, and keeps to the same full log |
| Compaction.CompactionInvisible | Raft/Raft.cc:1284-1302 | nodes that keep parts of one log cannot be told apart above both snapshot points |
| Backtracking.RejectionLowers | Raft/Raft.cc:1046-1055 | each rejection lowers nextIndex, never below the follower's snapshot point plus one |
| Backtracking.Settle | Raft/Raft.cc:894-921 | where the exchange ends, if the follower is not ahead of the index tried or the leader has a snapshot: a match above the follower's snapshot point, or the snapshot branch |
| Backtracking.AheadStepsBack | Raft/Raft.cc:1051-1053 | a follower whose snapshot point is above what was tried rejects, and its larger suggestion is refused in favour of one step back |
| Backtracking.EndsIff | Raft/Raft.cc:1046-1055 | the exchange of requests and rejections ends, in a match or in the snapshot branch, exactly if the follower's snapshot point is below the index tried first or the leader has a snapshot |
| Backtracking.NeverEnds | Raft/Raft.cc:1051-1053 | otherwise the k-th index tried is the first minus k, but at least 1, and all are rejected |
| Backtracking.JoinsIff | Raft/Raft.cc:894-921 | with snapshots sent and answered too, a match is found exactly if the follower's snapshot point is below the index tried, or the leader has a snapshot and the follower is not ahead of both it and matchIndex |
| Backtracking.StuckForever | Raft/Raft.cc:1051-1053 | a leader and a follower with equal logs of which the follower has compacted two entries and the leader none: no match, ever |
| StuckReplication.CanGetStuck | Raft/Raft.cc:1051-1053 | a run of three nodes that ends in such a state: one lost answer, and a peer that compacts before its leader does |
| SnapshotCredit.CreditExactIff | Raft/Raft.cc:1111 | the credit for a snapshot answer is that of the snapshot sent exactly if the leader has not compacted further since, or had credited as much before |
| SnapshotCredit.CreditStoredIff | Raft/Raft.cc:1111 | for a peer whose log ended below the snapshot, the credit stays within its log exactly if the leader has not compacted further in between |
| SnapshotCredit.OverCredits | Raft/Raft.cc:1111-1112 | a run that ends with matchIndex beyond the log of a peer that is in the leader's term |
| ReadAssertion.ReadSafeIff | Raft/Raft.cc:1134-1139 | a read trips the index assertion exactly if it opens a round while an idle peer needs compacted entries |
| ReadAssertion.ReadCanTrip | Raft/Raft.cc:366-370 | a run that ends in such a state |
| RaftNode.Raft.constructor | Raft/Raft.cc:70-75 | a new object is the restarted node of its disk |
| RaftNode.Raft.CloseActiveRead | Raft/Raft.cc:1168-1200 | all callbacks of the round are called, in order, and heartbeats owed to it forgotten |
| RaftNode.Raft.BecomeFollower | Raft/Raft.cc:825-841 | the object does what Node.BecomeFollower does |
| RaftNode.Raft.StepDown | Raft/Raft.cc:843-857 | likewise |
| RaftNode.Raft.BuildAppendEntries | Raft/Raft.cc:1117-1132 | likewise, with the loop over the log |
| RaftNode.Raft.ScheduleReplication | Raft/Raft.cc:894-921 | likewise: wait, snapshot or entries |
| RaftNode.Raft.ScheduleAllReplication | Raft/Raft.cc:878-884 | likewise, peer by peer |
| RaftNode.Raft.ApplyCommitted | Raft/Raft.cc:1229-1242 | likewise, with the loop that drains to the commit index |
| RaftNode.Raft.CountReplicas | Raft/Raft.cc:1212-1215 | the inner loop counts the peers credited with the index |
| RaftNode.Raft.FindCommit | Raft/Raft.cc:1210-1224 | the outer loop finds the greatest committable index |
| RaftNode.Raft.UpdateCommitIndex | Raft/Raft.cc:1207-1227 | likewise |
| RaftNode.Raft.BecomeLeader | Raft/Raft.cc:859-876 | likewise, peers reset one by one |
| RaftNode.Raft.BeginElection | Raft/Raft.cc:759-797 | likewise |
| RaftNode.Raft.BeginPreVote | Raft/Raft.cc:696-734 | likewise |
| RaftNode.Raft.HandlePreVoteReply | Raft/Raft.cc:736-757 | likewise |
| RaftNode.Raft.HandleVoteReply | Raft/Raft.cc:799-819 | likewise |
| RaftNode.Raft.HandleRequestVote | Raft/Raft.cc:390-422 | state and reply are those of Node.TakeVote |
| RaftNode.Raft.HandlePreVote | Raft/Raft.cc:438-459 | the reply is that of Node.TakePreVote and nothing changes |
| RaftNode.Raft.SuggestIndex | Raft/Raft.cc:507-517 | the walk back finds the start of the conflicting run |
| RaftNode.Raft.MergeEntries | Raft/Raft.cc:525-544 | the loop over incoming entries does what Node.Merge says |
| RaftNode.Raft.HandleAppendEntries | Raft/Raft.cc:482-557 | state and reply are those of Node.TakeAppend; see RaftRules.AppendRule and Deliveries.StepPushes |
| RaftNode.Raft.HandleReadHeartBeat | Raft/Raft.cc:565-590 | state and reply are those of Node.TakeReadHeartBeat |
| RaftNode.Raft.HandleInstallSnapshot | Raft/Raft.cc:629-676 | state and reply are those of Node.TakeSnapshot |
| RaftNode.Raft.ScheduleHeartBeat | Raft/Raft.cc:923-938 | the object does what Node.ScheduleHeartBeat does |
| RaftNode.Raft.TrySchedulePendingReadHeartBeat | Raft/Raft.cc:940-961 | likewise |
| RaftNode.Raft.TryNext | Raft/Raft.cc:1048-1054 | likewise |
| RaftNode.Raft.HandleAppendReply | Raft/Raft.cc:997-1072 | likewise; see LeaderRules.MatchRule, RefusalRule and Deliveries.ReadsAnswered |
| RaftNode.Raft.HandleSnapshotReply | Raft/Raft.cc:1091-1115 | likewise |
| RaftNode.Raft.Start | Raft/Raft.cc:311-326 | likewise |
| RaftNode.Raft.ReadIndex | Raft/Raft.cc:338-372 | likewise |
| RaftNode.Raft.DoSnapshot | Raft/Raft.cc:1264-1282 | likewise; see RaftRules.CompactRule |
| SkipListLevels.LevelIsSubsequence | include/SkipLists.h:159-165 | the pointers of level i, followed from the header, lead through exactly the nodes tall enough for it, in the order of level 0, which has them all |
| SkipListLevels.LevelsAboveEmpty | include/SkipLists.h:275-277 | the header's pointers above curLevel_ are null, and that of curLevel_ is not unless it is 0 |
| SkipLists.Node.constructor | include/SkipLists.h:20-27 | a new tower has level + 1 pointers, all null |
| SkipLists.SkipList.constructor | include/SkipLists.h:107-118 | a new list is valid and represents the empty map |
| SkipLists.SkipList.WalkRight | include/SkipLists.h:161-164 | one level of the search ends at the last tower of that level before the key; no tower is read above its height |
| SkipLists.SkipList.Predecessors | include/SkipLists.h:158-165 | update[] holds the predecessor on every level in use |
| SkipLists.SkipList.Get | include/SkipLists.h:220-233 | get agrees with the map |
| SkipLists.SkipList.Find | include/SkipLists.h:235-248 | find agrees with the map |
| SkipLists.SkipList.Size | include/SkipLists.h:68 | elementCount_ is the number of keys of the map |
| SkipLists.SkipList.RandomLevel | include/SkipLists.h:134-142 | the height is the number of heads tossed, at most maxLevel_ |
| SkipLists.SkipList.LinkIn | include/SkipLists.h:192-196 | the new tower hangs between its neighbours on every level it reaches and no other pointer changes |
| SkipLists.SkipList.Insert | include/SkipLists.h:150-201 | for every height the list stays valid and represents the map with the key set |
| SkipLists.SkipList.Unlink | include/SkipLists.h:269-274 | the node is bypassed on every level, although the loop stops early |
| SkipLists.SkipList.Lower | include/SkipLists.h:275-277 | curLevel_ becomes the height of the highest tower |
| SkipLists.SkipList.Erase | include/SkipLists.h:250-285 | the list stays valid, represents the map without the key, and says whether it was there |
| SkipLists.Equals | include/SkipLists.h:85-104 | operator== holds exactly if both lists represent the same map, whatever their heights |
| StateMachine.CommandMeans | Server/KVServer.cc:26-56 | a new PUT sets its key and succeeds; a new DEL takes its key out and succeeds exactly if it was there; every other key stays; a duplicate changes nothing and is told what the record says |
| StateMachine.FinalValue | include/SkipLists.h:168-176 | after any commands from the empty store a key has a value exactly if the last new PUT or DEL on it is a PUT of that value |
| StateMachine.ExactlyOnce | Server/KVServer.cc:26-56 | the store is what plain execution of only those commands makes it whose request id exceeds every earlier one of the client |
| StateMachine.DuplicateIffOld | Server/KVServer.cc:28-31 | a command is skipped exactly if its request id does not exceed all earlier ones of its client |
| StateMachine.ReplayChangesNothing | Server/KVServer.cc:26-56 | replaying applied commands changes neither store nor table |
| StateMachine.RepeatGetsSameReply | Server/KVServer.cc:29-31 | repeating the latest request gets the same reply and changes nothing |
| StateMachine.RetryReply | Server/KVServer.cc:28-31 | a retry, however late, changes nothing and gets the reply that the client's newest request got |
| StateMachine.OwnReplyIff | Server/KVServer.cc:28-31 | so it gets its own reply exactly if the client has asked for nothing newer since or the newest was answered the same |
| StateMachine.LateRetryMisled | Server/KVServer.cc:28-31 | a deletion that failed, repeated after a later insertion of the same client, is told that it succeeded |
| StateMachine.KVStateMachine.Apply | Server/KVServer.cc:26-56 | the object, over the skip list, does what StateMachine.ApplyOp does, whose meaning is StateMachine.CommandMeans |
| Pending.WaiterStays | Server/KVServer.cc:356-372 | an RPC that registers under a free key keeps its place and its index and term, whatever others do, until it is dropped or a command with its key is applied |
| Pending.WaiterTaken | Server/KVServer.cc:313-338 | when the command of that key, index and term is applied, that call is taken with the result of the command, and no other entry leaves the table |
| Pending.WaiterMissed | Server/KVServer.cc:320-332 | a command of the key at another index or term takes the call out and answers nobody |
| Pending.WaiterAnswered | Server/KVServer.cc:313-338 | so a call that registered under a free key and was not dropped has, after the finish that follows the first command of its key, if that is its own entry, exactly the one answer that is the result, unless it was cancelled |
| Pending.FinishedAtMostOnce | include/KVServer.h:19-32 | under any interleaving an RPC is answered through its completion at most once, and never after a refusal |
| Pending.CancelledNeverFinished | include/KVServer.h:33-39 | once cancelled, a completion gets no answer any more |
| Pending.AnswerIsEarned | Server/KVServer.cc:313-338 | an answer is the result of the command applied at the index and term that the RPC's own start call returned, in the state machine as it was, restored snapshots included |
| KvServer.RpcCompletion.Finish | include/KVServer.h:19-32 | finishes unless done, cancelled or detached |
| KvServer.RpcCompletion.Cancel | include/KVServer.h:33-39 | cancels and detaches |
| KvServer.KVServer.RegisterPending | Server/KVServer.cc:356-372 | a taken key leaves the table as it was; under a free one exactly the entry of this RPC is added |
| KvServer.KVServer.TakePending | Server/KVServer.cc:315-334 | the entry is erased; the completion is taken only if index and term match |
| KvServer.KVServer.CompletePending | Server/KVServer.cc:313-338 | only the completion that waited for this entry is finished; the others stay as they are |
| KvServer.KVServer.CancelPending | Server/KVServer.cc:340-354 | the RPC is dropped if it is the one registered, and cancelled |
| KvServer.KVServer.ApplyNext | Server/KVServer.cc:283-289 | one turn of the loop applies the command, finishes the completion that waited for it with its result, and no other |
| KvServer.KVServer.DrainCommands | Server/KVServer.cc:269-302 | after a queue of commands the state machine is the fold of apply over them |

## Left out

- gRPC streams and reactors, generated protobuf code, thread pools, configuration and logging: transport.
- Persister files and JSON text: a disk is one record and one snapshot; commands are values, not strings.
- A crash in the middle of a handler, between two of its writes: handlers are atomic, and replies leave after the
  write.
- Wrap-around of 32-bit terms and indexes: integers are unbounded.
- Clocks: timeouts may fire at any time, so nothing is said about when; the recent-leader test of a pre-vote is an
  input.
- stop_ and destruction of a node other than as a restart from disk.
- Safety.ReadIndexFresh: reads that join an open round inherit its index, so freshness is relative to the opening.
- Safety.IndexSafety: the exception is the read that ReadAssertion.ReadSafeIff tells apart; heartbeats that it
  handed to the transport for other peers before the process ended are taken as lost.
- Safety.MatchIsStored: says nothing at or below the commit index, where SnapshotCredit.OverCredits shows it to be
  wrong.
- Safety.ReplicationJoinsIff: the follower changes only by this exchange, and the leader compacts nothing meanwhile.
- Deliveries.CallbacksConserved: a restart loses the callbacks of the open round without an answer, as the process
  that made them ends with it.
- Deliveries.QueueIsWhole: for queues without snapshot messages; Deliveries.StepPushes has every step.
- Backtracking.RejectionLowers: the follower's log stands still and its snapshot point is below the tried index;
  Backtracking.EndsIff has the other case.
- SkipLists.SkipList.Predecessors: the local array update[] is a sequence value; dump, load, display and the
  distribution of heights are not modelled, and keys are strings.
- Service.ReplicasAgree: for replicas whose queue has no snapshot message and starts at index 1, which is to say
  since they last started with an empty disk or one without a snapshot; what restore makes of a snapshot is not
  modelled, since a snapshot older than what is applied is pushed too and restore keeps the old deduplication table.
- Pending.AnswerIsEarned: a restored snapshot may leave any state; which one is not said.
- KvServer.KVServer.DrainCommands: queries from other threads, the periodic snapshot check and snapshot messages are
  not part of the loop.
- Pending.FinishedAtMostOnce: Finish on the reactor is one step with the decision to finish; the reactor's lifetime
  is not modelled.
- GET requests and the completion of reads, which the source does not implement or does not retry.
- Liveness: nothing is said about elections or replication making progress.

