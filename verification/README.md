# A verified model of the 6.5840 labs: Raft, the replicated key/value service, the lock, shard configurations and MapReduce

The project models the distributed programs of this repository and proves what they are for. Every
theorem is about all inputs, all runs or all reachable states; there is no bound on servers, clients,
messages, crashes or run length.

## What is modelled

**Raft (`src/raft1/raft.go`).** Four layers.
- `Consensus`, `LeaderCompleteness`, `ConsensusSteps`: an abstract machine over complete, uncompacted
  logs, with the history (who stood with which log, who voted for whom, what each leader's log is, what
  each server acknowledged) that safety arguments need. Leader completeness is a consequence of local
  facts, by induction over terms.
- `Peer`: the peer as a value, one function per locked section of the source.
- `RaftPeer.Raft`: the peer as an object, with the source's fields, loops and order of updates. Each
  method is proved to do what the function of `Peer` says.
- `Cluster` and the `...Steps` modules: peers, services and a network that loses, delays, duplicates
  and reorders, with crashes and restarts. Each step is proved to be one or more steps of the abstract
  machine. `Safety` states the theorems for whole runs, `Effects` and `LogEffects` what each section does
  when it runs, as exact conditions on its effect.

The places where the code departs from the extended Raft paper are modelled as they are: the skipped
prev-term check below the snapshot, the commit bound by the follower's own last index, back-off to the
last entry of the conflicting term, the commit scan from one follower's matchIndex, and snapshot
requests built by a sender that may no longer lead.

**The replicated state machine (`src/kvraft1`).** The reader, its duplicate test, the waiters and the
snapshot thread. The store of every replica is the fold of the one log.

**Clerk and lock (`src/kvsrv1`).** Calls, retries and RPCs that may be served after their caller gave
up; linearizability against `src/models1/kv.go`, and exactly when it fails; mutual exclusion.

**Shard configurations (`src/shardkv1/shardcfg`).** The balancer in place on an array, its termination,
its result, that no other balanced result moves fewer shards, and what a refused change leaves.

**MapReduce (`src/mr`).** Coordinator and workers with crashes, reassignment and late reports, against
`src/main/mrsequential.go`.

## Findings

- A Put that returned ErrMaybe can still write afterwards, and clerk histories are then not always
  linearizable, if the Put named a version its key had not reached when it was called. The condition is
  exact. If all Puts on a key named reached versions, no leftover can write (`LeftoverHarmless`) and the
  calls on the key have an order, in porcupine's sense, that KvModel accepts (`HonestIsLinearizable`).
  After any run like that, one Put with any other version can write after it returned
  (`LeftoverHarmful`), and the run can go on so that no order whatever explains it (`NotLinearizable`).
  A caller stays on the safe side by naming 0 or a version no greater than one a Get has returned
  (`VersionFromGetIsHonest`).
- A file named twice on the command line is mapped once by the coordinator, whose tasks are keyed by
  file name, and twice by the sequential program. If no file that yields a pair is named twice the outputs
  are the same (`SameAsSequential`); if one is, they differ for a Reduce that counts (`NamedTwiceShows`).
- A refused `Join` or `Leave` may have changed the groups. A refused `Join` leaves them alone, in every
  order in which the map may be iterated, if and only if none of the groups could have joined on its own
  (`RefusedJoin`); otherwise what it leaves depends on that order (`OrderMatters` has an example). A
  refused `Leave` leaves them alone if and only if its list is empty or starts with a group that is not
  there (`RefusedLeave`).

## Conventions

- History variables (complete logs, votes, acknowledgements, deliveries, the order of effects) appear in
  the state machines only; no step looks at them to decide what a peer, clerk or worker does.
- Sending a message is a step of its own, possible at any time the source could send: heartbeats are
  timers, so every call of the sending routine is one of these. A snapshot request is built in any role.
- A vote request goes to all; the answer of each vote call is counted at most once. Answers to appends
  and snapshots may be processed any number of times, which is more than the network allows.
- Timeouts happen at any time. `rf.snapshot` is never nil once a peer is made, because the persister
  hands out a copy of a slice, so the tests against nil do not appear; no bytes stand for the empty
  store. Encoding and decoding are exact inverses.
- The truncation inside the loop over entries of AppendEntry is done right after the loop it ends.
- A crash may fall inside a locked section; the only thing a section persists before its final state is a
  greater term, so that is where the model lets it fall.
- A restart of the service is one step: its store is the persisted snapshot while lastAppliedID is 0
  again, as in the source.
- A lock object is used by one caller at a time; clients of other keys are arbitrary. Clerk and lock are
  there twice: as the source's loops (`ClerkCalls`, `LockCalls`), and as state machines that advance by
  stages between remote calls (`Clerk`, `Lock`), for every interleaving and late execution.
- Map iteration is an arbitrary choice of the next key.

## Model

| member | source | states |
|---|---|---|
| `Safety.ElectionSafety` | src/raft1/raft.go:239-274 | Election safety: over a whole run with crashes, two servers that lead in one term, at whatever moments, are the same server |
| `Safety.LogsMatch` | src/raft1/raft.go:345-407 | Log matching under compaction: equal term at an index two servers hold means that their full logs, compacted prefix and retained suffix, agree up to there; the snapshot of either is the fold of the other's full log, and entries both hold are equal |
| `Safety.SnapshotsMatch` | src/raft1/raft.go:459-477 | The same in what the servers have: the snapshot of the one that compacted further is the other's snapshot with that server's own entries applied up to there |
| `Safety.LeadersHoldCommitted` | src/raft1/raft.go:674-698 | Leader completeness: an entry committed on any server, at any time, is in the log of every leader of a later term, or at or below that leader's snapshot base, even if that leader was seen before the commit; and so for later leaders of the same term |
| `Safety.StateMachineSafety` | src/raft1/raft.go:627-672 | In every state of every run there is one log that explains every command and snapshot ever delivered, every server's committed entries, persisted snapshot, store and apply channel, and every snapshot on the network, whoever built it |
| `Safety.SameCommands` | src/raft1/raft.go:652-660 | No two servers ever deliver different commands at one index |
| `Safety.SameStores` | src/kvraft1/rsm/rsm.go:109-169 | Replicas that have applied equally far have equal stores, whatever mixture of commands, snapshots and restarts led there |
| `Safety.SubmitAnswers` | src/kvraft1/rsm/rsm.go:128-146 | A waiting Submit that gets an answer gets the one its own operation has, at its own index, in that one log; the only other result is WrongLeader |
| `Safety.NextIsAnswered` | src/kvraft1/rsm/rsm.go:112-167 | The next command on a channel is no duplicate, is its index's entry in the one log, and finds the store as the log leads to it; the empty waiter of that operation at that index finds its answer and nobody else anything, with another command everybody is told WrongLeader, and after a snapshot exactly those overtaken |
| `ServiceOrder.LaterStartedIsLater` | src/kvraft1/rsm/rsm.go:193-225 | Real-time order of the service: an operation not yet started when some command was delivered is delivered, anywhere and at any time, at a greater index |
| `ServiceOrder.NextKnown` | src/raft1/raft.go:531-551 | An operation gets into the logs of leaders by Start and in no other way |
| `Safety.CommitIndexMonotone` | src/raft1/raft.go:410-413 | commitIndex never falls within one lifetime of a server |
| `Safety.CommitsWhatSenderHas` | src/raft1/raft.go:410-413 | LeaderCommit <= PrevLogIndex + len(Entries) for every request, and what a follower newly commits (bounded by its own last index) is the sender's own log |
| `Safety.InRange` | src/raft1/raft.go:650-661 | In every reachable state logs are contiguous with sorted terms, base <= commitIndex <= last index, lastApplied <= commitIndex, memory equals what is persisted, a leader's nextIndex stays within its log, requests are numbered consecutively, and a successful answer to a leader in its term ends within its log |
| `Safety.GuardsHold` | src/raft1/raft.go:487-498 | The side conditions with which the steps of the cluster are written (well-formed peers, history in step with them, answers from members of the cluster) hold in every reachable state, so they exclude no behaviour |
| `Safety.ApplyStreamGapFree` | src/raft1/raft.go:639-665 | Each command on the apply channel has the index after its predecessor's, each snapshot a greater one, also across rounds; the reader's duplicate test drops nothing |
| `Safety.BackOffBelowRejection` | src/raft1/raft.go:767-780 | After a same-term rejection the new nextIndex lies between 1 and the rejected PrevLogIndex, in all three back-off branches |
| `Safety.NothingLeftToCommit` | src/raft1/raft.go:674-698 | On every leader, no entry of its term above commitIndex is held by a majority of servers, counting itself and the matchIndex of the others, although only one follower's matchIndex is ever scanned from |
| `Effects.AnswerCommits` | src/raft1/raft.go:751-766 | A successful answer not outrun raises matchIndex and nextIndex; commitIndex then covers every entry of the term that a majority holds, and rises only to such an entry |
| `Effects.VoteGrantedExactly` | src/raft1/raft.go:239-274 | A vote is granted if and only if the request is not behind, the candidate stood with a log up to date with the full log of the server, and no other candidate of the term has its ballot; the vote is then on disk, and the reply carries the server's term |
| `Effects.TimesOut` | src/raft1/raft.go:557-617 | A timeout makes a candidate of the next term with its own vote on disk, and a request that names the end of its full log |
| `Effects.BecomesLeaderExactly` | src/raft1/raft.go:581-596 | A candidate becomes leader if and only if the votes counted for it are those of a majority; then its no-op is appended, nextIndex points to it and matchIndex is 0 |
| `LogEffects.AppendsExactly` | src/raft1/raft.go:328-418 | AppendEntry succeeds if and only if the request is not behind and its previous entry is compacted or in the full log; the full log then contains the sender's, untouched if it did before, and commitIndex is the sender's if greater |
| `LogEffects.BackOffSkipsNothing` | src/raft1/raft.go:771-780 | Back-off goes no further than it must: from the new nextIndex up to the rejected position, among the entries the leader still has, there is none on which the follower agreed |
| `LogEffects.RejectionRecorded` | src/raft1/raft.go:767-784 | A same-term rejection sets nextIndex there, within bounds, and changes nothing else; one of a later term makes the leader step down and persist it |
| `LogEffects.RequestCarries` | src/raft1/raft.go:725-739 | Every AppendEntry starts at nextIndex of the full log, goes to its end, and tells term and commitIndex |
| `LogEffects.InstallsExactly` | src/raft1/raft.go:444-479 | A snapshot is installed if and only if the request is not behind and the snapshot above the base; the log then starts there, keeps what follows if it had that entry, and the reply carries the term before |
| `LogEffects.TrimsExactly` | src/raft1/raft.go:189-213 | Whenever the service is beyond the base its snapshot is taken: the log starts at the index the store stands for, keeps all that follows, and both are on disk |
| `LogEffects.SnapshotRecorded` | src/raft1/raft.go:504-518 | A successful snapshot answer in the leader's term raises matchIndex and nextIndex of that follower to what the snapshot covers, never lowers them, and changes nothing else |
| `LogEffects.RestartsFromDisk` | src/raft1/raft.go:815-852 | A restart brings back term, vote, log and snapshot, as a follower with its snapshot committed, applied and restored |
| `PeerFacts.HighestExactly` | src/raft1/raft.go:674-698 | The commit rule in the fields: the highest index up to the start of the scan whose entry is of the current term and held by more than half, if above commitIndex |
| `Safety.InstallLosesNothing` | src/raft1/raft.go:444-479 | Installing a snapshot, even one built after its sender stopped leading, loses no entry committed on the receiver or acknowledged to the leader of its term |
| `ClusterSteps.NextSafe` | src/raft1/raft.go:239-851 | Each of the fourteen kinds of step keeps the cluster invariant, only adds to history, and lowers a commit index only by a restart |
| `ClusterSteps.InitInv` | src/raft1/raft.go:815-852 | Freshly made peers and services satisfy the cluster invariant |
| `ClusterSteps.RestartSafe` | src/raft1/raft.go:815-852 | A crash between two locked sections, or inside one after a greater term was adopted and persisted, followed by a restart from the persister, keeps the invariant |
| `ClusterSteps.ReadSafe` | src/kvraft1/rsm/rsm.go:109-169 | Reading one message off the apply channel keeps the store the fold of the log |
| `LeaderCompleteness.WinnerHasChosen` | src/raft1/raft.go:254-270 | The log a candidate won with contains every entry chosen in an earlier term (by induction over the terms in between) |
| `LeaderCompleteness.LeaderHasChosen` | src/raft1/raft.go:75-98 | Every later leader's log contains what was chosen |
| `LeaderCompleteness.CommittedAgree` | src/raft1/raft.go:674-698 | Any two committed logs agree as far as both are committed |
| `LeaderCompleteness.LogMatching` | src/raft1/raft.go:365-407 | In the abstract machine, equal terms at a position mean equal logs up to it |
| `Quorum.Overlap` | src/raft1/raft.go:590-592 | Two majorities share a server |
| `ConsensusSteps.StandKeeps` | src/raft1/raft.go:608-613 | Standing for election keeps the invariant of the abstract machine |
| `ConsensusSteps.CastKeeps` | src/raft1/raft.go:254-269 | So does casting the one vote of a term, given the up-to-date test |
| `ConsensusSteps.ElectKeeps` | src/raft1/raft.go:587-592 | So does an election by a majority with the new leader's no-op appended |
| `ConsensusSteps.LeadKeeps` | src/raft1/raft.go:538-545 | So does a leader appending to its own log |
| `ConsensusSteps.AcceptKeeps` | src/raft1/raft.go:381-407 | So does taking over a leader's log, which is acknowledged to that leader |
| `ConsensusSteps.InstallKeeps` | src/raft1/raft.go:459-477 | So does installing a committed prefix, in any role: what it displaces was acknowledged to no leader that could still commit it |
| `ReplicationSteps.MergeIsAccept` | src/raft1/raft.go:381-402 | The skip, truncate and append loop on a compacted log amounts to accepting the sender's complete log |
| `ReplicationSteps.MergeClipped` | src/raft1/raft.go:346-354 | So it does on the path below the snapshot base, where the prev-term check is skipped |
| `ReplicationSteps.ConflictReply` | src/raft1/raft.go:357-378 | A rejection tells truly where the follower's log ends or where its conflicting term begins |
| `ReplicationSteps.AppendEntryOk` | src/raft1/raft.go:328-418 | AppendEntry in any state, with any request ever sent, keeps the invariant and answers truthfully |
| `ElectionSteps.RequestVoteOk` | src/raft1/raft.go:239-274 | RequestVote keeps the invariant, and a granted vote is on record for the candidate alone |
| `ElectionSteps.TimeoutOk` | src/raft1/raft.go:601-617 | An election timeout leaves a candidate whose own vote is its only one, and a truthful request |
| `ElectionSteps.VoteAnsweredOk` | src/raft1/raft.go:581-596 | A counted vote, a refusal or a late answer keeps the invariant; a majority of votes cast makes the only leader of the term |
| `ElectionSteps.OneLeader` | src/raft1/raft.go:587-592 | A second majority in a term is for the same candidate |
| `LeaderSteps.AppendRequestSent` | src/raft1/raft.go:725-739 | Every AppendEntry a leader builds ends with its log, carries LeaderCommit within it, and a committed prefix |
| `LeaderSteps.BackOffProgress` | src/raft1/raft.go:771-780 | The jump to the leader's last entry of the conflicting term lands at or below the rejected position |
| `LeaderSteps.CommitScan` | src/raft1/raft.go:761-766 | Scanning down from the one matchIndex that rose restores the full commit rule |
| `LeaderSteps.CommitIsChosen` | src/raft1/raft.go:674-698 | An index the scan commits is held by a majority that acknowledged it in the leader's own term |
| `LeaderSteps.AppendAnsweredOk` | src/raft1/raft.go:751-784 | Processing any answer, however late or reordered, keeps the invariant |
| `LeaderSteps.SnapshotAnsweredOk` | src/raft1/raft.go:504-518 | A snapshot answer raises matchIndex but leaves nothing to commit, so that no scan is needed |
| `LeaderSteps.StartOk` | src/raft1/raft.go:531-551 | Start keeps the invariant, including that nothing is left to commit |
| `SnapshotSteps.SnapshotRequestSent` | src/raft1/raft.go:487-498 | A snapshot request built in any role carries the fold of a committed prefix |
| `SnapshotSteps.InstallSnapshotOk` | src/raft1/raft.go:444-479 | InstallSnapshot keeps the invariant, also on a candidate of the same term, which stays one |
| `SnapshotSteps.SnapshotOk` | src/raft1/raft.go:189-213 | Trimming by the service's snapshot keeps the invariant: the snapshot kept is the fold at its index |
| `SnapshotSteps.ApplyStream` | src/raft1/raft.go:639-661 | One round of applyLog delivers the committed log from lastApplied to commitIndex, through a snapshot if the log starts above |
| `PeerFacts.MergedValid` | src/raft1/raft.go:381-402 | The merged log stays contiguous |
| `RaftPeer.Raft.Make` | src/raft1/raft.go:815-852 | A peer starts from exactly what the persister holds (spec: Peer.Boot) |
| `RaftPeer.Raft.Persist` | src/raft1/raft.go:134-153 | What is persisted is what memory holds |
| `RaftPeer.Raft.CheckAndMaySetTermAndState` | src/raft1/raft.go:102-111 | A greater term is adopted, the vote forgotten, and this persisted |
| `RaftPeer.Raft.RequestVote` | src/raft1/raft.go:239-274 | New state and reply are those of Peer.RequestVote, which Effects.VoteGrantedExactly pins |
| `RaftPeer.Raft.FirstOfTerm` | src/raft1/raft.go:369-375 | The downward search finds the first entry of the conflicting run of terms |
| `RaftPeer.Raft.SkipMatching` | src/raft1/raft.go:386-397 | The loop stops after the longest run of entries equal in index and term |
| `RaftPeer.Raft.Merge` | src/raft1/raft.go:381-407 | The log becomes Peer.MergedLog, and is persisted if it changed |
| `RaftPeer.Raft.Clip` | src/raft1/raft.go:346-354 | Entries at or below the snapshot base are cut off |
| `RaftPeer.Raft.AppendEntry` | src/raft1/raft.go:328-418 | New state and reply are those of Peer.AppendEntry |
| `RaftPeer.Raft.InstallSnapshot` | src/raft1/raft.go:444-479 | New state and reply are those of Peer.InstallSnapshot |
| `RaftPeer.Raft.Snapshot` | src/raft1/raft.go:189-213 | New state is that of Peer.Snapshot |
| `RaftPeer.Raft.Start` | src/raft1/raft.go:531-551 | A leader appends the command and answers its index and term; others change nothing |
| `RaftPeer.Raft.Timeout` | src/raft1/raft.go:557-617 | New state and vote request are those of Peer.Timeout |
| `RaftPeer.Raft.BecomeLeader` | src/raft1/raft.go:75-100 | New state is that of Peer.BecomeLeader: indices reset, no-op appended, persisted |
| `RaftPeer.Raft.VoteAnswered` | src/raft1/raft.go:581-596 | New state is that of Peer.VoteAnswered |
| `RaftPeer.Raft.CountMatches` | src/raft1/raft.go:679-687 | The count is the number of servers that match the index, the leader included |
| `RaftPeer.Raft.UpdateCommitIndex` | src/raft1/raft.go:674-698 | The scan sets commitIndex to the highest index up to its start, if above, whose entry is of the current term and held by more than half of the servers |
| `RaftPeer.Raft.GetLastConflictTerm` | src/raft1/raft.go:700-710 | On sorted terms the search with its early exit agrees with a full search |
| `RaftPeer.Raft.AppendAnswered` | src/raft1/raft.go:751-784 | New state is that of Peer.AppendAnswered |
| `RaftPeer.Raft.SnapshotAnswered` | src/raft1/raft.go:504-518 | New state is that of Peer.SnapshotAnswered |
| `RaftPeer.Raft.SendHeartbeat` | src/raft1/raft.go:712-740 | Exactly the followers that are due get a request, each the one Peer.AppendRequest describes, or a snapshot if their entries are trimmed away |
| `RaftPeer.Raft.ApplyLog` | src/raft1/raft.go:627-665 | New state and messages are those of Peer.Apply |
| `KvStore.PutEffect` | src/kvsrv1/server.go:63-87 | A Put takes effect exactly when it names the key's version (0 if absent), is then answered OK and raises the version by one; otherwise nothing changes and it is answered ErrVersion or ErrNoKey |
| `KvStore.GetEffect` | src/kvsrv1/server.go:44-57 | A Get changes nothing and answers the key's value and version, ErrNoKey exactly if the key is missing |
| `KvServer.KVServer.Get` | src/kvsrv1/server.go:44-57 | Value and version of a present key with OK, or ErrNoKey; the map unchanged |
| `KvServer.KVServer.Put` | src/kvsrv1/server.go:63-87 | Map and answer are those of the specification |
| `KvServer.HandOver` | src/kvsrv1/server.go:89-114 | The round trip of Snapshot and Restore: the server that restores has the store of the one that took the snapshot, and answers every request as it does |
| `Rsm.AnswersFromLog` | src/kvraft1/rsm/rsm.go:109-169 | Reading messages of a log, waiters are answered from that log only |
| `Rsm.RSM.DoOp` | src/kvraft1/server.go:27-46 | Store and answer are those of the specification |
| `Rsm.RSM.Handle` | src/kvraft1/rsm/rsm.go:112-167 | Store and lastAppliedID are those of Cluster.ReadOne; the channels of the waiters before and after are as Rsm.Notified says, case by case |
| `Rsm.RSM.Reader` | src/kvraft1/rsm/rsm.go:109-169 | The loop is the fold of its single step over the channel |
| `ClerkCalls.Put` | src/kvsrv1/client.go:66-88 | However many RPCs are served, the store changes as by one; the result is OK, ErrMaybe, ErrVersion or ErrNoKey exactly as the losses and the version decide |
| `ClerkCalls.Get` | src/kvsrv1/client.go:32-47 | The first answer that arrives |
| `ClerkCalls.PutTwice` | src/kvsrv1/server.go:81-86 | A second execution of a Put changes nothing |
| `Clerk.NextOk` | src/kvsrv1/client.go:66-88 | Every step of clerks, network and server keeps the invariant that ties calls, RPCs, answers and the order of effects together |
| `Linearizability.Linearizable` | src/models1/kv.go:49-63 | If every Put on a key names a version the key had reached, each returned call on it has its own place in one order, within its interval, where KvModel.Step accepts its answer |
| `Linearizability.GetReadsItsPlace` | src/kvsrv1/server.go:44-57 | A returned Get answers exactly the value and version of the key at its place in the order, and ErrNoKey exactly at version 0 |
| `Linearizability.PutAfterGet` | src/kvsrv1/server.go:63-87 | In every run, if nobody wrote on the key since a Get was served, a Put that names the version it was answered is answered OK and writes |
| `Linearizability.PutToldExactly` | src/kvsrv1/client.go:66-88 | A returned Put was told OK exactly if its last RPC wrote, ErrVersion only if its only RPC was refused, ErrMaybe only after a retry |
| `ClerkHistory.HonestIsLinearizable` | src/models1/kv.go:26-67 | The calls on the key then have an explanation: an order of all that returned and some still open, in real-time order, whose answers KvModel accepts from its initial state |
| `ClerkHistory.NotLinearizable` | src/kvsrv1/client.go:66-88 | The condition is needed: after any run honest on the key, if the next call is a Put with any version ahead, the run can go on so that no order whatever is an explanation; with the key present, without any ErrNoKey |
| `Linearizability.VersionFromGetIsHonest` | src/kvsrv1/client.go:32-47 | What a caller can go by: version 0, or one no greater than a Get on the key had returned before the Put was called, is a version the key had reached |
| `Linearizability.RealTimeOrder` | src/kvsrv1/client.go:32-88 | A call that has returned stands before every call made later that has a place |
| `Linearizability.OrderIsGenuine` | src/kvsrv1/server.go:63-87 | Only writes of calls, each once and at its call's place, change the state along the order, which ends in the server's store |
| `Linearizability.OkWroteOnce` | src/kvsrv1/client.go:66-88 | OK: the Put wrote exactly once |
| `Linearizability.ErrVersionNeverWrites` | src/kvsrv1/client.go:82-84 | ErrVersion: it has not written and never will |
| `Linearizability.LeftoverHarmless` | src/kvsrv1/client.go:66-88 | No request left behind by a returned Put can still write, if it was answered OK or ErrVersion or named a version the key had reached |
| `Linearizability.LeftoverHarmful` | src/kvsrv1/client.go:66-88 | In every other case it can: from any state, a Put ahead of the version can return and later write |
| `LockCalls.LockHandle.Acquire` | src/kvsrv1/lock/lock.go:38-64 | The loop returns only when the token is stored; it does in its first undisturbed round if the lock is free or its own; alone with another's lock it changes nothing |
| `LockCalls.LockHandle.Release` | src/kvsrv1/lock/lock.go:66-93 | The loop returns only when the token is not stored; it does in its first undisturbed round, leaving the lock free if it was its own; alone with another's lock it changes nothing |
| `LockSafety.MutualExclusion` | src/kvsrv1/lock/lock.go:38-93 | At most one Lock object of a name is between the return of Acquire and the call of Release, and the stored value is then its token |
| `LockSafety.ReleaseReleases` | src/kvsrv1/lock/lock.go:66-93 | An object at rest holds the lock exactly if its token is stored: Release leaves nothing behind |
| `LockSafety.CanAcquire` | src/kvsrv1/lock/lock.go:38-64 | Whoever calls Acquire while the lock is free can get it: a few steps lead to holding it |
| `LockSafety.CanRelease` | src/kvsrv1/lock/lock.go:66-93 | Whoever holds the lock can give it back: a few steps lead to a free lock |
| `LockSafety.TokenSeenAcquires` | src/kvsrv1/lock/lock.go:42-44 | An Acquire that finds its own token ends, holding the lock |
| `LockSafety.ForeignReleaseEnds` | src/kvsrv1/lock/lock.go:70-79 | A Release that finds no token of its own ends and changes nothing |
| `LockSafety.StepKeeps` | src/kvsrv1/lock/lock.go:38-93 | Every step of users, lock objects, clerks, network and server keeps the protocol's invariant |
| `LockSafety.Writer` | src/kvsrv1/lock/lock.go:54-63 | A Put that writes on the lock's key is the open call of one object, and replaces a free lock or that object's own token |
| `Shards.RebalancedBalances` | src/shardkv1/shardcfg/shardcfg.go:122-154 | From any assignment, every shard ends on a live group, with loads within one of each other |
| `Shards.RebalancedNobody` | src/shardkv1/shardcfg/shardcfg.go:124-129 | With no group left every shard is un-assigned |
| `Shards.RebalancedMovesFewest` | src/shardkv1/shardcfg/shardcfg.go:122-154 | From any assignment, balanced or not, no balanced assignment to the live groups moves fewer shards |
| `Shards.MovedDownhill` | src/shardkv1/shardcfg/shardcfg.go:140-153 | A shard leaves a live group only for one that had at least two shards less |
| `Shards.JoinMovesToNew` | src/shardkv1/shardcfg/shardcfg.go:207-213 | From a balanced assignment, any number of joining groups receive shards and no other group does |
| `Shards.LeaveMovesOrphans` | src/shardkv1/shardcfg/shardcfg.go:215-221 | From a balanced assignment, exactly the shards of leaving groups move |
| `Shards.EarliestMove` | src/shardkv1/shardcfg/shardcfg.go:147-152 | A live group gives up its earliest shards: if one moves, so do all before it |
| `Shards.MoveLessens` | src/shardkv1/shardcfg/shardcfg.go:141-153 | Each move leaves fewer pairs of shards in one group (half the fall of the sum of squared loads), so the loop ends |
| `ShardConfigs.ExtremesUnique` | src/shardkv1/shardcfg/shardcfg.go:90-108 | The extremes do not depend on map iteration order |
| `ShardConfigs.ShardConfig.Analyze` | src/shardkv1/shardcfg/shardcfg.go:80-111 | The most and the least loaded group, the smallest id among equals, whatever order the map is iterated in |
| `ShardConfigs.Extremes` | src/shardkv1/shardcfg/shardcfg.go:86-108 | The scan over sorted ids finds both extremes; without groups it answers -1, -1, -1, 257 |
| `ShardConfigs.ShardConfig.Rebalance` | src/shardkv1/shardcfg/shardcfg.go:122-154 | The array becomes the assignment Shards.Rebalanced, every shard 0 if no group is left, and the method terminates |
| `ShardConfigs.ShardConfig.Join` | src/shardkv1/shardcfg/shardcfg.go:156-183 | Outcome and groups are those of Membership.JoinAs for some order of the map; it succeeds exactly if there are groups to join, all new, and none shares a server |
| `Membership.JoinSucceeds` | src/shardkv1/shardcfg/shardcfg.go:156-183 | Whether a Join succeeds, and what a successful one leaves, does not depend on the order in which the map is iterated |
| `Membership.CanJoinMeans` | src/shardkv1/shardcfg/shardcfg.go:159-180 | A Join can succeed exactly if it names groups, none is present, and no server would be in two groups because of it |
| `Membership.RefusedJoin` | src/shardkv1/shardcfg/shardcfg.go:158-177 | A refused Join leaves the groups as they were in every order if and only if none of the groups could have joined on its own |
| `Membership.OrderMatters` | src/shardkv1/shardcfg/shardcfg.go:158-177 | A refused Join with two orders that leave different groups |
| `ShardConfigs.ShardConfig.Leave` | src/shardkv1/shardcfg/shardcfg.go:185-205 | Outcome and groups are those of Membership.LeaveAs; it succeeds exactly if the list is not empty, without repetition, and all its groups are present |
| `Membership.LeaveRemoves` | src/shardkv1/shardcfg/shardcfg.go:187-198 | Leave removes exactly the groups before the first that is missing or repeated, and is refused if there is one |
| `Membership.RefusedLeave` | src/shardkv1/shardcfg/shardcfg.go:187-202 | A refused Leave leaves the groups as they were if and only if its list is empty or starts with a group that is not there |
| `ShardConfigs.ShardConfig.JoinBalance` | src/shardkv1/shardcfg/shardcfg.go:207-213 | The configuration is even after success, and from an even one shards move only to the joining groups; refused, the shards stay and the groups are those a refused Join leaves |
| `ShardConfigs.ShardConfig.LeaveBalance` | src/shardkv1/shardcfg/shardcfg.go:215-221 | The configuration is even after success, or every shard 0 if the last group left; from an even one exactly the leaving groups' shards move; refused, the shards stay and the groups are those a refused Leave leaves |
| `Coordinators.Coordinator.constructor` | src/mr/coordinator.go:35-50 | All tasks start idle; a file named twice is one task |
| `Coordinators.Coordinator.Scan` | src/mr/coordinator.go:58-67 | Finds a free task if there is one, and whether all are completed, in any map order |
| `Coordinators.Coordinator.GetTask` | src/mr/coordinator.go:53-108 | Hands out a free task or says wait, and moves to the next phase exactly when all tasks of the present one are completed |
| `Coordinators.Coordinator.TaskComplete` | src/mr/coordinator.go:111-123 | A reported map or reduce task becomes completed, in any phase; nothing else changes |
| `MapReduce.Partition` | src/mr/worker.go:51-57 | Each bucket holds exactly the pairs whose key hashes to it, with multiplicity |
| `MapReduce.SortByKey` | src/mr/worker.go:154-154 | A sorted permutation; nothing is promised about pairs of equal keys |
| `MapReduce.ReduceSorted` | src/mr/worker.go:155-171 | The i/j/k loops write one line per distinct key, ascending, with Reduce of all its values |
| `MapReduce.SortAndReduce` | src/mr/worker.go:144-171 | A reduce task's output is right for the multiset of pairs it read |
| `MapReduce.Sequential` | src/main/mrsequential.go:38-86 | The sequential program's output is right for all pairs of all files |
| `MapReduce.LineUnique` | src/mr/worker.go:165-168 | A key has one right line |
| `MapReduceRuns.NextKeeps` | src/mr/worker.go:117-186 | Every step of coordinator and workers, with crashes, reassignment and late reports, keeps the invariant |
| `MapReduceRuns.ReportCounts` | src/mr/coordinator.go:111-123 | A report that arrives completes its task, in whatever phase, and nothing takes that back |
| `MapReduceRuns.AllReportedEnds` | src/mr/coordinator.go:68-93 | Once every report has come in, the next worker to ask ends the job |
| `MapReduceRuns.GlobFindsAll` | src/mr/worker.go:82-104 | In the reduce phase, globbing finds a bucket file of every input file |
| `MapReduceRuns.SameAsSequential` | src/main/mrsequential.go:59-84 | When the coordinator is done, the output files together hold exactly the lines of the sequential program, each once |
| `MapReduceRuns.SamePairs` | src/mr/coordinator.go:40-44 | Coordinator and sequential program see the same pairs if and only if no file that yields any is named twice |
| `MapReduceRuns.NamedTwiceShows` | src/main/mrsequential.go:39-51 | If a file that yields a pair is named twice, no run ends with the sequential program's lines when Reduce counts its values |
| `MapReduceRuns.DoneIsFinal` | src/mr/coordinator.go:148-155 | Once Done, always Done, with every output file there and never changing, though overtaken workers may still write theirs |

## Left out

- Liveness of any kind: elections ending, InstallSnapshot making progress, retries succeeding.
- Sockets, labrpc dispatch, gob and JSON encoding, annotations, the tester and porcupine: the network is a set of messages and codecs are exact inverses.
- Wall-clock time: timeouts, heartbeat intervals, the `Start` time stamp of entries; `rf.leader`, which nothing reads.
- `RSM.Submit`: registration of a waiter and the 500 ms poll; what is proved is about results sent on a waiter's own channel.
- The clerk of `src/kvraft1/client.go`: its retries after ErrWrongLeader give ErrVersion another meaning.
- ClerkCalls.Put: one client alone; requests served after their caller gave up, and other clients, are in the state machine Clerk.
- LockCalls.LockHandle.Acquire: others act between its remote calls, not within one, and no request is served late; both are in the state machine Lock.
- LockCalls.LockHandle.Release: others act between its remote calls, not within one, and no request is served late; both are in the state machine Lock.
- uint64 overflow of versions, and int overflow of terms and indices.
- FNV hashing: the hash is an arbitrary function. `Key2Shard`, `GidServers`, `IsMember` and `CheckConfig` only look things up.
- File names, base-name collisions and stale files of earlier jobs: intermediate files are a map from input file and bucket to contents.
- MapReduceRuns.SameAsSequential: Map is taken to be deterministic as a multiset and Reduce not to look at the order of values, without which two runs of the sequential program need not agree either.
- The counter service of `src/kvraft1/rsm/server.go` and the unimplemented shard controller, client and groups of `src/shardkv1`.
