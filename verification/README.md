# A model of a sharded, replicated key/value store

This project models the system in its own four parts and proves what they promise.

- **Raft with log compaction** (`src/raft`). `RaftServer` gives every handler as a function on a server record,
  `RaftCluster` the cluster as a state machine whose messages may be lost, duplicated and reordered and whose replicas
  may crash at any step. `RaftHistory` to `RaftDelivery` carry the invariant, `RaftSafety` and `RaftTheorems` state what
  holds in every run, `RaftInstalls` when a leader commits entries of its own term, and `RaftExample` has a run in which
  it does not. `RaftResponses` says what the handlers have to do, beside what they must not, and `RaftRecovery` that a
  cluster can always go on. Raft carries the commands and snapshots of all three services (`Service`) without looking
  inside. `RaftPeer` has the same handlers as a class that updates its fields in place, each proved equal to its
  function.
- **The kvraft service** (`src/kvraft`). `KvService` is its state machine, `KvServer` the handler of the apply channel,
  `KvCluster` the service on a Raft cluster with its clerks, `KvRefinement` the proof that clients see one store,
  `KvRecovery` that they can always be answered.
- **The sharded store** (`src/shardkv`). `ShardService` is the state machine of one group. `ShardSystem` has all groups
  and clerks, each group reduced to its committed log; `ShardInvariant` to `ShardSafety` carry its invariant,
  `ShardTheorems` and `ShardLinearizable` its promises. `StoreCluster` is the store as it runs, every group a Raft
  cluster and every request between groups a message, and `StoreRefinement` proves that its runs are runs of
  `ShardSystem`. `ShardProgress` builds runs: how shards can arrive, and what a late number does; `ShardArrival` says
  when they can arrive from any state. `ShardServer` is the replica with its loops, `Utf8` the bytes of its keys.
- **The linearizability checker** (`src/porcupine`, `src/models`). `Linearizability` says what is to be decided,
  `EntryList`, `SearchPath` and `LinkedEntries` carry the search, `Checker` is the search itself on a linked list with
  a bitset and a cache, `Timeline` and `KvModel` lead from timed operations on a map to single-key searches, and
  `CheckHistory` splits a history by key and gathers the verdicts.
- **The shard controller** (`src/shardctrler`). `Rebalance` and `FewestMoves` treat the greedy loop, `ConfigHistory` the
  configurations as a function of the operations, `ShardCtrler` the loops over maps.

The parts meet. What a Raft cluster has chosen is the log a group is reduced to (`StoreRefinement.Refines`). What
clients see of the sharded store and of the kvraft service is accepted by the checker's own model of a map
(`ClientView.OneStoreSeen`). And `WholeSystem` has everything together: groups and controller on their Raft clusters,
the groups finding the configurations that the controller is making.

## How the system is read

- Every region run under a lock is one step; goroutines, timers, condition variables and wait channels become the free
  choice of the next step. A fresh or repeated answer of the network is a message that is still in the set.
- Persisting is atomic with the step that calls it. A crash returns a replica to the persisted fields and its snapshot;
  `lastIncludedIndex` of the service is not restored, as in the code.
- A service may look at a command although its snapshot covers it: the sharded store does so for merges and
  confirmations (`src/shardkv/server.go:511-551`). The theorems about Raft runs ask that this changes nothing
  (`RaftCluster.ServedRun`); it never does, for any service (`RaftSafety.IndexedRunIsServed`,
  `StoreRefinement.GroupsRunRaft`). After any command a service handles it may take a snapshot; the controller never
  does.
- In `ShardSystem` a replica reads any state its group's log goes through. In `StoreCluster` it reads its own; the
  goroutines that wait for another group's answer become messages any replica of the group may act on.
- The pull and confirm loops read the configuration number after they have listed the shards and unlocked
  (`src/shardkv/server.go:168` and `:311`). For a pull the model allows any time between, and nothing depends on it.
  For a confirmation it asks that the group listed still owns the shard under the number, which it does when both are
  read in one configuration (`ShardTheorems.ConfirmedByOwner`). Without that, a shard may be dropped that nobody else
  has (`ShardProgress.LateNumberDropsEarly`), and exactly then (`ShardProgress.SafeExactlyWhenOwner`).
- A group asks the controller for the latest configuration and then for its own next one; here it acts on an answer
  that has its next one in it, and any replica of the controller answers with what it has applied.
- The handler that waits for an operation replies when its replica applies that operation; a clerk accepts a reply to
  the operation it is waiting for, however old the reply.
- The model has any number of shards, groups and replicas. Group 0 is never joined, as it is the invalid group
  (`src/shardctrler/common.go:15-17`), and a moved shard exists. Operations return no earlier than they are called.
- Strings are sequences of Unicode characters; the first byte of a key is that of its UTF-8 encoding, and the order of
  keys is that of their characters, which is that of their bytes.
- A word of a bitset is its 64 bits. States of a checked model are compared by equality, which is what the key/value
  model does. The sort of the checker is any arrangement in time order. The searches of the parallel driver report in
  any order, and a search that has reported was not killed.
- A leader that still has an older leader's snapshot in hand installs it and so commits entries of earlier terms
  without counting replicas; that is the one way in which a newly committed index is not of the leader's own term
  (`RaftInstalls.OwnTermUnlessInstalled`, `RaftExample.EarlierTermCommitted`).
- A cluster of one replica never elects it: a candidate only looks for a majority when a reply comes in
  (`src/raft/raft.go:1104-1119`, `RaftResponses.AloneNeverLeads`).
- A shard that is with group 0, or with a group that does not exist, in one configuration and with a group in the next,
  or the other way round, is waited for forever (`src/shardkv/server.go:586-606`); otherwise migration can always be
  completed (`ShardArrival.ArriveExactlyWhenConnected`).
- The repository's notes say that the last applied index is stored with a snapshot (`README.md:184`); the code stores
  the store and the sequence numbers only (`src/kvraft/server.go:56-63`), and the model follows the code.
- A comment in the follower's append handler bounds the commit index by the last new entry (`src/raft/raft.go:772`);
  the code uses the last index before the append, and so does the model.

## Model

| member | source | states |
|---|---|---|
| `RaftSafety.StateMachineSafety` | src/raft/raft.go:552-790 | In every run with loss, duplication, reordering, crashes, restarts and snapshots there is one log, of commands that were proposed, from which every replica at every moment has its committed entries and its snapshot, and whose fold up to the replica's applied index is the state of its service |
| `RaftSafety.IndexedRunIsServed` | src/kvraft/server.go:106-109 | Every run of a kvraft or controller cluster is one the theorems speak of: no command a snapshot covers is applied again |
| `RaftSafety.UnderwayStep` | src/raft/raft.go:637-790 | A step of any replica gives up nothing chosen, and what it newly chooses was proposed |
| `RaftSafety.HandIsChosen` | src/raft/raft.go:1283-1327 | A command in the service's hand is the chosen one at its index, the next to be applied unless a snapshot covered it |
| `RaftTheorems.CommittedEntriesAgree` | src/raft/raft.go:735-779 | No two replicas, at any two moments of a run, hold different entries at an index both consider committed |
| `RaftTheorems.SnapshotsAgree` | src/raft/raft.go:452-547 | Two replicas whose snapshots end at the same index hold the same snapshot |
| `RaftTheorems.NeverTruncated` | src/raft/raft.go:735-766 | Everything a replica once considered committed is in its log, or folded into its snapshot, at every later moment, crashes and compaction included |
| `RaftTheorems.LeaderHoldsCommitted` | src/raft/raft.go:581-586 | Whatever any replica considered committed, compacted or not, is in the log or folded into the snapshot of every leader of that or a later term from then on |
| `RaftTheorems.MajorityHoldsCommitted` | src/raft/raft.go:186-229 | At every moment, what a replica considers committed is in the logs or snapshots of a majority, whatever made it commit |
| `RaftTheorems.OneLeaderPerTerm` | src/raft/raft.go:347-364 | Two leaders of one term, at any two moments, are the same replica |
| `RaftInstalls.OwnTermUnlessInstalled` | src/raft/raft.go:186-229 | Every index a leader newly commits is in the logs or snapshots of a majority, and has the leader's own term exactly when the leader did not commit it by installing a snapshot |
| `RaftInstalls.OlderAlways` | src/raft/raft.go:836-868 | Every snapshot a leader still has to install ends in an earlier term |
| `RaftExample.EarlierTermCommitted` | src/raft/raft.go:452-499 | A run of three replicas in which a leader of term 2 commits an entry of term 1, by installing its predecessor's snapshot |
| `RaftTheorems.DeliveredInOrder` | src/kvraft/server.go:85-154 | A step applies the very next chosen entry, installs a snapshot further on, restarts from the replica's own snapshot or leaves the service alone: nothing is skipped or applied twice |
| `RaftTheorems.BackupProgress` | src/raft/raft.go:1053-1070 | A term-conflict reply to the current probe strictly lowers nextIndex |
| `RaftTheorems.OnlyForward` | src/raft/raft.go:773-779 | Terms and snapshot indexes never go down, and commit indexes only at a crash |
| `RaftTheorems.NeverOutOfBounds` | src/raft/raft.go:1292-1305 | No step a replica can take slices its log out of range |
| `RaftTheorems.StepForward` | src/raft/raft.go:637-790 | One step never lowers the term, the snapshot index or, short of a crash, the commit index |
| `RaftRecovery.RecoversExactlyWithPeers` | src/raft/raft.go:1072-1119 | After any run, whatever was lost and whoever crashed, some continuation has a leader and every replica applying any given commands on top of all that was chosen before, exactly when there are two replicas or more: one alone never counts a vote |
| `RaftRecovery.Recovers` | src/raft/raft.go:869-1070 | The continuation, step by step: all restart, one is elected, followers are brought up to date by fast backup or by snapshot, the leader commits, the followers learn of it, and every service applies the commands |
| `RaftRecovery.Elect` | src/raft/raft.go:1072-1119 | From any reachable cluster at rest a replica can be elected that all the others follow |
| `RaftRecovery.CatchUp` | src/raft/raft.go:869-1070 | Whatever its log and snapshot, a follower ends up with the leader's log, and the leader knows |
| `RaftRecovery.RefusedCloser` | src/raft/raft.go:1053-1070 | Every refusal brings the leader strictly closer to an index the follower agrees on |
| `RaftRecovery.Heartbeat` | src/raft/raft.go:773-779 | A heartbeat to a follower that has the leader's log gives it the leader's commit index |
| `RaftRecovery.Deliver` | src/raft/raft.go:1283-1327 | The apply loop brings a service to the commit index |
| `RaftResponses.CanBeElected` | src/raft/raft.go:581-592 | In every reachable cluster any set of replicas has a member that all the others vote for, in any term in which they have no vote to anyone else, and again when asked again |
| `RaftResponses.MostUpToDate` | src/raft/raft.go:581-586 | The comparison of logs is total and transitive: one of any set of replicas is as up to date as all of them |
| `RaftResponses.CountsVotes` | src/raft/raft.go:1104-1119 | A candidate counts every granted vote of its term and leads exactly when they are a majority, then sends from the end of its log and knows of nobody what they have |
| `RaftResponses.TermsAreHeard` | src/raft/raft.go:347-364 | A replica is always in the highest term it stood in or heard of; hearing of a newer one, or as candidate of a leader of its own, it follows |
| `RaftResponses.CarriedBySender` | src/raft/raft.go:959-977 | Every append request on its way was sent by a leader of that term and carries its commit index and all of its log from the next index on |
| `RaftResponses.FollowsCommit` | src/raft/raft.go:773-779 | A replica that accepts a request follows the sender's commit index as far as its own log reached, never further; with a log as long as the sender's it has exactly the sender's, or the later one it had |
| `RaftResponses.CommitsWhatMajorityHas` | src/raft/raft.go:186-229 | At every moment a leader has committed every entry of its own term that it knows a majority to have |
| `RaftResponses.CountFinds` | src/raft/raft.go:206-227 | Counting replicas finds the last entry of the current term that a majority has |
| `RaftResponses.AloneNeverLeads` | src/raft/raft.go:1072-1119 | A replica without peers never leads |
| `RaftResponses.BackupWithoutEntry` | src/raft/raft.go:1053-1058 | A refusal for want of the entry: after a log too short the leader goes to just past its end, or past what the peer is known to have, which is lower exactly when that had not reached the probe; after a log compacted past the probe, to just past the snapshot, which is higher |
| `RaftResponses.BackupSkipsNothing` | src/raft/raft.go:1059-1069 | No index the two logs agreed on is skipped, and a conflicting term the leader has nothing of is skipped as a whole |
| `RaftResponses.HandsOnSnapshot` | src/raft/raft.go:836-868 | A snapshot past the commit index, from a leader of the same or a newer term, is handed on, and no other; the reply has the receiver's term |
| `RaftResponses.Compacts` | src/raft/raft.go:504-547 | A service that compacts after a command leaves a snapshot that ends with it, of its own state, and the rest of the log as it was |
| `RaftResponses.CountsItself` | src/raft/raft.go:980-983 | Whenever it sends entries the leader counts its own log as reached |
| `RaftHistory.LogMatching` | src/raft/raft.go:735-766 | Two logs with an entry of one term at one index agree up to that index |
| `RaftHistory.VotersBringCommitted` | src/raft/raft.go:581-592 | A candidate whose log is as up to date as a majority's holds what an earlier term committed |
| `RaftHistory.LeaderCompleteness` | src/raft/raft.go:581-592 | A committed prefix is in the initial log of every later leader |
| `RaftHistory.CommittedComparable` | src/raft/raft.go:186-229 | Of two committed prefixes one extends the other |
| `RaftElection.ElectionSafety` | src/raft/raft.go:1104-1119 | A candidate with a majority of votes cannot coexist with a leader of its term |
| `RaftElection.WinnerKeptItsLog` | src/raft/raft.go:1072-1119 | The log a winner campaigned with is still its log, although a snapshot may replace a candidate's log |
| `RaftElection.FollowerOk` | src/raft/raft.go:347-354 | Stepping down, which clears the vote, keeps every invariant: a vote that made a leader is never cleared |
| `RaftElection.TimeoutOk` | src/raft/raft.go:356-364 | Starting an election keeps every invariant |
| `RaftElection.OnVoteOk` | src/raft/raft.go:552-605 | Answering a vote request keeps every invariant |
| `RaftElection.OnVoteAnswerOk` | src/raft/raft.go:1104-1119 | Counting a vote, and winning, keeps every invariant |
| `RaftReplication.ProposeOk` | src/raft/raft.go:1136-1164 | Appending a command as leader keeps every invariant |
| `RaftReplication.SentAppendOk` | src/raft/raft.go:959-977 | Every append request commits at most up to the end of what it carries, and carries a slice of its leader's log |
| `RaftReplication.AcceptedLog` | src/raft/raft.go:735-766 | Splicing entries into a trimmed log is splicing them into the whole log, and agrees with the leader up to the last entry sent |
| `RaftReplication.AcceptedCommit` | src/raft/raft.go:773-779 | The follower's commit index, bounded by the last index before the append, never drops and never passes the prefix it shares with the leader |
| `RaftReplication.OnAppendOk` | src/raft/raft.go:637-790 | Handling an append request keeps every invariant |
| `RaftReplication.NewCommitOk` | src/raft/raft.go:186-229 | What counting replicas commits is acknowledged by a majority in the leader's term |
| `RaftReplication.OnAppendAnswerOk` | src/raft/raft.go:1004-1029 | Handling an append reply keeps every invariant |
| `RaftReplication.OnSnapshotAnswerOk` | src/raft/raft.go:909-944 | Handling a snapshot reply keeps every invariant, although it raises matchIndex before the follower installed anything |
| `RaftDelivery.OnSnapshotOk` | src/raft/raft.go:836-868 | Receiving a snapshot keeps every invariant |
| `RaftDelivery.GrabBatchOk` | src/raft/raft.go:1284-1305 | Copying a batch of committed entries stays within the log and keeps every invariant |
| `RaftDelivery.ReceiveCommandOk` | src/raft/raft.go:1307-1314 | The command delivered next carries the index of its entry |
| `RaftDelivery.HandleCommandOk` | src/kvraft/server.go:99-132 | Applying a delivered command leaves the service at the fold of one more committed entry, or of the same ones |
| `RaftDelivery.TakeSnapshotOk` | src/raft/raft.go:504-547 | A snapshot of the service at its applied index keeps every invariant |
| `RaftDelivery.HandleInstallOk` | src/kvraft/server.go:89-98 | Installing a delivered snapshot keeps every invariant |
| `RaftDelivery.CrashOk` | src/raft/raft.go:418-446 | Restarting from the persisted fields and the snapshot keeps every invariant |
| `RaftPeer.Raft.GetLogAt` | src/raft/raft.go:148-156 | Index and term of a position, the snapshot's at position 0, none past the end |
| `RaftPeer.Raft.GetSameTermFirst` | src/raft/raft.go:158-167 | The first position of the run of equal terms ending at a position |
| `RaftPeer.Raft.BecomeFollower` | src/raft/raft.go:347-354 | The new state is the specified follower state |
| `RaftPeer.Raft.BecomeCandidate` | src/raft/raft.go:356-364 | The new state is the specified candidate state |
| `RaftPeer.Raft.BecomeLeader` | src/raft/raft.go:339-345 | The new state is the specified leader state |
| `RaftPeer.Raft.RequestVote` | src/raft/raft.go:552-605 | New state and reply are those of the specified vote handler |
| `RaftPeer.Raft.VoteReceived` | src/raft/raft.go:1104-1119 | The new state is that of the specified vote-reply handler |
| `RaftPeer.Raft.AppendEntries` | src/raft/raft.go:637-790 | New state and reply are those of the specified append handler; an accepted request raises the commit index to the leader's, or to where the log ended, and no further |
| `RaftPeer.Raft.Splice` | src/raft/raft.go:735-766 | The log keeps what agrees, drops from the first conflict on and gains the missing entries |
| `RaftPeer.Raft.DropConflict` | src/raft/raft.go:739-747 | After dropping conflicts, appending the uncovered entries gives the merged log |
| `RaftPeer.Raft.AppendMissing` | src/raft/raft.go:751-766 | Exactly the entries past the end of the log are appended |
| `RaftPeer.Raft.CountReplicas` | src/raft/raft.go:186-229 | The result is the specified commit index, and no entry of the current term past it has a majority |
| `RaftPeer.Raft.ScanDown` | src/raft/raft.go:206-227 | The highest index above the commit index, of the current term, that a majority has reached, if any |
| `RaftPeer.Raft.CountAt` | src/raft/raft.go:208-216 | The number of peers whose matchIndex has reached an index, the leader included |
| `RaftPeer.Raft.BackUp` | src/raft/raft.go:1053-1070 | nextIndex becomes the specified back-up; without a conflicting term, the index reported or one past the match index |
| `RaftPeer.Raft.AppendAnswered` | src/raft/raft.go:1004-1029 | The new state is that of the specified append-reply handler |
| `RaftPeer.Raft.PrepareAppend` | src/raft/raft.go:959-983 | The request is the specified one, and the leader's own slots are refreshed |
| `RaftPeer.Raft.Propose` | src/raft/raft.go:1136-1164 | A leader appends one entry of its term at the next index; others refuse |
| `RaftPeer.Raft.InstallSnapshot` | src/raft/raft.go:836-868 | New state and reply are those of the specified snapshot handler |
| `RaftPeer.Raft.SnapshotAnswered` | src/raft/raft.go:909-944 | The new state is that of the specified snapshot-reply handler |
| `RaftPeer.Raft.CondInstall` | src/raft/raft.go:452-499 | The log keeps its tail if it holds the snapshot's last entry and is emptied otherwise; stale snapshots are refused |
| `RaftPeer.Raft.TakeSnapshot` | src/raft/raft.go:504-547 | The log is trimmed at the index, and the snapshot stored |
| `RaftPeer.Raft.Recover` | src/raft/raft.go:418-446 | The new state is that of a restart from the persisted fields |
| `RaftServer.FirstOfRun` | src/raft/raft.go:158-167 | Everything from the position found up to the given one has that term, and what is before it does not |
| `RaftServer.LastOfTerm` | src/raft/raft.go:1060-1067 | The last position of a term, 0 if there is none |
| `RaftServer.BestCommit` | src/raft/raft.go:206-221 | The highest index above the commit index and not below the start that a majority has reached, the commit index if there is none |
| `KvServer.KVServer.OnApplyMsg` | src/kvraft/server.go:85-154 | One delivered message takes peer and service to the specified state; a Get reads the store |
| `KvServer.KVServer.ApplyToStateMachine` | src/kvraft/server.go:156-167 | The operation's effect and the client's sequence number are recorded |
| `Checker.CheckSingle` | src/porcupine/checker.go:179-253 | Terminates, and answers true exactly when some order of all operations respects real time and passes the model; the order returned is one |
| `Linearizability.SearchIsExact` | src/porcupine/checker.go:190-243 | Choosing minimal operations one by one finds an order exactly when there is one |
| `SearchPath.SeenIsHopeless` | src/porcupine/checker.go:200-210 | A configuration found in the cache cannot be finished from here: pruning loses nothing |
| `SearchPath.DeadEnd` | src/porcupine/checker.go:214-217 | At the first return, with every call before it ruled out, the configuration cannot be finished |
| `SearchPath.PushOk` | src/porcupine/checker.go:203-207 | Lifting an accepted operation continues the search path |
| `SearchPath.PopOk` | src/porcupine/checker.go:235-241 | Putting an operation back rules it out and continues the search path |
| `SearchPath.Complete` | src/porcupine/checker.go:244-252 | A path that has done everything spells out a linearization |
| `SearchPath.PathInSpace` | src/porcupine/checker.go:190-243 | Every configuration visited is one of finitely many |
| `Checker.Advance` | src/porcupine/checker.go:194-213 | One turn at a call keeps the search in order and either caches a new configuration or moves one entry on |
| `Checker.Backtrack` | src/porcupine/checker.go:235-241 | One turn at a return keeps the search in order, with the last operation back in the list |
| `Checker.CacheContains` | src/porcupine/checker.go:145-152 | Looking an entry up by hash decides whether its configuration was seen |
| `Checker.Remembered` | src/porcupine/checker.go:201-202 | Adding an entry to its bucket adds exactly its configuration |
| `EntryList.ScannedIsMinimal` | src/porcupine/checker.go:194-213 | A call before the first return left is an operation nothing undone precedes |
| `EntryList.MinimalIsScanned` | src/porcupine/checker.go:214-217 | Every operation nothing undone precedes is called before the first return left |
| `LinkedEntries.Lift` | src/porcupine/checker.go:159-167 | The list loses exactly the call and its return, which still remember their places |
| `LinkedEntries.Unlift` | src/porcupine/checker.go:169-177 | A lifted pair is back exactly where it was |
| `LinkedEntries.InsertBefore` | src/porcupine/checker.go:70-81 | The list gains exactly the new node, in front of the mark |
| `LinkedEntries.MakeLinkedEntries` | src/porcupine/checker.go:121-138 | One linked node for each entry, in order, each call with its return as mate |
| `LinkedEntries.Length` | src/porcupine/checker.go:83-90 | The number of nodes of the list |
| `Timeline.MakeEntries` | src/porcupine/checker.go:48-60 | The entries of the history in time order, calls before returns; they pose the problem the history poses |
| `Timeline.ArrangedSameProblem` | src/porcupine/checker.go:39-60 | Any arrangement the unstable sort may give poses the same problem |
| `Bitset.NewBitset` | src/porcupine/bitset.go:10-17 | Enough words for the bits, all clear |
| `Bitset.SetBit` | src/porcupine/bitset.go:29-33 | One bit is set in place |
| `Bitset.ClearBit` | src/porcupine/bitset.go:35-39 | One bit is cleared in place |
| `Bitset.BitsChange` | src/porcupine/bitset.go:29-39 | Setting a bit adds its number to the set the words stand for, clearing takes it out |
| `Bitset.EqualWords` | src/porcupine/bitset.go:62-72 | For bitsets of one size, word equality is equality of the sets |
| `Bitset.HashOf` | src/porcupine/bitset.go:46-60 | Each bit is that bit of the number of members, flipped for each word that has the bit |
| `Bitset.HashMeans` | src/porcupine/bitset.go:46-60 | Population count xor every word, bit by bit, where the population count is the size of the set |
| `KvModel.Locality` | src/models/kv.go:17-54 | A history over the whole map is linearizable exactly when every per-key history is linearizable against the single-value model |
| `KvModel.KeysGiveStore` | src/models/kv.go:17-54 | Linearizations of the keys merge: the key of the operation first to return always has one that may go first |
| `KvModel.StoreGivesKeys` | src/models/kv.go:17-54 | A linearization of the store gives one for each key |
| `KvModel.StepIsLocal` | src/models/kv.go:40-54 | An operation on the store is one on its key and leaves other keys alone |
| `CheckHistory.GroupByKey` | src/models/kv.go:19-23 | Each key's operations in the order of the history |
| `CheckHistory.SortStrings` | src/models/kv.go:24-28 | The keys in increasing order, whatever order the map is walked in |
| `CheckHistory.LessMeans` | src/models/kv.go:24-28 | The order of keys: a proper prefix first, otherwise by the first character that differs |
| `CheckHistory.Partition` | src/models/kv.go:18-34 | One sub-history for each key of the history, in the order of the keys |
| `CheckHistory.CheckParallel` | src/porcupine/checker.go:274-353 | Whatever order the searches report in, Ok means every part is linearizable, Illegal that some part is not, Unknown that the timer fired; it waits on only while a search is still out or there is nothing to check |
| `CheckHistory.CheckOperations` | src/porcupine/checker.go:365-373 | Partitioning by key and checking the parts in parallel decides linearizability of the whole history against a map, whatever order the searches end in |
| `FewestMoves.FewestMoved` | src/shardctrler/server.go:238-306 | No assignment of all shards to live groups with sizes within one changes the group of fewer shards |
| `FewestMoves.NoGiveAndTake` | src/shardctrler/server.go:263-297 | A group that gives a shard away takes none |
| `FewestMoves.RebalanceBalances` | src/shardctrler/server.go:240-303 | With a live group, every shard goes to one live group and sizes differ by at most one; with none, every shard goes to group 0 |
| `Rebalance.ShiftShrinks` | src/shardctrler/server.go:278-295 | Each move lowers the sum of the squared sizes, so the loop ends |
| `Rebalance.FillStep` | src/shardctrler/server.go:282-289 | Giving a free shard to the emptiest group keeps receivers within one of every group |
| `Rebalance.ShiftKeeps` | src/shardctrler/server.go:290-295 | Moving from the fullest to the emptiest keeps donors and receivers apart and every list a prefix of, or extending, what the group owned |
| `Rebalance.OrderUnique` | src/shardctrler/server.go:243-246 | There is one sorted list of the live groups, whatever order the map is walked in |
| `Rebalance.FirstExtremes` | src/shardctrler/server.go:264-277 | Of several fullest or emptiest groups the first in order is chosen |
| `ShardCtrler.RebalanceShards` | src/shardctrler/server.go:238-306 | The loop computes the specified assignment, and marks exactly the shards that changed group, or all of them when no group is live |
| `ShardCtrler.Settle` | src/shardctrler/server.go:263-297 | Filling, then evening out, ends with the specified lists |
| `ShardCtrler.Scan` | src/shardctrler/server.go:264-277 | The first of the fullest and the first of the emptiest groups, in one pass |
| `ShardCtrler.LiveGroups` | src/shardctrler/server.go:241-246 | The sorted groups, from any walk over the map |
| `ShardCtrler.GetGIDToShards` | src/shardctrler/server.go:213-227 | The shards of every live group, in increasing order |
| `ShardCtrler.FreeShards` | src/shardctrler/server.go:250-260 | The shards without a live group, in increasing order |
| `ShardCtrler.WriteGroups` | src/shardctrler/server.go:299-303 | Each group is written into the slots of its shards |
| `ConfigHistory.HistoryIsOk` | src/shardctrler/server.go:148-204 | Configuration i has number i, and follows from the one before by the i-th operation that changes anything, settled as rebalancing promises; every such operation is used once, in order |
| `ConfigHistory.HistoryGrows` | src/shardctrler/server.go:170-197 | Later operations leave earlier configurations as they were |
| `ShardCtrler.Replay` | src/shardctrler/server.go:90-132 | A replica that applies a sequence of operations has the configurations that sequence determines |
| `ShardCtrler.Server.OnApply` | src/shardctrler/server.go:90-132 | One applied operation takes the configurations to the specified ones; sequence numbers are never recorded |
| `ShardCtrler.Server.ApplyToStateMachine` | src/shardctrler/server.go:148-204 | Join, Leave and Move append one configuration, Query none |
| `ShardCtrler.Server.GetConfig` | src/shardctrler/server.go:416-424 | The configuration asked for, the latest for -1 or past the end |
| `ShardCtrler.JoinGroups` | src/shardctrler/server.go:156-164 | The new groups replace or join the old ones |
| `ShardCtrler.LeaveGroups` | src/shardctrler/server.go:178-181 | The named groups are gone, the others stay |
| `WholeSystem.WholeSystemIsLinearizable` | README.md:21 | In every run of groups and controller, each on its Raft cluster, with configurations found while they are made, the replies the clerks accepted, with some operations that got none, form a history in the run's own times that the model of one map explains, each reply in it exactly once |
| `WholeSystem.StoreRuns` | src/shardkv/server.go:343-373 | What the groups do while the controller is at work is a run of the store under the configurations the controller comes to |
| `WholeSystem.CtrlAlways` | src/shardctrler/server.go:90-132 | Whatever a replica of the controller has answered is the beginning of the configurations its cluster has settled on |
| `StoreRefinement.ShardedStoreIsLinearizable` | README.md:21 | In every run of the sharded store over Raft clusters the replies the clerks accepted, with some operations that got none, form a history in the run's own times that the model of one map explains, each reply in it exactly once |
| `StoreRefinement.Refines` | src/shardkv/server.go:438-551 | Every run over Raft clusters, with lost, repeated and reordered messages, crashes and snapshots, is a run of the system of committed logs; every replica's state is one its group's log goes through |
| `StoreRefinement.StepSim` | src/shardkv/server.go:143-335 | Each step of a replica, a clerk or a message between groups is matched by steps of the system of committed logs |
| `StoreRefinement.GroupsRunRaft` | src/shardkv/server.go:438-470 | Group by group the runs of the store are runs of Raft, so what holds of those holds of every group |
| `StoreRefinement.ReplicasTolerate` | src/shardkv/server.go:511-551 | No replica's state is ever changed by a merge or a confirmation that its snapshot already covers |
| `KvRefinement.KvIsLinearizable` | src/kvraft/test_test.go:363-376 | In every run of the kvraft service over Raft the replies the clerks accepted, with some operations that got none, form a history in the run's own times that the model of one map explains, each reply in it exactly once |
| `KvRecovery.AnswersExactlyWithPeers` | src/kvraft/client.go:48-127 | After any run of the kvraft service, whatever crashes, losses and snapshots there were, the operation a clerk waits for can be answered exactly when there are two replicas or more |
| `KvRefinement.Refines` | src/kvraft/server.go:85-154 | Every run of the kvraft service is a run of a store of one shard that one group serves from the start |
| `ClientView.OneStoreSeen` | src/shardkv/test_test.go:713-726 | Where a system's runs are runs of the system of committed logs, its clients see a linearizable history in its own times |
| `Timeline.LooserTimes` | src/porcupine/checker.go:39-60 | Times that put fewer operations in order leave a linearizable history linearizable |
| `ShardLinearizable.StoreIsLinearizable` | README.md:21 | In every run of the system of committed logs the answered operations of all clerks, with unanswered ones that took effect, form a history the model of one map explains, each answer in it exactly once |
| `ShardLinearizable.EffectIsModel` | src/shardkv/server.go:608-619 | The service's operations are those of the checker's model |
| `ShardTheorems.ActsOnOneStore` | src/shardkv/server.go:458-491 | Before and after an applied operation its group has the one store's value of every key of the shard |
| `ShardTheorems.ServedAlways` | src/shardkv/server.go:467-472 | Everything a group serves, at any moment, is the one store's |
| `ShardTheorems.AtMostOnce` | src/shardkv/server.go:474-490 | No two steps make the same operation of a client take effect, across all groups and migrations |
| `ShardTheorems.NeverWronglySkipped` | src/shardkv/server.go:482-490 | An operation applied but skipped took effect before |
| `ShardTheorems.AnsweredTookEffect` | src/shardkv/client.go:116-140 | What a clerk was answered took effect |
| `ShardTheorems.AtMostOneServing` | src/shardkv/server.go:586-606 | At most one group has a shard SERVING |
| `ShardTheorems.DeletedAfterMerge` | src/shardkv/server.go:533-546 | A group deletes its copy only after the new owner committed a merge of it that took in that configuration, even if that owner has moved on |
| `ShardTheorems.ConfirmedMeansMerged` | src/shardkv/server.go:241-266 | When the new owner confirms, in that configuration or a later one, its log holds the merge of the shard |
| `ShardTheorems.ConfirmedByOwner` | src/shardkv/server.go:288-335 | A confirmation whose number was read with its list of shards asks the owner in that configuration, and an owner that confirms has had the shard served |
| `ShardProgress.SafeExactlyWhenOwner` | src/shardkv/server.go:295-314 | A confirmation listed in one configuration and asked with a later number is always safe exactly when the group listed is still the owner under that number |
| `ShardProgress.LateNumberDropsEarly` | src/shardkv/server.go:303-335 | A run in which the number is read two configurations after the list, and a group drops a shard its new owner has never had |
| `ShardArrival.ArriveExactlyWhenConnected` | src/shardkv/server.go:586-606 | From any reachable state some continuation brings all groups to a configuration with every shard arrived, exactly when up to it no shard leaves all groups and none comes back from nowhere |
| `ShardArrival.Arrive` | src/shardkv/server.go:143-373 | The continuation, step by step: the groups furthest behind pull, then drop, then take their next configuration |
| `ShardArrival.WaitsThere` | src/shardkv/server.go:202-235 | A shard still to be pulled waits at its previous owner, which has not gone on |
| `ShardArrival.CanBeAnswered` | src/shardkv/server.go:438-491 | From there every operation a clerk waits for, on a shard a group owns, can be answered |
| `ShardProgress.CanArrive` | src/shardkv/server.go:143-335 | From the start some run brings all groups to any configuration whose shards have all had owners, with every shard arrived |
| `ShardTheorems.NothingLeftBehind` | src/shardkv/server.go:533-546 | A group keeps no key of a shard that it neither serves nor is still asked for |
| `ShardTheorems.ConfigsInOrder` | src/shardkv/server.go:501-505 | A group takes only its next configuration, only when no shard is on its way, and first number 1, though applying checks neither |
| `ShardTheorems.SecondDeliveryIsHarmless` | src/shardkv/server.go:511-551 | A merge or confirmation delivered again later changes nothing, though these skip the index check |
| `ShardTheorems.NeverOutOfRange` | src/shardkv/server.go:520-546 | Whatever is committed fits the group: its shard exists and its configuration has every shard |
| `ShardTheorems.ControllerIsEnv` | src/shardctrler/server.go:148-204 | The configurations of any operation sequence are what the groups rely on |
| `ShardSafety.RunIsOk` | src/shardkv/server.go:438-551 | The invariant holds at every moment of every run |
| `ShardSafety.StepKeeps` | src/shardkv/server.go:438-551 | Every step keeps the invariant |
| `ShardSafety.FetchOk` | src/shardkv/server.go:343-373 | A proposed configuration comes from a state that stays ready until it is applied |
| `ShardSafety.PullOk` | src/shardkv/server.go:143-235 | What a pull proposes is the shard of the one store, or is out of date |
| `ShardSafety.CheckOk` | src/shardkv/server.go:241-335 | A confirmation is proposed only once the new owner has had the shard served |
| `ShardSteps.DoneBefore` | src/shardkv/server.go:482-484 | A sequence number recorded anywhere is of an operation done, as clerks send one at a time |
| `ShardSteps.NotDoneBefore` | src/shardkv/server.go:485-487 | An operation about to take effect has not taken effect anywhere |
| `ShardSteps.ArrivesWhole` | src/shardkv/server.go:520-522 | What is merged is the shard of the one store with every operation on it accounted for |
| `ShardSteps.NextConfigOnly` | src/shardkv/server.go:501-505 | A configuration that takes effect is the next one, and the group is ready |
| `ShardSteps.MaxCovers` | src/shardkv/server.go:278-284 | Merging by maximum keeps every operation covered |
| `ShardSteps.PartEffect` | src/shardkv/server.go:608-619 | Taking a shard's part and applying an operation come in either order |
| `ShardFrame.PartFrozen` | src/shardkv/server.go:214-232 | A part on its way to the next owner no longer changes |
| `ShardInvariant.StaysReady` | src/shardkv/server.go:376-384 | Once ready, a group stays ready until its next configuration |
| `ShardServer.ShardKV.OnCommand` | src/shardkv/server.go:454-561 | One committed command takes the replica to the specified state, or is stale; an operation is answered only where its shard is served |
| `ShardServer.ShardKV.OnApplyMsg` | src/shardkv/server.go:438-575 | One delivered message, command or snapshot, takes peer and service to the state the cluster model gives them; a snapshot is taken exactly when the state is too large and the command was neither stale nor refused |
| `ShardServer.ShardKV.UpdateShardsState` | src/shardkv/server.go:586-606 | Every shard gets its place in the new configuration |
| `ShardServer.ShardKV.MergeShardData` | src/shardkv/server.go:269-275 | The shard's data overrides, and the shard is served |
| `ShardServer.ShardKV.MergeClientSeqNum` | src/shardkv/server.go:278-284 | Each client's higher sequence number |
| `ShardServer.ShardKV.DropShard` | src/shardkv/server.go:542-546 | Exactly the keys of the shard are gone |
| `ShardServer.ShardKV.ApplyToStateMachine` | src/shardkv/server.go:608-619 | The operation's effect and the client's sequence number are recorded |
| `ShardServer.ShardKV.ShardsStateReady` | src/shardkv/server.go:376-384 | Whether no shard is on its way |
| `ShardServer.ShardKV.ShardsRequestHandler` | src/shardkv/server.go:202-235 | The shard and all sequence numbers, only in the same configuration and while BEPULLED |
| `ShardServer.ShardKV.ShardsIn` | src/shardkv/server.go:151-156 | Exactly the shards in a given state |
| `ShardServer.ShardKV.WantsConfig` | src/shardkv/server.go:350-361 | Fetches the next configuration when there is a newer one and the group is ready or has none |
| `ShardServer.ShardKV.ReadSnapshot` | src/shardkv/server.go:408-429 | The state becomes the snapshot's |
| `ShardServer.Key2Shard` | src/shardkv/client.go:25-32 | The first byte of the key's UTF-8 encoding modulo the number of shards, 0 for the empty key |
| `Utf8.ShardOfKey` | src/shardkv/client.go:25-32 | The shard of a key is its first byte modulo their number; for an ASCII character, its code |
| `Utf8.SameFirst` | src/shardkv/client.go:25-32 | Keys with the same first character are in the same shard |
| `Utf8.RoundTrip` | src/shardkv/client.go:25-32 | The bytes of a key determine the key: decoding gives its characters back |

## Left out

- Liveness under a fair schedule: what is proved is that from every reachable state a leader can be elected, commands
  applied and shards brought where they belong (`RaftRecovery.RecoversExactlyWithPeers`,
  `ShardArrival.ArriveExactlyWhenConnected`), not that timers and goroutines make it happen.
- Confirmations that ask a group which does not own the shard under their number: runs with them are shown to lose
  shards, and the theorems about the store are for runs without them, see above.
- Exactly-once for the controller, which never records sequence numbers; none is claimed.
- The retry loops of the clerks: a clerk is a sequence of issued operations, any of which may be requested again at any
  time; addresses, leader hints and error replies are not modelled.
- The killed searches of the checker and the partial linearizations kept for display.
- Events as input of the checker (`renumber`, `convertEntries`), which only renumber a history.
- Encoding and decoding, the network simulation and the persister beyond atomic save.
- The MapReduce part, the command-line programs and the test harness.
