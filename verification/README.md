# Verified models of a Raft-based sharded key/value store

This project models, in Dafny, the five parts of the repository that carry its guarantees, and proves what they are
for.  `dafny verify dfyconfig.toml` checks everything.

- **Raft** (`Raft*.dfy`).  `RaftHandlers` says what each handler body makes of one peer's state, and `RaftServer.Raft`
  is the imperative peer proved against it.  `RaftProtocol` puts any number of peers and a network that loses, delays,
  reorders and repeats messages into one step system with kills and restarts.  `RaftInvariant` to `RaftSafety` prove
  safety over every run, `RaftTerms` is about terms and votes over runs, `RaftHanded` about what a peer hands to its
  service, `RaftElections` shows which clusters can elect a leader, and `RaftBacktrack` proves the fast backtracking
  exact and quick.  `RaftLate` and `RaftUntimely` settle what happens without the premise on captured terms (below):
  clusters of at most four peers stay safe, larger ones do not.
- **Linearizability checker** (`Linearizability`, `Bitset`, `EntryList`, `Rank`, `Search`, `Checker`, `CheckSingle`,
  `Entries`, `KvModel`).  The depth-first search on a doubly linked list with lift and unlift, a stack and a hashed
  cache decides exactly the simple definition of linearizability, and checking key by key decides it for the whole
  store.
- **Shard migration** (`Shard*.dfy` without `ShardCtrler`).  Any number of replica groups, shards and configurations.
  Each group is one replicated state; monitors and pulls may read any state the group ever had; a proposed command may
  be applied at any later time, repeatedly or never.  `ShardStages` to `ShardProgress` are about the migration itself,
  for any configurations; `ShardInvariant` to `ShardExact` are about the data, and `ShardLinear` proves that whatever
  clients observe is linearizable as one key/value store.  `ShardForced` to `ShardOnce` say exactly when only one group
  serves a shard and when a request is executed only once, with runs built to a plan (`ShardSchedule`) for the failures.
  `ShardAnswers` says what every command means to a group, and `ShardReplica` ties the servers to the group's one state.
- **Shard controller** (`Loads`, `Rebalance`, `CtrlerSpec`, `ShardCtrler`).  The rebalancing loop, in place on an
  array, for any number of shards and groups, and the operations that append configurations.  `ShardedStore` joins it
  to the migration protocol.
- **Deduplicating server** (`KvServer`, `Deliveries`, `KvReplicas`).  A log with client retries, restarts from snapshots,
  and commands and snapshots that arrive in any order; `KvReplicas` puts the servers on top of the Raft peers.

`Requests` holds what the servers share: requests, and the table of the last request of each client.  `Basics` holds
small functions.

## Premises

Where the code is looser than its guarantees need, the premise is explicit.

- `Timely`: a replication round captures its term (src/raft/raft.go:714) but checks only that the peer still leads
  before it sends (src/raft/raft.go:726).  `SafeUpToFour` proves that all runs are safe without any premise exactly in
  clusters of at most four peers.  In larger clusters the Raft theorems are about runs in which a send happens in the
  captured term; `UntimelySendsAreUnsafe` gives a run without this that commits two different entries at one index.
  A `CalmRun` is a run with timely sends or with at most four peers.
- `KeepsOwner`: a shard given to gid 0 is neither pulled nor handed over (src/shardkv/server.go:361 and 368), so the
  theorems on data, on the only server of a shard and on requests executed once assume that a shard that nobody owns for
  a while goes back to its last owner.  Each property has its exact condition on the configurations: `ExactlyWhen` proves
  that no run loses a write if and only if `KeepsOwner` holds.  `SingleExactly` proves that no two groups ever serve a
  shard if and only if the later owner always has to wait for the earlier one (`Separated`).  `OnceExactly` proves that no
  write is ever executed twice if and only if the earlier owner's table always reaches the later one (`Told`).
  `StoreSafe` derives `KeepsOwner` from the controller as long as not every group leaves, and `EveryoneLeft` shows all
  three failures when every group leaves and only others join.
- Messages in turn: Raft sends commands and snapshots without holding its lock (src/raft/raft.go:304-310 and 1047-1057),
  so they may arrive out of order.  `InTurnExactly` proves for the key/value server, and `NeverBackExactly` for the shard
  server, exactly which orders keep a server at the newest state it has heard of.  The key/value server remembers 0 after
  a snapshot (src/kvraft/server.go:258) and can go back to an older one, as `OlderSnapshotLoses` shows; the shard server
  (src/shardkv/server.go:254) never goes back.  `SentInTurn` proves that the order in which Raft sends is fine for both.
- A repeated query is answered with the zero configuration (src/shardctrler/server.go:332-334): `QueryExactly`.
- Client ids are distinct, and a client issues its next request only after an OK to the one before; Move names an
  existing shard; for `NextPlaced` and the composed store gids are positive and Move names a joined group; an
  operation's return time is not before its call time.
- A cluster of one peer never elects a leader, because votes are counted only when answers arrive
  (src/raft/raft.go:681-689): `CanLead` proves that some run has a leader exactly when there are two peers or more.
- A check of an empty history has no part to wait for and ends only by its timeout, with `Unknown`.

## Model

| member | source | states |
|---|---|---|
| RaftServer.Raft.constructor | src/raft/raft.go:992-1027 | a peer made from persisted state is the restart of every peer that left that state behind |
| RaftServer.Raft.Persist | src/raft/raft.go:157-175 | the stored term, vote and log are the current ones |
| RaftServer.Raft.BecomeFollower | src/raft/raft.go:337-344 | the new state is the follower of that term without a vote, and it is persisted |
| RaftServer.Raft.BecomeLeader | src/raft/raft.go:346-356 | every next index is behind the log and every match index 0 |
| RaftServer.Raft.RequestVote | src/raft/raft.go:389-438 | state and reply are those of the vote rule: term, one vote, up-to-date log, dead peers answer nothing |
| RaftServer.Raft.StartElection | src/raft/raft.go:649-665 | the next term, a vote for itself, and the request with its last entry |
| RaftServer.Raft.HandleVoteReply | src/raft/raft.go:672-698 | votes count only for the same candidacy, a majority makes it leader, a larger term a follower of that term without a vote |
| RaftServer.Raft.Start | src/raft/raft.go:507-536 | a leader appends the command at the returned index and term; other roles refuse |
| RaftServer.Raft.MakeAppend | src/raft/raft.go:756-769 | the message carries the log from the peer's next index to its end, numbered consecutively |
| RaftServer.Raft.FindMismatch | src/raft/raft.go:924-936 | the scan finds how many entries the log already holds |
| RaftServer.Raft.FindConflict | src/raft/raft.go:961-970 | the scan finds where the run of the conflicting term starts |
| RaftServer.Raft.Overwrite | src/raft/raft.go:924-946 | the log is kept or cut at the first mismatch and continued with the message |
| RaftServer.Raft.AcceptEntries | src/raft/raft.go:922-954 | merged log, and a commit index of at most the last index |
| RaftServer.Raft.AppendEntries | src/raft/raft.go:887-981 | state and reply agree with the handler in every case: dead, stale term, before the log, accepted, both kinds of conflict |
| RaftServer.Raft.CountHolders | src/raft/raft.go:821-826 | the count is the number of peers known to hold the index |
| RaftServer.Raft.AdvanceCommit | src/raft/raft.go:819-835 | the loop computes the commit scan |
| RaftServer.Raft.FindLastWithTerm | src/raft/raft.go:845-854 | the scan finds the leader's last entry of the term, or none |
| RaftServer.Raft.HandleAppendReply | src/raft/raft.go:807-880 | success advances match, next and commit index; a conflict moves the next index back and repeats, and nothing else does; a larger term makes it a follower of that term without a vote |
| RaftServer.Raft.TakeCommitted | src/raft/raft.go:1031-1043 | the entries handed over are all those behind lastApplied up to commitIndex, which then counts as applied |
| RaftServer.Raft.Kill | src/raft/raft.go:547-560 | a killed peer is dead and otherwise unchanged |
| RaftSafety.NeverOutOfRange | src/raft/raft.go:708-981 | in every state that satisfies the invariant no enabled step, late sends included, indexes outside a log |
| RaftSafety.StepKeeps | src/raft/raft.go:389-1060 | every handler, kill and restart keeps the whole invariant; a late send does in clusters of at most four peers |
| RaftSafety.RunInv | src/raft/raft.go:389-1060 | every state of every calm run satisfies the invariant |
| RaftSafety.ElectionSafety | src/raft/raft.go:389-438 | over a whole run at most one peer leads a term, and a leader only appends |
| RaftSafety.LogMatchingOverTime | src/raft/raft.go:922-946 | logs with the same term at an index, at any two times, are equal up to it |
| RaftInvariant.QuorumsMeet | src/raft/raft.go:684-687 | two majorities of the peers share a peer |
| RaftInvariant.ChosenStays | src/raft/raft.go:415-428 | an entry held by a majority in its leader's term is in the log of every later winner |
| RaftInvariant.UpToDateHolds | src/raft/raft.go:415-428 | a winner whose log is at least as recent as a voter's holds what the voter held of a chosen log |
| RaftReplication.MergeMeaning | src/raft/raft.go:924-946 | accepting a message leaves the log alone where it agrees with the leader, else makes it the leader's log |
| RaftReplication.CommitChosen | src/raft/raft.go:819-835 | whatever the leader's commit scan newly commits is chosen: an entry of its own term that a majority holds |
| RaftSafety.StateMachineSafety | src/raft/raft.go:1031-1057 | in every calm run two peers never commit different entries at an index, at any two times and across restarts |
| RaftSafety.LeaderCompleteness | src/raft/raft.go:819-835 | in every calm run a committed entry is in the log of every leader of a term after the last one of the committing peer's log, before, at or after the commit, and of that last term's leader from then on |
| RaftSafety.LaterLeadersComplete | src/raft/raft.go:819-835 | in timely runs the same for the leaders of all terms after the one in which the peer committed |
| RaftSafety.FollowerCommitSafe | src/raft/raft.go:922-954 | in every calm run, after accepting, a follower holds one leader's log to the end of the message, that of the message's term unless it was sent late, and commits exactly as far as the message says |
| RaftTerms.VoteExactly | src/raft/raft.go:389-438 | a vote is given exactly for a term not below the peer's, to a log at least as recent, once per term; the answer tells the peer's term |
| RaftTerms.AppendExactly | src/raft/raft.go:887-981 | a message is accepted exactly when its term is not below the peer's and the log holds its previous entry; the peer then follows that term |
| RaftTerms.ResponseExactly | src/raft/raft.go:807-880 | a leader sends again exactly after a refusal in its own term, and only the answering peer's indices change |
| RaftTerms.RestartExactly | src/raft/raft.go:992-1027 | a restarted peer depends on nothing but what was stored |
| RaftTerms.FirstStart | src/raft/raft.go:992-1027 | a peer that has stored nothing starts as the runs do |
| RaftTerms.TermsAndVotesStay | src/raft/raft.go:337-438 | over every run, late sends and restarts included, a term never falls and a vote never changes within a term |
| RaftTerms.LearnsTerm | src/raft/raft.go:672-981 | in every calm run a peer that heeds a message is then in the larger of both terms, and follows a larger one without a vote unless asked for it |
| RaftHanded.BatchMeaning | src/raft/raft.go:1038-1043 | a batch has as many entries as are committed and not applied, numbered on from the last applied one, as the log holds them |
| RaftHanded.HandedExactly | src/raft/raft.go:1031-1057 | over every calm run, what a peer has handed over since its restart is exactly its log from the first entry to the last applied one, each once and in order |
| RaftBacktrack.AcceptsIff | src/raft/raft.go:922 | a follower accepts a message exactly when its previous index is within the agreement of the two logs |
| RaftBacktrack.FastBacktrack | src/raft/raft.go:841-865 | each refusal strictly lowers the next index but never below the agreement point plus one |
| RaftBacktrack.SearchesAgree | src/raft/raft.go:955-972 | fast backtracking and decrementing by one end at the same next index |
| RaftBacktrack.RefusalMeaning | src/raft/raft.go:955-972 | a refusal tells where the log ends, or the term at the refused index and where its run begins |
| RaftBacktrack.SkipsTerm | src/raft/raft.go:841-869 | after a refusal the next probe is accepted or meets the follower at an earlier term |
| RaftBacktrack.FewRefusals | src/raft/raft.go:841-869 | the search is refused at most once for each term in which the follower differs, and twice more, however many entries there are |
| RaftBacktrack.SearchWorksInRuns | src/raft/raft.go:841-869 | between any leader and follower of the same term in a calm run both searches end at the agreement point plus one |
| RaftBacktrack.CommitGreatest | src/raft/raft.go:819-835 | the scan reaches every index of the current term that a majority holds |
| RaftElections.CanLead | src/raft/raft.go:681-689 | some run of n peers has a leader if and only if n is at least two |
| RaftLate.NewestWins | src/raft/raft.go:415-428 | with at most four peers, while one peer takes no part, every leader starts at least as recent as all that earlier leaders had |
| RaftLate.CoversAll | src/raft/raft.go:714-769 | a peer that stayed behind and accepts a late message gets a log that holds everything the leaders had since its term |
| RaftUntimely.UntimelySendsAreUnsafe | src/raft/raft.go:714-769 | in every cluster of at least five peers some run commits two different entries at one index |
| RaftUntimely.UnsafeRunsAreUntimely | src/raft/raft.go:714-769 | every run that commits two different entries at one index, at any two times, has at least five peers and an untimely send |
| RaftUntimely.SafeUpToFour | src/raft/raft.go:714-769 | all runs of n peers are safe, whatever their sends, if and only if n is at most four |
| Linearizability.CompletableIffLinearizable | src/porcupine/model.go:28-31 | choosing minimal operations one at a time succeeds exactly when some full order respects time and the model |
| Linearizability.EqualStates | src/porcupine/checker.go:145-152 | states the model calls equal complete the same operations |
| Linearizability.EmbeddedCompletable | src/porcupine/checker.go:48-60 | only inputs, outputs and the order of calls and returns matter |
| Bitset.NewBitset | src/porcupine/bitset.go:10-17 | a new bitset has room for the bits and is empty |
| Bitset.Clone | src/porcupine/bitset.go:19-23 | the copy has the same words in a fresh array |
| Bitset.Set | src/porcupine/bitset.go:29-33 | the set gains exactly that position |
| Bitset.Clear | src/porcupine/bitset.go:35-39 | the set loses exactly that position |
| Bitset.Equals | src/porcupine/bitset.go:62-72 | the loop decides equality of the words |
| Bitset.SameSet | src/porcupine/bitset.go:62-72 | words of the same length are equal exactly when they hold the same set |
| Bitset.Hash | src/porcupine/bitset.go:54-60 | the loops mix the population count with the exclusive-or of all words |
| Bitset.PopCountIsSize | src/porcupine/bitset.go:46-52 | the population count is the size of the set |
| Bitset.HashMeaning | src/porcupine/bitset.go:54-60 | each bit of the bucket number comes from the size of the set and the parity of that bit over all words |
| EntryList.Entries.InsertBefore | src/porcupine/checker.go:70-81 | next and prev after inserting a node before a mark |
| EntryList.Entries.Lift | src/porcupine/checker.go:159-167 | the list loses exactly the pair, the pair remembers its place, and lifted nodes stay untouched |
| EntryList.Entries.Unlift | src/porcupine/checker.go:169-177 | a pair that remembers its place is put back exactly there |
| Checker.CacheContains | src/porcupine/checker.go:145-152 | on a cache whose entries are filed by hash: found exactly when some entry anywhere has the same set with an equal state |
| Checker.OneBucket | src/porcupine/checker.go:145-152 | equal sets share a bucket, so the one bucket decides whether a configuration is known |
| Checker.HitIsDead | src/porcupine/checker.go:198-210 | a configuration found in the cache and not on the stack cannot be completed, so skipping it loses nothing |
| Checker.MakeLinkedEntries | src/porcupine/checker.go:121-138 | the list links all entries in order and each call to its return |
| Search.DeadEnd | src/porcupine/checker.go:214-217 | at a return entry nothing tried at this level can be completed |
| Search.FullStack | src/porcupine/checker.go:244-252 | with all entries lifted the stack is a linearization |
| CheckSingle.Backtrack | src/porcupine/checker.go:235-241 | popping keeps the loop invariant and makes progress |
| CheckSingle.TryCall | src/porcupine/checker.go:194-213 | descending, a cache hit or a refused step keeps the loop invariant and makes progress |
| CheckSingle.CheckSingle | src/porcupine/checker.go:179-253 | terminates and returns true exactly when the history is linearizable, with a linearization |
| EntriesOfHistory.ArrangedPlaces | src/porcupine/checker.go:39-60 | any sort by time with calls first yields a well-formed history that orders calls and returns as the times do |
| EntriesOfHistory.MakeEntries | src/porcupine/checker.go:48-60 | the result is such a sort of exactly the entries of all operations |
| EntriesOfHistory.SameHistory | src/porcupine/checker.go:48-60 | the entries are linearizable exactly when the operations are |
| KvModel.KeysToStore | src/models/kv.go:18-57 | if every key can be completed by itself, so can the whole store |
| KvModel.StoreToKeys | src/models/kv.go:18-57 | if the whole store can be completed, so can every key |
| KvModel.Locality | src/porcupine/model.go:28-31 | a multi-key history is linearizable exactly when each key's history is |
| KvModel.LinearizableMeans | src/models/kv.go:41-57 | a history is linearizable exactly when, in some order that respects time, every get and every append with a return value returns what the puts and appends before it on its key have left |
| KvModel.Group | src/models/kv.go:19-23 | the map holds each key's history, for exactly the keys that occur |
| KvModel.Partition | src/models/kv.go:18-34 | the complete histories of exactly the keys that occur, none empty, in increasing key order |
| KvModel.CheckPart | src/porcupine/checker.go:365-373 | one part is accepted exactly when it is linearizable |
| KvModel.CheckOperations | src/porcupine/checker.go:274-373 | Ok exactly when the multi-key history is linearizable, that is, explained by some order of its operations; Unknown only for the empty history |
| ShardServer.ShardKV.constructor | src/shardkv/server.go:740-754 | configuration 0 and every shard empty and serving |
| ShardServer.ShardKV.CheckShardAndState | src/shardkv/server.go:182-190 | true exactly when the group owns and serves the shard |
| ShardServer.ShardKV.CheckInvalid | src/shardkv/server.go:218-225 | true exactly for requests at or below the client's entry |
| ShardServer.ShardKV.RecordRequest | src/shardkv/server.go:346-351 | the client's entry becomes the larger number |
| ShardServer.ShardKV.DoGetPutAppend | src/shardkv/server.go:325-344 | wrong group exactly for a shard of another gid or one on the move; repetition, read and write: new state and reply |
| ShardServer.ShardKV.DoAddConfig | src/shardkv/server.go:353-383 | the next configuration sets each shard's state by its change of owner; any other number changes nothing |
| ShardServer.ShardKV.DoInsertShard | src/shardkv/server.go:385-412 | pulling shards get the data in any map order, and the table is merged by maximum |
| ShardServer.ShardKV.DoDeleteShard | src/shardkv/server.go:414-435 | only shards being pulled are cleared, at the same configuration only; the answer is OK unless the group lags |
| ShardServer.ShardKV.DoAdjust | src/shardkv/server.go:437-456 | the listed shards serve, at the same configuration only |
| ShardServer.ShardKV.GetShardIdsWithState | src/shardkv/server.go:556-568 | the shards in a state, grouped by their previous owner |
| ShardServer.ShardKV.GetShards | src/shardkv/server.go:570-592 | copies of the shards being pulled and of the table, at the same configuration only |
| ShardServer.ShardKV.Execute | src/shardkv/server.go:298-323 | every command kind is dispatched to its effect and answer |
| ShardServer.ShardKV.ApplyCommand | src/shardkv/server.go:232-247 | a command with an old index changes nothing |
| ShardServer.ShardKV.ApplySnapshot | src/shardkv/server.go:248-255 | an old snapshot changes nothing, a new one replaces all replicated state |
| ShardServer.ShardKV.Applier | src/shardkv/server.go:227-258 | after any messages in any order the server is where the deliveries put it |
| ShardServer.NeverBackExactly | src/shardkv/server.go:227-258 | in any order of messages the server never goes back, and it is always at the newest state it has heard of, for every log, if and only if no command is skipped |
| ShardAnswers.RefusedExactly | src/shardkv/server.go:325-330 | ErrWrongGroup exactly when the shard belongs to another gid or is to be pulled or given away, and then nothing changes |
| ShardAnswers.AnsweredMeaning | src/shardkv/server.go:331-351 | a get returns its key's value; a new write changes its key and the client's entry only; a repeated write changes nothing |
| ShardAnswers.ConfigMeaning | src/shardkv/server.go:353-383 | only the next configuration is taken, and each shard's state follows from its old and new owner |
| ShardAnswers.InsertMeaning | src/shardkv/server.go:385-412 | only waiting shards of the present configuration get the values that came; each client's entry becomes the larger one |
| ShardAnswers.DeleteMeaning | src/shardkv/server.go:414-435 | only listed shards that are to be given away are cleared |
| ShardAnswers.AdjustMeaning | src/shardkv/server.go:437-456 | only listed shards start to serve |
| ShardAnswers.RunRefuses | src/shardkv/server.go:325-330 | in every run a group refuses every request on a shard that its configuration gives to another gid, and answers those on its own once settled |
| ShardReplica.ExecutesStep | src/shardkv/server.go:298-323 | a server that executes a command does what the group's step does, and an OK to a delete is what leads to the adjustment |
| ShardReplica.GroupIsReplay | src/shardkv/server.go:227-247 | in every run a group's state is what its log makes of a fresh server |
| ShardReplica.ServerInPast | src/shardkv/server.go:227-258 | a server that got any part of the log without a skipped command is in a state that the group had |
| ShardSafety.StepKeeps | src/shardkv/server.go:353-673 | every step can be taken and keeps the whole invariant |
| ShardSafety.RunInv | src/shardkv/server.go:353-673 | every state of every run satisfies the invariant |
| ShardSafety.SingleServer | src/shardkv/server.go:182-190 | where unowned shards go back to their last owner, at most one group serves a shard, whatever configurations the groups are at |
| ShardSafety.NoWriteLost | src/shardkv/server.go:385-412 | who serves a shard has exactly the accepted writes in order, and some group always has them all |
| ShardSafety.ClearedAfterInstalled | src/shardkv/server.go:414-425 | when an old owner clears its copy, another group already has every accepted write |
| ShardSafety.AtMostOnce | src/shardkv/server.go:325-351 | where unowned shards go back to their last owner, a request changes shard data at most once over all groups and configurations |
| ShardSafety.AcceptedGrow | src/shardkv/server.go:325-344 | accepted writes are never taken back or reordered |
| ShardSafety.OkMeansOnce | src/shardkv/server.go:202-206 | an OK to a write means it changed its shard exactly once |
| ShardSafety.GetReadsAll | src/shardkv/server.go:331-334 | an answered Get returns what all accepted writes left |
| ShardLinear.StoreIsLinearizable | src/shardkv/client.go:71-140 | whatever clients observe in a run, across all groups and migrations, is linearizable as one store and on every key |
| ShardStages.StepStages | src/shardkv/server.go:353-673 | for any configurations: every enabled step can be taken and keeps the stages of the migration |
| ShardStages.RunStages | src/shardkv/server.go:353-673 | for any configurations: every state of every run satisfies the stages |
| ShardStages.NeverMalformed | src/shardkv/server.go:298-323 | for any configurations: no run meets a command that names shards or configurations that do not exist |
| ShardStages.ChecksSurvive | src/shardkv/server.go:475-500 | for any configurations: a group enters the next one only with all shards serving, and an adjustment never hits a shard that is pulling or being pulled |
| ShardProgress.NeverRises | src/shardkv/server.go:353-456 | for any configurations: no step raises the measure, and a step that moves a group on lowers it |
| ShardProgress.SomeoneCanMove | src/shardkv/server.go:466-662 | for any configurations: while a group lags or a shard is on the move, steps that lower the measure are enabled |
| ShardProgress.NeverDeadlocks | src/shardkv/server.go:466-662 | for any configurations: from every reachable state the migration can be completed, with measure 0, and the measure can be lowered exactly until then |
| ShardExact.ExactlyWhen | src/shardkv/server.go:361-370 | where every shard holds some key: no run loses a write if and only if unowned shards go back to their last owner |
| ShardExact.LosingRun | src/shardkv/server.go:361-370 | otherwise some run serves a shard without its accepted writes |
| ShardForced.ForcedThere | src/shardkv/server.go:466-673 | for any configurations: groups that exchange a shard wait for each other, so a group at a configuration tells how far others have got |
| ShardForced.SeparatedOneServer | src/shardkv/server.go:182-190 | where the later owner always waits for the earlier one, no two groups serve a shard |
| ShardSchedule.FollowPlan | src/shardkv/server.go:466-662 | every consistent plan of where each group stops can be followed, spreading a client's entry only where it must |
| ShardSingle.SingleExactly | src/shardkv/server.go:182-190 | no run has two servers of a shard if and only if the later owner always waits for the earlier one |
| ShardSingle.KeepsSeparated | src/shardkv/server.go:361-370 | going back to the last owner is enough for that |
| ShardOnce.StepKnows | src/shardkv/server.go:385-412 | for any configurations: whoever must have got a table through pulls has what an earlier owner executed, in every step |
| ShardOnce.OnceExactly | src/shardkv/server.go:325-351 | where every shard holds some key: no run executes a write twice if and only if the earlier owner's table always reaches the later one before it serves |
| ShardOnce.ToldSeparated | src/shardkv/server.go:570-592 | where tables always arrive, the later owner always waits |
| ShardOnce.KeepsTold | src/shardkv/server.go:361-370 | going back to the last owner is enough for tables to arrive |
| ShardCtrler.FindMaxAndMinGid | src/shardctrler/server.go:452-471 | the unique maximum (nobody first) and minimum, ties to the smallest gid, for any gids and any map order; -1 without a gid but 0 |
| ShardCtrler.AdjustShards | src/shardctrler/server.go:424-449 | for any gids: terminates with the one result that the groups and the assignment determine |
| ShardCtrler.ShardCtrler.ProcessJoin | src/shardctrler/server.go:349-364 | appends the next configuration with the joined groups and their servers, whatever their gids, the others unchanged, rebalanced |
| ShardCtrler.ShardCtrler.ProcessLeave | src/shardctrler/server.go:366-386 | appends the next configuration without the leaving groups, the others unchanged, their shards vacated and rebalanced |
| ShardCtrler.ShardCtrler.ProcessMove | src/shardctrler/server.go:388-400 | appends the next configuration with the shard on the named gid and nothing else changed |
| ShardCtrler.ShardCtrler.ProcessQuery | src/shardctrler/server.go:402-410 | the configuration of that number, or the latest |
| ShardCtrler.ShardCtrler.CopyGroups | src/shardctrler/server.go:412-422 | an equal copy of the latest groups |
| ShardCtrler.ShardCtrler.Execute | src/shardctrler/server.go:330-347 | a repeated request changes nothing; history only grows, numbered without gaps; queries are answered as `Answer` says |
| ShardCtrler.QueryExactly | src/shardctrler/server.go:330-347 | a query is answered with the configuration it asks for if and only if it is not repeated or asks for the first one |
| Loads.IdleMove | src/shardctrler/server.go:444-447 | moving an unowned shard to the smallest group lowers the distance by exactly one |
| Loads.LevelMove | src/shardctrler/server.go:444-447 | moving a shard from the largest to the smallest group lowers the distance by exactly one |
| Rebalance.MoveCloser | src/shardctrler/server.go:437-448 | every move of the loop lowers the distance to balance by exactly one |
| Rebalance.EveryBalancedChanges | src/shardctrler/server.go:424-449 | every balanced assignment differs in at least that distance |
| Rebalance.MinimalMovement | src/shardctrler/server.go:424-449 | the result is balanced and changes no more shards than any balanced assignment |
| Rebalance.NoShardMovedTwice | src/shardctrler/server.go:437-448 | the moved shards are distinct and as many as the changed ones |
| Rebalance.FrontGoesFirst | src/shardctrler/server.go:444-447 | a group gives its shards away from the front of its list |
| CtrlerSpec.AdjustedBest | src/shardctrler/server.go:424-449 | for any shard count and non-empty groups: every shard on a group, shares within one, least movement |
| CtrlerSpec.AdjustedStable | src/shardctrler/server.go:439-441 | a balanced assignment is left alone |
| CtrlerSpec.LowestGiven | src/shardctrler/server.go:433-447 | the shards that a group loses are its lowest ones |
| CtrlerSpec.JoinMeaning | src/shardctrler/server.go:349-364 | joined gids are there with their servers, other groups as before, shards spread evenly with least movement, lowest first |
| CtrlerSpec.LeaveMeaning | src/shardctrler/server.go:366-386 | no leaving gid is among the groups or owns a shard, other groups as before, shards spread evenly with least movement; the one exception is -1 where only a group 0 remains |
| CtrlerSpec.MoveMeaning | src/shardctrler/server.go:388-400 | the shard is on the named gid, every other shard keeps its owner, and the groups are unchanged |
| CtrlerSpec.NextPlaced | src/shardctrler/server.go:349-400 | with positive gids every operation keeps all shards on joined groups, or on nobody when there are none |
| ShardedStore.StoreSafe | src/shardctrler/server.go:349-400 | while not every group leaves, the controller keeps the store's premise, and no run loses a write |
| ShardedStore.EveryoneLeft | src/shardctrler/server.go:366-378 | if every group leaves and only others join, some run loses a write, some run has two servers of a shard, and some run executes a write twice |
| KvServer.KVServer.DoExecute | src/kvraft/server.go:294-312 | repeated writes are ignored; reads return the value; the table follows |
| KvServer.KVServer.ApplyCommand | src/kvraft/server.go:218-244 | a command with an old index changes nothing |
| KvServer.KVServer.ApplySnapshot | src/kvraft/server.go:246-259 | an old snapshot changes nothing; a new one replaces the state and records the command index |
| KvServer.KVServer.Applier | src/kvraft/server.go:211-262 | after any messages in any order the server is where the deliveries put it; in turn, it is at the newest state |
| KvServer.KVServer.ApplyFrom | src/kvraft/server.go:211-244 | applying the log from any earlier point ends in the state of the whole log |
| KvServer.TableMeaning | src/kvraft/server.go:161-169 | a request is refused exactly when the client was seen with this number or a later one |
| KvServer.FirstWritesExactly | src/kvraft/server.go:294-320 | the server performs exactly each write once, where it first occurs, if and only if no write comes first after a later number of its client |
| KvServer.ExactlyOnce | src/kvraft/server.go:294-320 | a log whose writes are in order has the effect of its first occurrences, retries and reads anywhere |
| KvServer.OvertakenIsLost | src/kvraft/server.go:298-300 | every write that first comes after a later number of its client has no effect, though it is a first occurrence |
| KvServer.AgainNothing | src/kvraft/server.go:298-320 | executing any applied commands again changes neither data nor table |
| KvServer.RestoreAnywhere | src/kvraft/server.go:246-281 | a snapshot followed by the log from any earlier point gives the state of the whole log |
| Deliveries.DeliverPrefix | src/kvraft/server.go:218-259 | one delivery keeps a server at a prefix of the log unless it skips a command, and the prefix shrinks exactly when a snapshot behind it is taken |
| Deliveries.AdvancesExactly | src/kvraft/server.go:246-259 | over any deliveries the prefix never shrinks exactly when no such snapshot arrives |
| Deliveries.SentInTurn | src/raft/raft.go:1031-1057 | what arrives in the order of sending is in turn |
| Deliveries.KeepingNeverBack | src/shardkv/server.go:248-255 | a server that remembers a snapshot's index never goes back and never repeats a command |
| KvServer.InTurnExactly | src/kvraft/server.go:211-262 | the key/value server is always at the newest state it has heard of, for every log, if and only if no command is skipped and no older snapshot is taken |
| KvServer.OlderSnapshotLoses | src/kvraft/server.go:246-259 | an older snapshot after a newer one loses a write that the next command does not bring back |
| KvReplicas.ReplicasAgree | src/raft/raft.go:1031-1057 | any two servers that executed what their peers handed them, at any two times of a calm run: the one with less holds the store the other had at that point and catches up with the other's requests |
| KvReplicas.OneLog | src/kvraft/server.go:211-262 | behind every calm run is one log of requests; a server whose messages come in turn is always at the newest store of it that it has heard of |
| KvReplicas.HandedOver | src/raft/raft.go:1047-1056 | what any peer hands over carries the log's commands from the first on, without gap or repetition, so it is in turn and leads to the store after that many commands |

## Left out

- Raft log compaction and InstallSnapshot: the logs of the Raft model are never cut at the front; what servers make of commands and snapshots in any order is modelled.
- Raft timers, tickers and goroutine scheduling: steps are enabled nondeterministically; liveness of elections is not claimed.
- Encoding, labrpc and labgob: messages and stored state are values; the network is a set of messages.
- The checker's partial linearizations, kill flag, timeout and visualization, and the event interface (renumber, convertEntries): the operation interface is modelled.
- KvModel.CheckOperations: checks the parts one after the other; the goroutines that check them in parallel are not modelled.
- The bitset's single-bit read: nothing in the checker uses it.
- Bitset.NewBitset: words are sequences of 64 bits rather than machine words.
- EntryList.Entries.Lift: pointers are indices into arrays of next and prev.
- KvModel.Partition: characters are compared as characters, not as bytes.
- Wait channels, timeouts and leadership checks around replies in the servers: a reply is the answer of the applied command.
- The retry loops of the clients: only their numbering of requests is modelled, as the condition for issuing the next one.
- Single servers of a group in the migration protocol: a group is one replicated state there, and its reads may be of any state it ever had.
- ShardGroup.KeyToShard: takes the code point of the key's first character, where the code takes the first byte of the key.
- src/mr, src/mrapps and src/main: a MapReduce coordinator that hands out map and reduce tasks over RPC and reissues them after a timeout, its workers and applications over files, and the command-line programs; they are not part of this model.
- src/kvsrv: a key/value store on one server behind a lock, which remembers the answer to each write until its client is done with it; it is not part of this model.
- The test drivers and their simulated networks: they are not part of this model.
