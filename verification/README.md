# A verified model of arcux

arcux is a distributed transactional key-value store: a hand-written Raft, Percolator transactions over an LSM
engine, a replicated placement driver (PD), and an eventually consistent mode repaired by Merkle anti-entropy.
This project models that code in Dafny and proves what it is for. `dafny verify dfyconfig.toml` checks all of it.

Code that updates state step by step is modelled by classes and loops proved against specification functions; the
theorems over whole runs are then about those functions. Clocks, timers, the network and the disk are parameters
or steps of a run, chosen by an adversary.

## How it is laid out

- **Raft** (`Raft*`). `RaftNode` gives one function an operation; `RaftPeer` is the
  node as an object, each method proved equal to its function. `RaftSystem` runs any number of nodes over a network
  that may lose, repeat and reorder messages, with crashes between any two inputs, after the term write of a message, and between
  the entries of one append.
  Safety is proved with a ghost history of ballots, reigns, acknowledgements and commits (`RaftHistory`,
  `RaftSteps`, `RaftOps`). `RaftInstall` adds snapshots sent between nodes. `RaftOrigin` and `RaftTags` say where entries and
  answers come from; `RaftProgress`, `RaftReach` and `RaftElect` what happens when messages get through.
- **Transactions** (`Percolator*`). Coordinators and readers are interleaved processes over one map per column
  family, in the engine's atomic form and in the server's split-step form. `PercolatorEngine` and `PercolatorCross`
  are the loops as written, for one region and for several.
- **Placement driver** (`PdTso*`, `PdReplica`, `Regions`, `Tables`, `Catalog`). Timestamps across failover, and the carving of
  the keyspace.
- **Engine** (`Codec`, `Formats`, `Exact`, `Wal`, `Sst*`, `Memtable`, `Runs`, `Lsm`, `Recovery*`, `FailedFlush`, `DataKeys`, `Mvcc`, `PlainKeys`,
  `MvccWrites`, `Scan`, `ScanOrder`, `ScanVersions`). From bytes on disk up to transactional writes, snapshot reads and scans;
  every level is shown to be one flat map. A store of *plain* keys is one whose user keys are of bytes below some byte `b`,
  and whose commit timestamps, as encoded, begin with `b` or more, which is to lie below (0x100 - `b`) times 2^56
  (`PlainKeys.TimelyIff`). ASCII keys stamped with milliseconds shifted by 18 bits are plain, with `b` = 0x80; so are keys
  without 0xff bytes under a counter below 2^56.
- **Raft storage and membership** (`RaftStorage`, `WalStorage`, `SortedIds`, `ConfChange`, `Membership`, `Reconf*`). `Reconf`
  is a group whose voters change while it runs: elections, appends, acknowledgements and commits are steps over a history
  that doubles as the network.
- **Convergence** (`Merkle`, `AntiEntropy`, `UpReplicate`).

## Where the code falls short of a promise

Each is proved as an exact condition, with an input that fails it.

- **A key that begins another defeats the conflict check.** Data keys have no terminator, and `check_prewrite` and
  `find_commit_ts` seek from the newest timestamp there can be. With "a" and "ab" both committed the seek for "a" lands on
  "ab": a transaction overwrites a commit of "a" made after it started, and a committed transaction whose primary is "a"
  is reported as rolled back (`MvccWrites.LostUpdate`). In a store of plain keys a conflict is seen, and a commit found, if
  and only if no committed key is longer and begins with that key (`MvccWrites.PlainConflict`, `MvccWrites.PlainCommit`);
  in any store, if and only if no version lies in the way of the seek (`MvccWrites.CheckIsRight`, `MvccWrites.FindCommitTs`).
- **Scans follow the order of bytes, not of keys.** `scan("", "ab")` meets "ab" first, stops, and misses "a"
  (`ScanOrder.ScanMisses`); `scan("ab", "")` returns "a" (`ScanOrder.ScanStrays`). At any timestamp an unlimited scan of plain
  keys is the range asked for if and only if no visible key of the range is overtaken, begins another or begins a committed
  key past the end, and every visible key that begins the start of the range is overtaken, or cut off by a committed key past
  the end (`ScanOrder.PlainScanIff`). No key is overtaken at a timestamp in use (`ScanOrder.TimelyScanIff`).
- **At the newest timestamp a key hides the keys that begin it.** The server scans at `u64::MAX`, where a seek for a key lands
  on any longer committed key it begins, deleted or not: with "a" put and "ab" deleted, reading "a" finds nothing and a scan
  of everything leaves it out (`ScanOrder.TopMisses`). There a read of plain keys is the snapshot if and only if the key has no
  value or begins no longer committed key (`PlainKeys.TopReads`), and `ScanOrder.TopScanIff` says when a scan is right.
- **Reads can be misled too.** A read finds the newest version at or below its timestamp if and only if no version of another
  key lies in the way (`Mvcc.SeekIsNewest`). Among plain keys, at any timestamp, that is a longer committed key at or after
  where the seek starts (`PlainKeys.PlainReads`), which no timestamp in use allows (`PlainKeys.TimelyReads`). With 0xff bytes
  even those are not safe: a commit of "a" 0xff hides one of "a" (`PlainKeys.ReadMisses`).
- **A leaderless read can answer with another key, or miss its own.** `ap_read_repair` and `ap_fetch` take the first version
  that `scan_versions` meets between a key and its successor. With "ab" there "a" reads as absent
  (`ScanVersions.PointMisses`); with only "a" there "ab" reads as what "a" holds (`ScanVersions.PointStrays`), and the caller
  drops the key it came with. Among plain keys the read is right if and only if the key, if it has a version, begins no
  longer committed key, and if it has none, every key with a version that begins it also begins a committed key past it
  (`ScanVersions.PointIff`). A range is listed right, for reconciling, if and only if no key of it begins a committed key
  past the end and every key that begins its start is cut off (`ScanVersions.ListingIff`); regions bounded by table prefixes
  always are (`ScanVersions.LongKeysListable`).
- **An installed snapshot drops what follows it in the log.** `handle_install_snapshot` clears the log whenever the snapshot
  is past the commit index. A snapshot that arrives after the entries beyond it takes acknowledged entries away, and two
  nodes commit different entries at one index (`RaftSnapshotLoss.CommitUndone`). Every run is safe if and only if a log that
  holds the snapshot's last entry at its term is kept (`RaftSnapshotLoss.SafeIffGuarded`).
- **A leader changes the membership before it has committed anything.** `propose_conf_change` waits for an earlier change it
  knows of, not for a commit of its own term. Two leaders' changes of one membership then leave majorities that do not
  meet, and both commit (`ReconfRace.ChangesCollide`). Every run is safe, with any number of changes, if and only if a leader
  waits for an entry of its own term to be the last committed (`ReconfRace.SafeIffGuarded`).
- **A restart forgets the read round.** `RaftNode::new` sets `read_round` to 0, so an append sent before a restart
  can be answered after it and confirm a read it knows nothing of. `RaftStaleRead.StaleRead` is such a run of
  three nodes. A read is linearizable whenever its node has not restarted (`RaftReads.UnbrokenReadLinearizable`), and among
  nodes that have it need not be (`RaftStaleRead.LinearizableIffNotRestarted`); it always would be if and only if restarts
  kept the round (`RaftStaleRead.LinearizableIffRoundsKept`).
- **`commit_primary` does not look at the lock.** It keeps atomicity if and only if the primary lock is still there
  (`PercolatorLate.CommitNeedsLock`); `PercolatorLate.LateCommit` is a run in which it is not.
- **The engine's status check reports a rollback without looking again.** Rolling a key back on the report is safe if and
  only if the primary has no commit record by then (`PercolatorLate.BlindReport`); `PercolatorLate.BlindRollback` is a run in
  which the commit comes between the look and the report. The check is therefore one atomic step in the other theorems.
- **`hand_out` does not look at `pending_reset`.** Timestamps are unique if and only if its caller does
  (`PdTsoEarly.UniqueIffGuarded`); `PdTsoEarly.HandedOutTwice` is a run in which one is handed out twice.
- **A failed flush is never made up for.** The memtable stays queued and the next one is flushed past it. What the store
  reads as is kept if and only if the queued memtable agrees with the flushed one on what they share and nothing newer holds
  (`Lsm.FlushedOutOfTurn`, `Lsm.StaleAgain`). The watermark passes its batches, so after a restart the store reads as its
  acknowledged history if and only if all they wrote was written again or was so before (`FailedFlush.FlushPastIff`,
  `FailedFlush.AckedLost`). Flushing the oldest first is always safe (`Lsm.Store.Flush`, `RecoveryProof.AckedSurvive`).
- **`apply_snapshot` writes the snapshot before it clears the log.** A crash between the two reopens to the installed
  state if and only if the old log did not reach past the snapshot, or its file was empty (`WalStorage.CrashInInstall`,
  `WalStorage.OldEntryReturns`).

## Model

| member | source | states |
|---|---|---|
| `RaftSystem.ElectionSafety` | raft/src/node.rs:593-704 | In every run, with crashes and restarts, two leaders of one term in any two states are the same node |
| `RaftSystem.LogMatching` | raft/src/node.rs:717-823 | In every run, two logs with one term at an index, in any two states, agree on every entry up to it |
| `RaftSystem.LeadersAreComplete` | raft/src/node.rs:665-690 | What a node has committed in one term is a prefix of the log of every leader of a later term |
| `RaftSystem.StateMachineSafety` | raft/src/node.rs:938-958 | Two nodes, in any two states of a run, agree at every index at or below both commit indexes |
| `RaftSystem.StreamsComparable` | raft/src/node.rs:554-561 | What two nodes have applied is prefix-comparable, and carries each index once, in order |
| `RaftSystem.IncarnationGrows` | raft/src/node.rs:554-561 | Until a node crashes its commit index never drops and its applied stream only grows |
| `RaftSystem.CommitNeverDrops` | raft/src/node.rs:809-811 | No operation lowers the commit index, given that appends never advertise a commit beyond the entries they anchor |
| `RaftSystem.StepInv` | raft/src/node.rs:482-543 | Every input, and every crash, keeps the invariant over nodes, messages and history, and the history only grows |
| `RaftSteps.LeaderCompleteness` | raft/src/node.rs:665-690 | Every reign begins with all that was committed in earlier terms: the argument from intersecting quorums, by the least later term |
| `RaftSteps.SettledAgree` | raft/src/node.rs:938-958 | Two committed prefixes agree on their common length |
| `RaftSteps.SpliceMatches` | raft/src/node.rs:782-807 | Splicing a leader's entries, in full or cut short by a crash, keeps every prefix shared with it and reaches as far as the append does |
| `RaftSteps.FirstReign` | raft/src/node.rs:692-704 | A candidate with a majority is the first leader of its term |
| `RaftSteps.GrantStep` | raft/src/node.rs:665-690 | Granting a vote keeps the invariant: the candidate holds what the voter acknowledged to counted leaders |
| `RaftSteps.CommitStep` | raft/src/node.rs:938-958 | Raising the commit index to an entry of the own term that a majority holds keeps the invariant |
| `RaftSteps.ConfirmedCovers` | raft/src/node.rs:372-394 | A round a majority acknowledged shows the commit index covers what was committed before it was registered |
| `RaftOps.DeliverStep` | raft/src/node.rs:482-543 | Handling any message of the network keeps the invariant |
| `RaftOps.TickStep` | raft/src/node.rs:275-320 | Elections, heartbeats, quorum checks and transfer expiry keep the invariant |
| `RaftOps.ProposeStep` | raft/src/node.rs:323-346 | A proposal keeps the invariant |
| `RaftOps.ReadIndexStep` | raft/src/node.rs:351-362 | Registering a read keeps the invariant and records what was committed when |
| `RaftOps.TransferStep` | raft/src/node.rs:455-480 | Handing leadership over keeps the invariant |
| `RaftOps.CrashMidwayStep` | raft/src/node.rs:482-543 | A crash while a message is handled, after the term write or after any number of an append's entries, keeps the invariant |
| `RaftReads.ReadIndexLinearizable` | raft/src/node.rs:351-394 | A confirmed read of a new round is at or past every commit index any node had in any state up to its registration, stale leaders and late answers included |
| `RaftReads.UnusedRound` | raft/src/node.rs:351-362 | As long as a node keeps its counter, no append in the network carries a round it has yet to use |
| `RaftReads.KeptRoundsLinearizable` | raft/src/node.rs:825-862 | Where restarts keep the round, every confirmed read is linearizable |
| `RaftReads.UnbrokenReadLinearizable` | raft/src/node.rs:351-394 | The code as it is: every confirmed read of a node that has not restarted before registering it is linearizable, whatever other nodes did |
| `RaftStaleRead.StaleRead` | raft/src/node.rs:164-206 | A run of three nodes in which a restarted leader confirms a read below an index already committed |
| `RaftStaleRead.LinearizableIffNotRestarted` | raft/src/node.rs:164-206 | The code as it is: the reads of nodes that did not restart are all linearizable, those of nodes that did are not |
| `RaftStaleRead.LinearizableIffRoundsKept` | raft/src/node.rs:164-206 | All confirmed reads of all runs are linearizable if and only if restarts keep the read round |
| `RaftInstall.InstalledStep` | raft/src/node.rs:868-918 | Under the guard, taking a snapshot keeps the node's invariant, and the index it answers with is held |
| `RaftInstall.AnsweredStep` | raft/src/node.rs:920-930 | A leader may count the answer as an acknowledgement |
| `RaftInstall.GuardedStep` | raft/src/node.rs:868-930 | Every input of a guarded group, snapshots and their answers included, keeps the invariant |
| `RaftInstall.GuardedIsSafe` | raft/src/node.rs:868-930 | In every run of a guarded group: nodes agree on what both committed, later leaders hold what was committed, and what nodes loaded and applied is prefix-comparable |
| `RaftSnapshotLoss.CommitUndone` | raft/src/node.rs:897-906 | Without the guard, a run without crashes in which a late snapshot leads two nodes to commit different entries at one index |
| `RaftSnapshotLoss.SafeIffGuarded` | raft/src/node.rs:897-906 | Every run is safe if and only if a log that holds the snapshot's last entry at its term is kept |
| `RaftInstall.SnapshotCatchesUp` | raft/src/node.rs:868-918 | A snapshot past what a node of no later term has committed brings it exactly that far, with or without the guard, and it answers with its commit index; any other changes nothing but whom it follows |
| `RaftInstall.AnswerGoesOn` | raft/src/node.rs:920-930 | A leader told so counts the peer as heard, never lowers what it knows of it, and goes on from there |
| `RaftOrigin.EntriesWereProposed` | raft/src/node.rs:323-346 | In every run, each entry of each log, of each append sent and of each applied stream was proposed before, to the leader of its term, at its index, with its data |
| `RaftOrigin.ActionWithin` | raft/src/node.rs:482-543 | No input puts into a log or an append anything but what a message brought or what a leader made of a command |
| `RaftOrigin.CommandTaken` | raft/src/node.rs:323-346 | What a leader with no transfer under way is given is the last entry of its log at once, and it counts itself |
| `RaftTags.ConfirmedWasRegistered` | raft/src/node.rs:351-394 | In every run, a confirmed read was registered with that node, in the term, under the round and with the tag it is confirmed with, and confirmed reads stand in the order of their rounds, each once |
| `RaftTags.InputPasses` | raft/src/node.rs:372-394 | While a node stays in office no other input loses, repeats, reorders or alters a read; out of office none is added, and an office begins with none |
| `RaftTags.RegisterQueues` | raft/src/node.rs:351-370 | A read registered with a leader joins the end of the queue under the next round |
| `RaftTags.TakeLeaves` | raft/src/node.rs:351-370 | Taking reads hands over the confirmed ones in order and leaves the waiting ones |
| `RaftProgress.FollowerAnswers` | raft/src/node.rs:717-823 | A follower of no later term takes all an append carries if its anchor fits, and changes nothing if not; it says which, echoes the round, and takes the commit index |
| `RaftProgress.RefusedSendsMore` | raft/src/node.rs:853-858 | A refusal of an append anchored at p > 0 makes the leader send one anchored at p - 1 with every entry from there on, and nothing else |
| `RaftProgress.AcceptedCounts` | raft/src/node.rs:842-852 | An acceptance is counted, and commits the whole log once a majority holds it and it ends in the own term |
| `RaftProgress.Repair` | raft/src/node.rs:825-862 | Log repair: from an append anchored at p, exchanging appends and answers ends within p + 1 rounds, with the follower holding the leader's log and the leader knowing it |
| `RaftProgress.HeartbeatRepairs` | raft/src/node.rs:275-320 | A heartbeat begins such an exchange with any peer, of at most one round more than the leader has entries |
| `RaftProgress.ProposeOffers` | raft/src/node.rs:323-346 | Taking a command sends every peer the log from where it is on, the command included |
| `RaftProgress.CrownOffers` | raft/src/node.rs:624-645 | A new leader counts itself, and offers every peer its log from the end |
| `RaftReach.MajorityCommits` | raft/src/node.rs:938-958 | A leader with an entry of its own term whose heartbeats reach a majority commits all it has, and each of them holds it |
| `RaftReach.Told` | raft/src/node.rs:809-811 | The next heartbeat raises the commit index of a follower that holds the log to the leader's |
| `RaftReach.RunRepairs` | raft/src/node.rs:825-862 | In any state of any run, a leader repairs the log of any follower of no later term, within one round more than it has entries |
| `RaftElect.Stands` | raft/src/node.rs:593-622 | When its election timer fires, a voter that does not lead stands in the next term, votes for itself and asks everyone else, and no one besides |
| `RaftElect.Answers` | raft/src/node.rs:665-690 | A vote is given if and only if the voter is free in the term and the candidate's log is at least as up to date; the voter remembers it |
| `RaftElect.Elected` | raft/src/node.rs:692-704 | A candidate leads its term if and only if it and the voters who granted are a majority; short of that it still stands with exactly their votes |
| `RaftElect.WinsElection` | raft/src/node.rs:593-704 | A candidate that reaches a majority of no later term, none of them ahead of it, leads the next term |
| `RaftElect.TakesOffice` | raft/src/node.rs:624-645 | The deciding vote puts it in office, naming itself leader, with an append to everyone |
| `RaftElect.LoneVoter` | raft/src/node.rs:593-608 | A lone voter leads as soon as it stands and commits what it is given at once |
| `RaftElect.LaterTermDeposes` | raft/src/node.rs:482-500 | Whoever hears of a later term follows in it, without transfer or pending reads, and names the sender leader only of an append |
| `RaftElect.RestartForgets` | raft/src/node.rs:164-206 | A restart keeps the term, the vote and the log, and forgets everything else |
| `RaftElect.OlderLeaderTold` | raft/src/node.rs:727-740 | A leader of an older term is told so, and nothing else happens |
| `RaftElect.TransferAtOnce` | raft/src/node.rs:455-472 | Leadership goes at once to a peer that has everything |
| `RaftElect.TransferWaits` | raft/src/node.rs:455-472 | Another is sent what it lacks first, and meanwhile no command is taken |
| `RaftElect.TransferEnds` | raft/src/node.rs:849-852 | It goes as soon as the peer has answered for everything |
| `RaftElect.TransferRefused` | raft/src/node.rs:455-461 | It goes to no one but another voter, and only from the leader |
| `RaftElect.HandedOver` | raft/src/node.rs:708-715 | The peer then stands in the next term at once and asks everyone |
| `RaftElect.LateHandover` | raft/src/node.rs:708-715 | A late handover, or one to a node without a vote, is ignored |
| `RaftElect.QuorumChecked` | raft/src/node.rs:290-312 | Over a quorum tick a checking leader stays in office if and only if it heard from a majority since the last one |
| `RaftElect.HeardFrom` | raft/src/node.rs:836-840 | Any answer of the term is contact |
| `RaftElect.MatchNeverDrops` | raft/src/node.rs:842-847 | Late or reordered answers never take back what is known of a peer, and the next append follows it |
| `RaftElect.TransferExpires` | raft/src/node.rs:275-290 | A transfer that takes too long is given up, and nothing else |
| `RaftElect.ReadsConfirmed` | raft/src/node.rs:372-394 | Once it has committed in its term, a leader confirms exactly the waiting reads up to the first whose round no majority has echoed, each under its own tag at the commit index |
| `RaftElect.ReadAsks` | raft/src/node.rs:351-370 | Registering a read sends every peer an append under the new round |
| `RaftElect.EchoCounts` | raft/src/node.rs:836-841 | An answer counts towards the round it echoes, and never takes one back |
| `RaftElect.TakesAll` | raft/src/node.rs:554-561 | In every run, after taking, what a node has applied is its log up to its commit index |
| `RaftPeer.Peer.constructor` | raft/src/node.rs:164-206 | A restarted node has its durable term, vote and log, and nothing else |
| `RaftPeer.Peer.SendAppend` | raft/src/node.rs:966-992 | Sends exactly the append the specification sends |
| `RaftPeer.Peer.BroadcastAppend` | raft/src/node.rs:960-964 | One append to each peer and to no other |
| `RaftPeer.Peer.Count` | raft/src/node.rs:938-958 | The loop over voters counts the set of those that satisfy the filter |
| `RaftPeer.Peer.AdvanceReads` | raft/src/node.rs:372-394 | Confirms the pending reads whose rounds a majority acknowledged, in order, up to the first that is not |
| `RaftPeer.Peer.MaybeAdvanceCommit` | raft/src/node.rs:938-958 | The downward scan over indexes finds what the specification commits |
| `RaftPeer.Peer.BecomeFollower` | raft/src/node.rs:647-663 | A new term clears the vote; reads and transfer are dropped |
| `RaftPeer.Peer.BecomeLeader` | raft/src/node.rs:624-645 | Progress is reset for every voter and appends go out |
| `RaftPeer.Peer.StartElection` | raft/src/node.rs:593-622 | Term, own vote, and either office at once or a request to every peer |
| `RaftPeer.Peer.Tick` | raft/src/node.rs:275-320 | A tick of the node is the specification's, for every state of its timers |
| `RaftPeer.Peer.Propose` | raft/src/node.rs:323-346 | On a leader with no transfer under way the log gains exactly the command, at the index returned and in the term, and is replicated; else it is refused with the right error and the log stays |
| `RaftPeer.Peer.ReadIndex` | raft/src/node.rs:351-362 | A leader registers the read under a new round; anyone else refuses |
| `RaftPeer.Peer.TransferLeadership` | raft/src/node.rs:455-480 | Refused unless a leader names another voter; fires at once when the target has caught up |
| `RaftPeer.Peer.TakeCommitted` | raft/src/node.rs:554-561 | Returns the entries between the applied and the commit index and moves the former |
| `RaftPeer.Peer.HandleRequestVote` | raft/src/node.rs:665-690 | Grants and records the vote exactly when the specification does |
| `RaftPeer.Peer.HandleVoteResp` | raft/src/node.rs:692-704 | Counts a vote of this term and takes office on a majority |
| `RaftPeer.Peer.SpliceEntries` | raft/src/node.rs:782-807 | The in-place loop leaves the spliced log: equal entries skipped, cut at the first conflict, the rest appended |
| `RaftPeer.Peer.HandleAppendEntries` | raft/src/node.rs:717-823 | Rejects, or splices, raises the commit index and answers, as the specification does |
| `RaftPeer.Peer.HandleAppendResp` | raft/src/node.rs:825-862 | Progress, commit, transfer and reads after an answer, or the step back after a refusal |
| `RaftPeer.Peer.Step` | raft/src/node.rs:482-543 | A message handled by the object is the message handled by the specification the theorems are about |
| `PercolatorRuns.Atomicity` | server/src/cross_txn.rs:79-177 | In every interleaving, a Write record carries its transaction's one commit timestamp, recorded at the primary too, points at the prewritten value, and no key of the transaction was rolled back |
| `PercolatorRuns.AllOrNothing` | server/src/lib.rs:1013-1052 | If some key of a transaction is ever committed, none of its keys is ever rolled back, in any state of the run |
| `PercolatorRuns.FirstCommitterWins` | engine/src/db.rs:135-230 | Two transactions that commit a write to one key have disjoint intervals from start to commit |
| `PercolatorRuns.SnapshotRead` | engine/src/mvcc.rs:62-153 | An answered read shows, then and ever after, the newest write committed at or below its timestamp |
| `PercolatorRuns.SnapshotStability` | engine/src/mvcc.rs:62-153 | Two reads of a key at one timestamp, whenever they run, answer the same |
| `PercolatorRuns.NoFracturedRead` | engine/src/mvcc.rs:178-192 | A read never misses a write of a transaction committed at or below its timestamp |
| `PercolatorRuns.HistoryStays` | engine/src/db.rs:383-414 | Write records and rollbacks are never taken back |
| `PercolatorRuns.ShowsOnce` | engine/src/mvcc.rs:97-123 | What a key shows at a timestamp is one value |
| `PercolatorSteps.PrewriteStep` | engine/src/db.rs:215-230 | Prewriting a key, or the abort on a conflict, keeps the invariant |
| `PercolatorSteps.UndoStep` | engine/src/db.rs:383-401 | A conditional rollback of a transaction that may die keeps the invariant |
| `PercolatorSteps.CommitStep` | engine/src/percolator.rs:101-111 | Committing the primary while its lock is held keeps the invariant |
| `PercolatorSteps.ForwardStep` | engine/src/percolator.rs:116-125 | Rolling a key of a committed transaction forward keeps the invariant |
| `PercolatorReads.CleanLookSeals` | engine/src/mvcc.rs:62-80 | A key seen free of older locks is settled at the reader's timestamp for good |
| `PercolatorReads.LookupStable` | engine/src/mvcc.rs:97-123 | A settled key reads the same in every later state |
| `PercolatorReads.ScanIsRight` | engine/src/mvcc.rs:196-219 | Scanning a primary whose fate is decided finds that fate |
| `PercolatorReads.ReadStepOk` | server/src/lib.rs:1026-1050 | Every step of a reader, with the status check atomic or split into peek, rollback and second peek, keeps the invariant and what it has learnt |
| `PercolatorAlone.ReaderAlone` | server/src/lib.rs:1026-1050 | Left alone, a reader of any mode is refused within two steps if a live undecided lock is in its way, and else answers within eleven, with what the store it leaves shows at its snapshot |
| `PercolatorFate.AcquiresAll` | engine/src/percolator.rs:65-98 | As long as the keys are free, the protocol's prewrites acquire exactly what the coordinator's loop does |
| `PercolatorFate.ConflictStops` | engine/src/percolator.rs:65-98 | The first key that is not free ends them: nothing more is acquired, and what was is to be undone |
| `PercolatorFate.CommitsAlone` | engine/src/percolator.rs:100-131 | A transaction on free keys, left alone, commits at the next timestamp; every key reads back from then on and is unlocked |
| `PercolatorFate.ConflictNeverCommits` | engine/src/percolator.rs:65-98 | In any run, a transaction that met a conflict never has a commit record |
| `PercolatorLate.CommitNeedsLock` | engine/src/percolator.rs:101-111 | Committing the primary keeps atomicity if and only if its lock is still held |
| `PercolatorLate.BlindReport` | engine/src/mvcc.rs:138-145 | Rolling a secondary back after the conditional rollback of the primary keeps atomicity if and only if the primary has no commit record of the transaction |
| `PercolatorLate.LateCommit` | engine/src/percolator.rs:101-111 | A run in which a reader rolls an expired primary back and the coordinator then commits it |
| `PercolatorLate.BlindRollback` | engine/src/mvcc.rs:131-153 | A run in which a reader sees an expired primary, the coordinator commits, and rolling back on that sight breaks atomicity |
| `PercolatorEngine.DecidedIsRight` | engine/src/mvcc.rs:131-153 | What the status check decides is the transaction's fate, and deciding it keeps the invariant |
| `PercolatorEngine.Engine.PrewriteOne` | engine/src/db.rs:215-230 | Succeeds exactly on an unlocked key with no commit at or after the start, and then holds value and lock |
| `PercolatorEngine.Engine.ResolveCommit` | engine/src/db.rs:383-401 | Rolls the key forward if its lock is this transaction's, else changes nothing |
| `PercolatorEngine.Engine.ResolveRollback` | engine/src/db.rs:383-401 | Drops lock and value if the lock is this transaction's, else changes nothing |
| `PercolatorEngine.Engine.FindCommitTs` | engine/src/mvcc.rs:196-219 | Finds the commit timestamp at the primary if there is one, and says there is none only if so |
| `PercolatorEngine.Engine.CheckTxnStatus` | engine/src/mvcc.rs:131-153 | Pending while the lock lives, else committed, or rolled back with the primary's lock gone |
| `PercolatorEngine.Engine.ReadCommitted` | engine/src/mvcc.rs:97-123 | The seek-and-step loop reads the newest version at or below the timestamp |
| `PercolatorEngine.Engine.ResolveOnce` | engine/src/mvcc.rs:178-192 | Resolving a lock in the way settles the key or leaves it pending, and changes no history |
| `PercolatorEngine.Engine.MvccGet` | engine/src/mvcc.rs:62-80 | The resolve-and-retry loop answers with what the key shows at the timestamp, and changes no history; it reports a lock if and only if one shadows the snapshot, its transaction is undecided and the primary's lock has not expired |
| `PercolatorCross.Regions.CheckTxnStatus` | server/src/cross_txn.rs:150-177 | Asking the primary's region is asking the one store all regions form |
| `PercolatorCross.NextIsFree` | server/src/cross_txn.rs:79-113 | The next key passes the conflict check if and only if it did at the start and the transaction does not hold it already |
| `PercolatorCross.Acquired` | server/src/cross_txn.rs:79-113 | The locks and values held after the first n prewrites, and that nothing else changed |
| `PercolatorCross.ReleaseUndoes` | server/src/cross_txn.rs:79-113 | Releasing what was acquired restores every lock and commit record and every value but those at the transaction's own timestamp |
| `PercolatorCross.CrossTxn.Prewrite` | server/src/cross_txn.rs:79-113 | Succeeds if and only if every key was free, then holds all of them; a failure leaves locks, commits and all values at other timestamps as they were |
| `PercolatorCross.CrossTxn.Commit` | server/src/cross_txn.rs:138-148 | The primary's record, then every secondary that is still locked, over all regions |
| `PercolatorCross.CommitReadsBack` | engine/src/percolator.rs:127-131 | A transaction that ran alone reads back at and after its commit timestamp, key by key |
| `PercolatorCross.CommitKeepsThePast` | engine/src/percolator.rs:127-131 | Every key reads as before at timestamps below the commit |
| `PercolatorCross.CrossGet` | server/src/cross_txn.rs:150-177 | The loop over regions answers with what the key shows at the timestamp, and changes no history; it reports a lock exactly under the same condition |
| `PdTsoProof.RangesApart` | pd/src/replicated.rs:729-806 | Ranges handed out by all replicas in all terms, deposed leaders included, never overlap, and a later term's lie above an earlier term's |
| `PdTsoProof.ResetIsHigh` | pd/src/replicated.rs:759-776 | When a leader's no-op is applied, the high-water covers every reservation of an earlier term |
| `PdTsoProof.ReserveSuffices` | pd/src/replicated.rs:800-806 | Once the reservation is applied, among whatever else was committed, the leader can hand out the requested count and a whole window more |
| `PdTsoProof.UpperIsHighest` | pd/src/replicated.rs:740-760 | The high-water is the highest reservation applied, and 0 before the first |
| `PdTsoProof.ResetIsDone` | pd/src/replicated.rs:740-775 | Once a new leader's no-op is applied nothing is pending, and its cursor is at the highest reservation applied |
| `PdTsoProof.ResetWaits` | pd/src/replicated.rs:740-775 | Before that it keeps waiting, with its cursor where it was |
| `PdTsoProof.RecoversHigh` | pd/src/replicated.rs:678-682 | A restart puts the cursor at the highest reservation its snapshot covers, and an installed snapshot never lowers it |
| `PdTsoEarly.HandedOutTwice` | pd/src/replicated.rs:789-798 | A run in which a new leader hands out, before its reset, timestamps an earlier leader handed out |
| `PdTsoEarly.UniqueIffGuarded` | pd/src/replicated.rs:789-798 | Ranges of all runs are apart if and only if nothing is handed out while a reset is pending |
| `PdReplica.Oracle.constructor` | pd/src/replicated.rs:678-682 | A restarted replica takes its cursor from the snapshot's high-water |
| `PdReplica.Oracle.Ready` | pd/src/replicated.rs:729-784 | Arms, cancels and performs the reset, adopts an installed snapshot, and applies what was committed, as the specification does |
| `PdReplica.Oracle.Restore` | pd/src/replicated.rs:504-510 | A snapshot never lowers the high-water, and the cursor is raised to it |
| `PdReplica.Oracle.HandOut` | pd/src/replicated.rs:789-798 | Hands out exactly when it leads and the window holds the count, and then moves the cursor by it |
| `PdReplica.Oracle.ReserveTsCmd` | pd/src/replicated.rs:800-806 | Its reservation, once applied in any longer log, lets the leader serve the count and a whole window more, also when it was made with entries still to apply |
| `Regions.KeyspaceTiled` | pd/src/region.rs:131-195 | After any sequence of splits and merges the regions tile the keyspace and every key is in exactly the region it routes to |
| `Regions.ExactlyOne` | pd/src/region.rs:111-116 | In a tiling every key is in one region and no other |
| `Regions.SplitTiles` | pd/src/region.rs:131-168 | A split inside a region keeps the tiling |
| `Regions.SplitIds` | pd/src/region.rs:131-168 | A split keeps ids unique and below the next one |
| `Regions.MergeTiles` | pd/src/region.rs:170-195 | A merge at a boundary keeps the tiling |
| `Regions.MergeIds` | pd/src/region.rs:170-195 | A merge keeps ids unique |
| `Regions.MergeUndoesSplit` | pd/src/region.rs:131-195 | A merge at a split's boundary restores the regions, two epochs on |
| `Regions.MergeMeans` | pd/src/region.rs:170-195 | A merge takes exactly one boundary away; every other keeps its region's id, and regions that do not touch it stay as they were |
| `Regions.MergeUnites` | pd/src/region.rs:170-195 | A key of either region is the union's, which keeps the left one's id and start and has an epoch past both; any other key stays with its region |
| `Regions.SplitMeans` | pd/src/region.rs:131-168 | A split adds exactly one boundary, under the next id; every other keeps its region's id, and the other regions stay as they were |
| `Regions.SplitEpochs` | pd/src/region.rs:131-168 | What is new after a split is one epoch past the region it was cut from |
| `Regions.AlwaysOk` | pd/src/region.rs:131-195 | Every sequence of operations keeps tiling and ids |
| `Regions.Registry.Route` | pd/src/region.rs:111-116 | The region found holds the key and is the only one that does |
| `Regions.Registry.SplitRegion` | pd/src/region.rs:131-168 | Fails, changing nothing, exactly at an existing boundary; else the split of the specification |
| `Regions.Registry.MergeRegion` | pd/src/region.rs:170-195 | Succeeds exactly at an inner boundary, with the merge of the specification |
| `Tables.TablesRoute` | pd/src/region.rs:265-300 | After any log of declarations there is one region a table, and every key of a table routes to that table's region and lies in no other |
| `Tables.AlwaysCarved` | pd/src/replicated.rs:349-371 | Any log of declarations leaves ids allocated in order and regions carved at table boundaries |
| `Tables.KeyRoundTrip` | pd/src/region.rs:265-310 | Table id and user key are recovered from a stored key |
| `Tables.PrefixOrder` | pd/src/region.rs:265-290 | Keys of tables sort by table id whatever follows |
| `Tables.ReplayLog` | pd/src/replicated.rs:349-371 | Applying any declarations of a log again changes nothing |
| `Tables.PdFsm.DeclareTable` | pd/src/replicated.rs:349-371 | Catalog, ids, version and regions after a declaration, known names and the default table included |
| `Tables.PdFsm.RegimeFor` | pd/src/replicated.rs:409-418 | The regime of the table whose prefix a key carries, Cp where there is none |
| `Catalog.CatalogLists` | pd/src/replicated.rs:349-371 | After any log the catalog is the default table and one entry a first declaration of a name, ids in the order of the log, each with the regime it was first declared with, until the ids run out; the version counts them |
| `Catalog.DeclaredInLog` | pd/src/replicated.rs:349-371 | Over a log shorter than the ids, a name is in the catalog if and only if it was declared |
| `Catalog.RegimeOfFirst` | pd/src/replicated.rs:349-371 | Each table has the regime of its name's first declaration |
| `Catalog.TableServed` | pd/src/replicated.rs:409-418 | A key of a declared table lies in that table's region and has the regime it was declared with |
| `Codec.FieldRoundTrip` | engine/src/encoding.rs:29-50 | A length-prefixed field decodes to itself and to the rest of the buffer |
| `Codec.ValueRoundTrip` | engine/src/memtable.rs:38-56 | A memtable value, a tombstone included, survives encoding |
| `Codec.BatchRoundTrip` | engine/src/batch.rs:69-118 | A write batch decodes to itself |
| `Codec.EntriesRoundTrip` | engine/src/sstable/block.rs:11-27 | A block decodes to its entries |
| `Wal.FrameRoundTrip` | engine/src/wal.rs:66-82 | A framed record reads back, and so does what follows it |
| `Formats.ValueBytes` | engine/src/memtable.rs:38-56 | The bytes of a value and of a tombstone |
| `Formats.BatchBytes` | engine/src/batch.rs:69-118 | The bytes of a batch of a put and a delete |
| `Formats.FrameBytes` | engine/src/wal.rs:66-82 | The bytes of a framed record, for any checksum |
| `Formats.LockBytes` | engine/src/keys.rs:140-165 | The bytes of a lock |
| `Formats.EntryBytes` | raft-wal/src/lib.rs:233-252 | The bytes of a Raft entry's record, of either kind |
| `Formats.ChangeBytes` | raft/src/message.rs:74-133 | The bytes of a recorded membership |
| `Exact.FieldExact` | engine/src/encoding.rs:29-50 | A field is taken if and only if it is the encoding of what it gives |
| `Exact.ValueExact` | engine/src/memtable.rs:38-56 | A value decodes to a put if and only if it is its encoding, and to a tombstone if and only if it begins with one |
| `Exact.OpExact` | engine/src/batch.rs:92-118 | An operation is taken if and only if its encoding comes next |
| `Exact.BatchExact` | engine/src/batch.rs:92-118 | A payload decodes to a batch if and only if it begins with that batch's encoding |
| `Exact.FrameExact` | engine/src/wal.rs:121-145 | The log reader takes a record if and only if a frame of it, checksum and all, comes next |
| `Exact.ReplayExact` | engine/src/wal.rs:121-145 | What replay gives is, frame by frame, what the file begins with, and after it no record follows |
| `Exact.UnsealExact` | engine/src/sstable/reader.rs:79-93 | A block is taken if and only if its checksum is its own |
| `Exact.IndexExact` | engine/src/sstable/reader.rs:31-73 | An index parses if and only if it is the encoding of what it gives |
| `Exact.OpenExact` | engine/src/sstable/reader.rs:31-73 | A table opens if and only if its footer, magic included, points at a sealed index |
| `Exact.LockExact` | engine/src/keys.rs:140-165 | Bytes decode to a lock if and only if they begin with an encoding of it |
| `Wal.FrameCut` | engine/src/wal.rs:121-145 | No proper prefix of a frame reads as a record |
| `Wal.TornTail` | engine/src/wal.rs:121-145 | Any byte prefix of a log reads as its whole records, no more and no fewer |
| `Wal.ReplayRoundTrip` | engine/src/wal.rs:66-145 | A log reads back as what was appended |
| `Wal.Writer.Append` | engine/src/wal.rs:66-82 | The file grows by the record's frame |
| `Wal.Reader.Next` | engine/src/wal.rs:121-145 | The next record and the new position, or none and no movement |
| `Runs.SeekMerge` | engine/src/db.rs:234-268 | The better of two levels' seeks is the seek of the levels merged |
| `Runs.SeekOnce` | engine/src/db.rs:234-268 | A seek has one answer |
| `Runs.ViewSplit` | engine/src/db.rs:323-345 | Levels may be grouped: newest wins |
| `SstFile.OpenFinished` | engine/src/sstable/reader.rs:31-73 | Opening a finished file recovers its index through footer and checksum |
| `SstFile.ReadFinished` | engine/src/sstable/reader.rs:79-93 | Every block of a finished file reads back as written |
| `SstFile.IndexRoundTrip` | engine/src/sstable/writer.rs:80-104 | The index survives encoding |
| `SstTable.FirstIsSeek` | engine/src/sstable/reader.rs:132-154 | The first entry at or after a storage key is the seek within a column family, and another family's entry means there is none |
| `SstTable.Reader.constructor` | engine/src/sstable/reader.rs:31-73 | Opens a finished file to the blocks it was written with |
| `SstTable.Reader.PartitionPoint` | engine/src/sstable/reader.rs:95-103 | The binary search splits the index at the key |
| `SstTable.Reader.Get` | engine/src/sstable/reader.rs:106-130 | Finds a key's value, tombstones included, exactly when the table holds it |
| `SstTable.Reader.Seek` | engine/src/sstable/reader.rs:132-154 | The least key of the family at or after the bound, across block boundaries |
| `SstWriter.CutsAreOrdered` | engine/src/sstable/writer.rs:53-78 | However an ascending run is cut into blocks, the blocks are ordered |
| `SstWriter.RunRepresented` | engine/src/db.rs:369-380 | The blocks written from a memtable represent its contents |
| `SstWriter.LightFits` | engine/src/sstable/writer.rs:80-104 | A run light enough fits the widths of the format |
| `SstWriter.Writer.Add` | engine/src/sstable/writer.rs:53-62 | One entry more, with the open block kept below its target size |
| `SstWriter.Writer.FlushBlock` | engine/src/sstable/writer.rs:64-78 | Closes the open block and loses no entry |
| `SstWriter.Writer.Finish` | engine/src/sstable/writer.rs:80-104 | The finished file of exactly the entries added |
| `SstWriter.WriteTable` | engine/src/db.rs:369-380 | A memtable's file has ordered blocks that represent its contents |
| `Memtable.InsertContents` | engine/src/memtable.rs:81-100 | Inserting into the sorted run updates the map at that key alone |
| `Memtable.GetIsLookup` | engine/src/memtable.rs:102-108 | A get is a lookup in the map |
| `Memtable.SeekIsSeek` | engine/src/memtable.rs:110-115 | A seek finds the least key of the family at or after the bound |
| `Memtable.Apply` | engine/src/memtable.rs:81-100 | Applying a batch op by op is the batch applied to the map |
| `Lsm.Store.ApplyBatch` | engine/src/db.rs:168-180 | A batch on the active memtable is the batch on the flat map |
| `Lsm.Store.Rotate` | engine/src/db.rs:273-286 | Freezing the active memtable leaves the flat map as it was |
| `Lsm.Store.InstallTable` | engine/src/db.rs:292-300 | Adding the table of any queued memtable leaves the flat map as it was, an empty one adding none |
| `Lsm.Store.DropFrozen` | engine/src/db.rs:301-310 | Forgetting a flushed memtable leaves the flat map as it was if and only if it is harmless to those queued before it; always, if it is the oldest |
| `Lsm.Store.Flush` | engine/src/db.rs:292-310 | A flush of the oldest of any number of queued memtables leaves the flat map as it was; of a later one, if and only if it is harmless |
| `Lsm.Store.Get` | engine/src/db.rs:323-345 | The layered get is the flat map's, tombstones hiding older levels |
| `Lsm.Store.Seek` | engine/src/db.rs:234-268 | The layered seek is the flat map's, the newest level winning a tie |
| `Lsm.FlushedOutOfTurn` | engine/src/db.rs:292-310 | A flush past older queued memtables keeps the flat map if and only if it agrees with them on every key they share that nothing newer holds |
| `Lsm.StaleAgain` | engine/src/db.rs:292-310 | Two memtables with one shared key: flushing the newer first makes the store answer with the older value |
| `RecoveryProof.StoreIsReplay` | engine/src/db.rs:459-511 | After any number of crashes and reopens, the store reads as a replay of its sequenced batches |
| `RecoveryProof.AckedSurvive` | engine/src/db.rs:135-203 | What is acknowledged in one state is, in order, in the history of every later one |
| `RecoveryProof.CrashStep` | engine/src/wal.rs:121-145 | A crash that keeps any byte prefix of the unsynced tail keeps a prefix of the batches with every acknowledged one |
| `RecoveryProof.Reclaims` | engine/src/db.rs:492-507 | Reclaiming drops exactly one segment, whose records are all flushed, and nothing else |
| `RecoveryProof.SyncsAndStores` | engine/src/db.rs:292-321 | A sync acknowledges every batch so far; a stored flush raises the watermark to what it wrote and names its table |
| `RecoveryProof.ReplayIsDelta` | engine/src/db.rs:479-497 | Replaying log records above the flushed watermark rebuilds exactly the batches after it |
| `FailedFlush.FlushPastIff` | engine/src/db.rs:292-310 | After a flush past a queued memtable and a restart, the store reads as its history if and only if every key that memtable held was written again or held that value before |
| `FailedFlush.AckedLost` | engine/src/db.rs:301-310 | A run in which two batches are acknowledged, the flush of the first fails, that of the second succeeds, and a restart loses the first |
| `DataKeys.DataKeyRoundTrip` | engine/src/keys.rs:44-59 | User key and timestamp are recovered from a data key |
| `DataKeys.DecodeRoundTrip` | engine/src/keys.rs:52-59 | Every byte string long enough is a data key |
| `DataKeys.VersionsDescend` | engine/src/encoding.rs:14-25 | Versions of one key sort newest first |
| `DataKeys.EmbedsIff` | engine/src/keys.rs:44-49 | Byte order is key ascending, timestamp descending, for all timestamps of two keys, if and only if the keys are distinguishable |
| `Mvcc.LockRoundTrip` | engine/src/keys.rs:140-165 | A lock survives encoding |
| `Mvcc.SeekIsNewest` | engine/src/mvcc.rs:97-123 | For every store: one forward seek lands on the newest commit at or below the timestamp if and only if no version of another key lies in the way; else it lands on another key or on none |
| `Mvcc.SeparableReaches` | engine/src/keys.rs:44-49 | Keys told apart whatever the timestamps are never in one another's way |
| `Mvcc.ReadCommitted` | engine/src/mvcc.rs:97-123 | For every store: the byte-level read is the snapshot lookup where nothing is in the way, and empty where something is |
| `Mvcc.GetUnresolved` | engine/src/mvcc.rs:82-95 | For every store: the byte-level read that stops at a shadowing lock, else reads as above |
| `PlainKeys.PlainOrder` | engine/src/encoding.rs:14-25 | Among plain keys, versions sort by key, except that a longer key comes before every key that begins it |
| `PlainKeys.TimelyIff` | engine/src/encoding.rs:14-25 | An encoded timestamp begins with a byte of at least `b` if and only if the timestamp is below (0x100 - `b`) times 2^56 |
| `PlainKeys.PlainReach` | engine/src/mvcc.rs:97-123 | Among plain keys, at every timestamp, a seek reaches a commit of its key if and only if no version of a longer committed key that the key begins lies at or after where the seek starts |
| `PlainKeys.PlainReads` | engine/src/mvcc.rs:97-123 | Among plain keys, at every timestamp, a read is the snapshot, or nothing if such a version overtakes it |
| `PlainKeys.TimelyReads` | engine/src/mvcc.rs:97-123 | At a timestamp in use nothing overtakes, so every read of plain keys is the snapshot |
| `PlainKeys.TopReads` | engine/src/mvcc.rs:97-123 | At the newest possible timestamp a read of plain keys finds nothing of a key that begins a longer committed one, deleted or not, and else is the snapshot |
| `PlainKeys.PlainTop` | engine/src/db.rs:215-230 | Among plain keys, a seek from the newest possible timestamp reaches a commit of a key if and only if no committed key is longer and begins with it |
| `PlainKeys.ReadBlocked` | engine/src/keys.rs:44-49 | A commit of "a" followed by an 0xff byte at 768 lies in the way of reading "a" at 1000, committed at 1 |
| `PlainKeys.ReadMisses` | engine/src/mvcc.rs:97-123 | So every store with those two commits, and none of "a" between, answers that read with nothing |
| `MvccWrites.PrewriteStores` | engine/src/db.rs:403-414 | The prewrite batch, on bytes, is the protocol's prewrite |
| `MvccWrites.CommitStores` | engine/src/db.rs:383-401 | The commit batch, on bytes, is the protocol's commit of a key |
| `MvccWrites.RollbackStores` | engine/src/db.rs:383-401 | The rollback batch, on bytes, is the protocol's rollback of a key |
| `MvccWrites.CheckPrewrite` | engine/src/db.rs:215-230 | For every store: passes exactly the unlocked keys with no conflicting commit in sight of the seek |
| `MvccWrites.CheckIsRight` | engine/src/db.rs:215-230 | The check is the conflict check if and only if the key is locked, has no conflict, or has nothing in the way |
| `MvccWrites.PlainConflict` | engine/src/db.rs:215-230 | Among plain keys a conflict is seen if and only if no committed key is longer and begins with the key |
| `MvccWrites.PrewriteOne` | engine/src/db.rs:135-164 | The check, then the batch: the bytes hold the protocol's store after it |
| `MvccWrites.ResolveCommit` | engine/src/db.rs:585-594 | Over bytes, rolls the key forward if the lock is this transaction's, else changes nothing |
| `MvccWrites.ResolveRollback` | engine/src/db.rs:596-603 | Over bytes, rolls the key back if the lock is this transaction's, else changes nothing |
| `MvccWrites.WriteCommit` | engine/src/percolator.rs:101-111 | Over bytes, records the commit and drops the lock, whosever it is |
| `MvccWrites.FindCommitTs` | engine/src/mvcc.rs:196-219 | For every store: the loop finds a commit record if there is one in sight of the seek, and none if not |
| `MvccWrites.PlainCommit` | engine/src/mvcc.rs:196-219 | Among plain keys a commit record is in sight if and only if no committed key is longer and begins with the primary |
| `MvccWrites.LostUpdate` | engine/src/db.rs:215-230 | With "a" and "ab" committed, a conflicting prewrite of "a" passes the check and the commit of "a" is not found |
| `Scan.MergeIter.Next` | engine/src/scan.rs:29-47 | Yields the least key at or after the cursor and moves just past it |
| `Scan.Successor` | engine/src/scan.rs:29-47 | A key followed by a zero byte is its immediate successor |
| `Scan.ScanRange` | engine/src/scan.rs:63-105 | For every store, locks included: returns the keys met before one at or past the end, each once, with what a read of it gives, in the order met, up to the limit |
| `ScanOrder.WalkIsScan` | engine/src/scan.rs:63-105 | A faithful walk returns exactly the visible pairs of the range in key order, whatever the limit |
| `ScanOrder.ScanIff` | engine/src/scan.rs:63-105 | For every store an unlimited scan is the range asked for if and only if the walk is faithful |
| `ScanOrder.ScannableIsFaithful` | engine/src/scan.rs:63-105 | Where committed keys are told apart and none begins the start, every scan is the range asked for |
| `ScanOrder.PlainScanIff` | engine/src/scan.rs:63-105 | Among plain keys, at every timestamp, an unlimited scan is the range asked for if and only if the keys are well spread, a condition on which keys begin which and which are overtaken |
| `ScanOrder.TimelyScanIff` | engine/src/scan.rs:63-105 | At a timestamp in use the condition is only on which visible and committed keys begin which |
| `ScanOrder.TopScanIff` | server/src/lib.rs:2188-2196 | At the newest possible timestamp: if and only if no visible key of the range begins a longer committed key, and each that begins the start does so or is cut off |
| `ScanOrder.ScanMisses` | engine/src/scan.rs:81-84 | With "a" and "ab" committed, a scan up to "ab" does not return "a" |
| `ScanOrder.ScanStrays` | engine/src/scan.rs:77-84 | With "a" and "ab" committed, a scan from "ab" returns "a" |
| `ScanOrder.TopMisses` | server/src/lib.rs:2188-2196 | With "a" put and "ab" deleted, a read of "a" at the newest possible timestamp finds nothing, and a scan of everything there leaves "a" out |
| `ScanOrder.HalfBuilt` | engine/src/percolator.rs:60-111 | Two transactions, run on bytes, leave that store |
| `ScanVersions.ScanVersions` | engine/src/scan.rs:115-151 | For every store: returns the keys met before one at or past the end, each once, with the first version met, tombstones included, in the order met, up to the limit |
| `ScanVersions.MetFirst` | engine/src/scan.rs:125-129 | The version at which a key is first met is the newest of those at or after the start |
| `ScanVersions.ListingIff` | engine/src/scan.rs:115-151 | Among plain keys an unlimited listing is exactly the newest versions of the range if and only if no key of the range begins a committed key past the end and each that begins the start is cut off |
| `ScanVersions.ListingOrder` | engine/src/scan.rs:107-114 | The listing is in key order if and only if no key of it begins another |
| `ScanVersions.LongKeysListable` | server/src/lib.rs:790-793 | Keys no shorter than the bounds, as between table prefixes, are always listed right |
| `ScanVersions.ListsState` | server/src/lib.rs:790-800 | In a listable range the stamps reconciled over list the replica's state exactly, each key once |
| `ScanVersions.ReadLatest` | server/src/lib.rs:840-848 | A point read answers with the first version met between the key and its successor, whosever it is; among plain keys that is the key's newest version if and only if the read is safe |
| `ScanVersions.PointHeld` | server/src/lib.rs:840-848 | Among plain keys a key that has a version reads as its newest, or as absent if it begins a longer committed key |
| `ScanVersions.PointAbsent` | server/src/lib.rs:840-848 | A key without one reads as absent if and only if every key that begins it is hidden by a committed key past it, and else as a key that begins it |
| `ScanVersions.PointIff` | server/src/lib.rs:2403-2411 | The point read is the key's newest version if and only if those conditions hold |
| `ScanVersions.PointMisses` | server/src/lib.rs:840-848 | With "ab" there, "a" reads as absent |
| `ScanVersions.PointStrays` | server/src/lib.rs:840-848 | With only "a" there, "ab" reads as what "a" holds |
| `RaftStorage.MemStorage.Term` | raft/src/storage.rs:102-114 | The term the uncompacted log has, at the boundary and above |
| `RaftStorage.MemStorage.Entries` | raft/src/storage.rs:116-128 | The uncompacted log's entries, cut to what is above the boundary |
| `RaftStorage.MemStorage.LastIndex` | raft/src/storage.rs:98-100 | The uncompacted log's length |
| `RaftStorage.MemStorage.Append` | raft/src/storage.rs:130-139 | The uncompacted log grows by the entries |
| `RaftStorage.MemStorage.TruncateSuffix` | raft/src/storage.rs:141-148 | The uncompacted log is cut, never below the boundary |
| `RaftStorage.MemStorage.Compact` | raft/src/storage.rs:158-172 | The uncompacted log does not change; the boundary only rises |
| `RaftStorage.MemStorage.ApplySnapshot` | raft/src/storage.rs:174-177 | The sender's log replaces this one |
| `WalStorage.EntryRoundTrip` | raft-wal/src/lib.rs:233-252 | An entry survives its record |
| `WalStorage.ReopenAtRest` | raft-wal/src/lib.rs:56-95 | Reopening what is on disk gives the log above the boundary |
| `WalStorage.CrashInCompact` | raft-wal/src/lib.rs:199-218 | A crash between compaction's snapshot write and its log rewrite reopens to the compacted view, wherever the file began |
| `WalStorage.CrashInInstall` | raft-wal/src/lib.rs:220-230 | A crash between the two writes of an install reopens to the installed state if and only if the old log did not reach past the snapshot or its file was empty |
| `WalStorage.OldEntryReturns` | raft-wal/src/lib.rs:220-230 | Two entries and a snapshot of the first: after such a crash the second is in the log again |
| `WalStorage.CrashInAppend` | raft-wal/src/lib.rs:167-179 | A crash in an append keeps a prefix of it and every entry synced before, wherever the file began |
| `WalStorage.Durable.constructor` | raft-wal/src/lib.rs:56-95 | Opening reads the log back and drops what lies below the snapshot |
| `WalStorage.Durable.Reopens` | raft-wal/src/lib.rs:56-95 | At any rest, reopening gives the view in memory |
| `WalStorage.Durable.Append` | raft-wal/src/lib.rs:167-179 | Memory and file both grow by the entries |
| `WalStorage.Durable.RewriteLog` | raft-wal/src/lib.rs:111-121 | The rewritten file holds exactly the entries in memory |
| `WalStorage.Durable.TruncateSuffix` | raft-wal/src/lib.rs:181-189 | The uncompacted log is cut, in memory and on disk |
| `WalStorage.Durable.Compact` | raft-wal/src/lib.rs:199-218 | The uncompacted log does not change, in memory or on disk |
| `WalStorage.Durable.ApplySnapshot` | raft-wal/src/lib.rs:220-230 | The sender's log replaces this one, in memory and on disk |
| `ConfChange.OneVoter` | raft/src/node.rs:1133-1151 | One change adds or removes at most one voter |
| `ConfChange.ChangeIs` | raft/src/node.rs:1133-1151 | As sets: a node added votes and no longer learns, one removed does neither, one taken on as a learner was neither before, and nobody else is touched |
| `ConfChange.ChangeKeepsDisjoint` | raft/src/node.rs:1133-1151 | If nobody both voted and learned, nobody does after |
| `ConfChange.MajoritiesMeet` | raft/src/node.rs:1133-1151 | Any majority before a change meets any majority after it |
| `Reconf.WholeNear` | raft/src/node.rs:402-448 | Under the guard, any majority of one membership meets any majority of another, when both belong to logs that end before a term and hold all that was committed before it |
| `Reconf.SameReign` | raft/src/node.rs:402-415 | Under the guard, last changes made by one leader are at most one change apart |
| `ReconfProof.Complete` | raft/src/node.rs:665-704 | Leader Completeness across membership changes: whoever is elected under its own membership holds what an earlier leader committed under its own |
| `ReconfProof.Meets` | raft/src/node.rs:938-958 | Those who elect a later leader overlap with those who held a committed entry, unless the leader holds the entry anyway |
| `ReconfSteps.FirstReign` | raft/src/node.rs:692-704 | A term that has a leader elects no other, whatever memberships the two campaign under |
| `ReconfSteps.AppendPast` | raft/src/node.rs:402-448 | A guarded change, or any other entry, of a leader keeps the history sound |
| `ReconfSteps.AcceptPeer` | raft/src/node.rs:717-823 | A follower that takes a leader's entries keeps what it acknowledged and what it committed |
| `ReconfSteps.StepInv` | raft/src/node.rs:402-448 | Every step of a guarded group keeps the invariant, and the history only grows |
| `ReconfRuns.GuardedIsSafe` | raft/src/node.rs:402-448 | In every run of a guarded group, from any membership and with any changes: peers agree on what both committed, later leaders hold what was committed, and a term has one leader |
| `ReconfRuns.AcceptTakes` | raft/src/node.rs:782-823 | Taking a leader's append leaves its entries and its commit index, keeps a log that already has them, and touches no one else |
| `ReconfRace.ChangesCollide` | raft/src/node.rs:402-415 | Without the guard, a run in which two nodes commit different memberships at one index, each by a majority of its own |
| `ReconfRace.SafeIffGuarded` | raft/src/node.rs:402-415 | Every run is safe if and only if a leader changes the membership only when the last entry it knows committed is of its own term |
| `ConfChange.PayloadRoundTrip` | raft/src/message.rs:74-133 | The recorded membership survives encoding |
| `Membership.CompactKeepsConf` | raft/src/node.rs:573-582 | A snapshot that records the membership at its index leaves the derived membership as it was |
| `Membership.AppendKeepsConf` | raft/src/node.rs:323-346 | An ordinary entry changes no membership |
| `Membership.AppendSetsConf` | raft/src/node.rs:1071-1091 | A recorded change is the membership once appended |
| `Membership.Member.constructor` | raft/src/node.rs:164-206 | A restart derives its membership from snapshot and log |
| `Membership.Member.ConfAtIndex` | raft/src/node.rs:1071-1091 | The walk over the live log gives the membership as of an index |
| `Membership.Member.RecomputeConf` | raft/src/node.rs:1096-1107 | The cached sets become the log's; a leader left out steps down; a transfer to a lost voter is dropped |
| `Membership.Member.HasPending` | raft/src/node.rs:1060-1066 | True exactly when a change lies past the commit index |
| `Membership.Member.Propose` | raft/src/node.rs:323-346 | One entry more and no change of membership, or the refusal and no change at all |
| `Membership.Member.ProposeConfChange` | raft/src/node.rs:402-448 | Refused for the first reason that applies; else the log records the resulting membership, which is what the change means, is in force at once, and has the leader as a voter |
| `Membership.Member.SoundNow` | raft/src/node.rs:1071-1107 | While no membership on record has anyone both voting and learning, which every operation of the node keeps, nobody does now |
| `Membership.DisjointAt` | raft/src/node.rs:1071-1107 | The same at every index of the log |
| `Membership.Member.Splice` | raft/src/node.rs:782-807 | The log is kept, or cut at the first conflict above the snapshot and continued, and the cached sets follow it |
| `Membership.Member.Compact` | raft/src/node.rs:573-582 | The snapshot records index, term and membership; the cached sets stay the log's |
| `Membership.Member.InstallSnapshot` | raft/src/node.rs:868-918 | The snapshot's log and membership are taken on unless already committed past it |
| `UpReplicate.Picks` | server/src/upreplicate.rs:30-46 | A step is about the least desired node that is not yet a voter |
| `UpReplicate.StepCloses` | server/src/upreplicate.rs:30-46 | Every step removes no voter and strictly lowers the distance to the desired set |
| `UpReplicate.RestsWhen` | server/src/upreplicate.rs:30-46 | No step is proposed if and only if all desired nodes vote, or the next one is a learner still behind |
| `UpReplicate.Grow` | server/src/upreplicate.rs:30-46 | With learners caught up, stepping ends with every desired node a voter and no voter lost |
| `UpReplicate.RunsAreShort` | server/src/upreplicate.rs:30-46 | No run of effective steps, whatever learners do, is longer than the distance it began with |
| `Merkle.FromDigest` | server/src/anti_entropy.rs:88-96 | The array built bottom-up is the hash tree of the leaves |
| `Merkle.DifferingLeaves` | server/src/anti_entropy.rs:105-123 | The descent by an explicit stack ends, and reports, in order, exactly the leaves whose whole path differs |
| `Merkle.DifferenceSurfaces` | server/src/anti_entropy.rs:105-123 | Without collisions a difference shows on the whole path to the root |
| `Merkle.Diff` | server/src/anti_entropy.rs:126-131 | Only differing leaves are reported, and all of them if mixing is collision-free on the nodes compared |
| `AntiEntropy.JoinCommutes` | server/src/anti_entropy.rs:134-140 | Merging versions does not depend on order, for replicas of one history |
| `AntiEntropy.JoinAssociates` | server/src/anti_entropy.rs:134-140 | Merging versions does not depend on grouping |
| `AntiEntropy.JoinIdempotent` | server/src/anti_entropy.rs:134-140 | Merging again changes nothing |
| `AntiEntropy.JoinIsLeast` | server/src/anti_entropy.rs:134-140 | The merge is the least state at or above both |
| `AntiEntropy.BucketIsCanonical` | server/src/anti_entropy.rs:61-80 | A bucket depends on the versions it holds, not on the order they are listed in |
| `AntiEntropy.Digest` | server/src/anti_entropy.rs:61-80 | The digest loop hashes every bucket of the replica |
| `AntiEntropy.PullIsJoin` | server/src/lib.rs:786-829 | Fetching only the reported buckets and adopting what is newer is the join with a peer that did not move, also when newer writes arrive here meanwhile |
| `AntiEntropy.PullIsBetween` | server/src/lib.rs:786-829 | When the peer moves on between its digest and its answer, a pull misses nothing of the earlier state, loses nothing and invents nothing |
| `AntiEntropy.BetweenJoins` | server/src/lib.rs:786-829 | Such a pull lies between the joins with the peer's two states |
| `AntiEntropy.AdoptNewer` | server/src/lib.rs:786-829 | The loop over fetched versions merges them, never replacing a newer one |
| `AntiEntropy.Reconcile` | server/src/lib.rs:786-829 | One pass over the peers is the join with all of them if none moved; if they moved on, it holds all each had when it digested and nothing but versions known or fetched |
| `AntiEntropy.Converges` | server/src/lib.rs:786-829 | In every run of pulls, with peers changing while they are pulled from, a replica that has pulled from every other holds the newest version of every key |
| `AntiEntropy.NewestIsJoin` | server/src/lib.rs:786-829 | The pointwise-newest state exists: it is the join of all replicas |

## Left out

- gRPC servers, clients, transport, actor threads and channels: plumbing around the modelled steps.
- Timers and random election timeouts: a tick may find any timer due, so liveness under real time is not stated.
- Changing voters in `RaftSystem` and `RaftInstall`: those have a fixed voter set, and their logs stand for the whole log, the compacted part included. `Reconf` has changing voters, with each vote, append and acknowledgement one step and no reads, transfers or snapshots.
- RaftInstall.GuardedIsSafe: a log that holds the snapshot's last entry is kept, which the code does not do (`RaftSnapshotLoss.SafeIffGuarded`).
- ReconfRuns.GuardedIsSafe: a leader has committed an entry of its own term before it changes the membership, which the code does not check (`ReconfRace.SafeIffGuarded`).
- u64 wrap-around of terms, indexes, epochs, ids and timestamps drawn from PD: integers are unbounded there; the widths of encoded fields are explicit.
- CRC32C and FNV arithmetic: any function; collisions are assumed away only where a statement says so.
- Lsm.Store.InstallTable: needs the table to stay below the 32-bit lengths of the file format, which the source does not check.
- Lsm.Store.Flush: needs the same, for the same reason.
- SstFile.OpenFinished: needs the file to fit the widths of the format, for the same reason.
- I/O errors other than a crash: a failed flush is modelled by `Lsm.Store.Flush` and `FailedFlush`; a failed append or fsync is not.
- The file format of the manifest, of the hard state and of Raft snapshots: taken as atomic values.
- PercolatorRuns.Atomicity: the primary is committed only while its lock is held, which the code does not check (`PercolatorLate.CommitNeedsLock`), and a transaction names its primary key once.
- PdTsoProof.RangesApart: nothing is handed out while a reset is pending, which the code does not check (`PdTsoEarly.UniqueIffGuarded`).
- RaftReads.ReadIndexLinearizable: the read's round is new, which the code does not ensure across restarts (`RaftStaleRead.LinearizableIffNotRestarted`).
- The `Autocommit` fast path: it applies a finished batch with neither lock nor conflict check, so isolation is not its contract.
- Scan with `resolve` on: not modelled.
- What `ap_read_repair` does with the versions it collects, adopting and pushing the newest: would only add easy members.
- PercolatorRuns.SnapshotRead: keys and timestamps are abstract pairs in the transaction theorems; `Mvcc` and `MvccWrites` tie each operation to bytes, exactly where nothing is in the way of its seek.
- Region snapshot capture and restore: it keeps only the latest values.
- PD failure detection, replica assignment and its command codec: derived from wall-clock liveness.
- Table declarations past the last id: `Tables` declares nothing once ids would exceed their width.
- `hlc.rs`, `clock.rs`, `tso.rs`, `memlock.rs`, `catalog.rs`: would only add easy members.
