# A model of the Raft core

This project models the `raft` package and the key-value store on top of it, and proves
what the protocol promises about every run. The system is an implementation of Raft
("In Search of an Understandable Consensus Algorithm", Ongaro and Ousterhout 2014,
sections 5.1 to 5.4 and 7, Figure 2): leader election with pre-vote and a quorum check,
log replication with fast backtracking, the current-term commit rule, snapshots, crash
recovery from two files, and a map driven by the committed log.

`dafny verify dfyconfig.toml` checks everything. There are no assumptions and no
unproved members.

## How it is built

- **Steps.** `Nodes` holds every critical section of the code as a function from the node
  before to the node after, branch for branch: roles, both vote paths, the append handler,
  reply processing, counting, snapshots, start-up. `Logs` does the same for the
  sentinel-offset log, `Machine` for the map, `Calls` for the table of waiting calls.
- **Objects.** `LogStore.Log`, `Servers.RaftNode` and `Stores.KVStore` are the program's
  mutable objects with their loops. Each method is proved to leave exactly what its step
  function says. `Log` carries the uncompacted log it stands for; `RaftNode` carries the
  sequence of disk images it wrote.
- **Cluster.** `Cluster` is a fixed set of nodes and a set of messages that only grows, so
  messages are lost, repeated, delayed and reordered at will. Any sequence of events is a
  run: candidacies, each half of starting an election, deliveries, submissions, sends, quorum
  checks, applies, snapshots, and crashes at rest, after a persisted term, and between the
  two files of a snapshot. A history beside the nodes records votes, per-term leader logs,
  acknowledgements and commits; it steers nothing.
- **Program.** `Program` adds the goroutines around each node: pre-vote probes asked,
  answered and counted one by one, with candidacy only after a granted probe; the apply loop,
  which takes an entry under the lock and applies it outside, or restores a queued snapshot;
  the store, which drains the apply channel, reads its bytes and hands them over for a
  snapshot in separate steps, and answers calls. Any sequence of actions is a session, and
  every session is a run.
- **Protocol.** `Protocol` and the `Protocol...` modules prove an invariant of the history
  transition by transition. `ClusterInv` and the `Cluster...` modules tie nodes, disks,
  messages and vote rounds to it event by event, `Runs` carries it over whole runs, and
  `Safety`, `Matching`, `AppendSpec`, `Backtracking`, `SnapshotTrips`, `Confirmations`, `Recovery`,
  `KnownLeaders`, `Submissions`, `Replicas`, `Clients`, `Answers`, `Reports` and `PreVote` state what follows.
  `Terms` states the rules of the three calls and of their replies on their own.
- **Limits.** `Scenarios`, `Exchanges` and `Applying` build sessions step by step, every
  candidacy through a granted probe. `ElectionLimits`, `SafetyLimits`, `ReplicaLimits` and
  `StaleSuffixes` use them to show, for clusters of every size concerned, where the code as
  written breaks a law, and prove exactly where it holds.

## What the proofs found

1. A failed quorum check calls `becomeFollower` with the current term, which clears the vote
   within the term (raft/node.go:497, raft/election.go:17). Clearing it does no harm by
   itself; what breaks the law is the second grant, when the freed vote is cast again in the
   same term. Election Safety and State Machine Safety therefore fail in some session of every
   odd cluster of three or more, and hold in every session of every even cluster, where two
   majorities share a second node whose vote was not erased. All run theorems take the
   condition "even membership, or no freed vote is cast again in its term", stated on the
   events of the run (`Runs.VotesKept`). The failing session for State Machine Safety needs
   four elections: a late message of the term's first leader truncates what its second leader
   committed.
2. `compactTo` keeps the suffix behind a foreign snapshot without comparing terms at the
   boundary (raft/log.go:99-104), where section 7 of the paper discards it. Such a log
   is no prefix of the log of the leader that wrote its last entry. It arises in some session of every cluster
   of three or more and in none of a smaller one. It is proved harmless to all cluster-wide
   laws: its owner cannot win an election or match a leader past the boundary, and what is
   stored above the boundary still obeys Log Matching.
3. The apply loop restores a queued snapshot whatever it has applied since
   (raft/apply.go:48-51), and `HandleInstallSnapshot` queues one although entries past it were
   applied (raft/snapshot.go:77-96). A late rejection is enough: it moves nextIndex back below
   a new snapshot, and the follower that had applied more loses what it applied.
4. The bytes and the index of a snapshot are read in two steps (kvstore/kvstore.go:174-175),
   and an entry may be applied in between. The snapshot then claims that entry and lacks it.
   Replicas agree in every session that keeps votes, restores only what reaches lastApplied
   (3) and takes snapshots only of bytes read at lastApplied between entries (4). In every
   cluster of two or more, giving up either condition alone lets two replicas diverge that
   have applied the same entries.
5. A follower that has compacted past a message's previous index answers as if its log were
   too short (raft/replication.go:197-203), although it has every entry up to there. The
   answer points past the end of its log, so the leader moves forward. `SnapshotTrips` says
   exactly when this happens after a snapshot.
6. The store's documentation says that reads go through the log (kvstore/kvstore.go:44-45);
   the code answers them from the local map (kvstore/kvstore.go:85-97), and so does the model.

## What is assumed

Each critical section is one step, and so is each call of the state machine. Disk writes
succeed and replace a file as a whole; start-up finishes before the first message. A node's
identifier is its address. Time is a choice: whether a leader was heard recently, and which
peers answered within the window, are arguments, and a snapshot may be taken after any
entry, as the threshold is the application's to set. Membership is fixed.

## Model

| member | source | states |
|---|---|---|
| `Safety.StateMachineSafety` | raft/replication.go:169-261 | two nodes whose commit indices cover i, each at any moment of any run, have equal whole logs up to i, whatever was lost, repeated, delayed or crashed in between; for runs that keep votes (even membership, or no freed vote cast again in its term) |
| `Safety.CommittedEntriesEqual` | raft/replication.go:245-253 | the same through the code's own accessor: wherever both nodes still store i, `Get` returns the same real entry |
| `Safety.CommittedForever` | raft/replication.go:223-240 | what a node knew committed stays a prefix of its whole log in every continuation: never truncated, never replaced |
| `SafetyLimits.StateMachineSafetyIff` | raft/node.go:480-499 | the law holds in all sessions of the code as written, pre-vote included, if and only if the membership is even or a single node |
| `SafetyLimits.CommittedClash` | raft/node.go:497 | for every odd membership of three or more, a cluster that sessions with pre-vote reach, with two nodes holding different entries at an index both know committed |
| `Safety.StoredIsCompacted` | raft/replication.go:223-240 | in every run the stored log is the whole log compacted at its boundary, contiguous, with terms between 1 and the node's own and the commit index inside it |
| `Safety.LeaderCompleteness` | raft/election.go:218-231 | a leader of a later or equal term holds everything any node ever knew committed in that term or before |
| `Safety.PastLeaderComplete` | raft/replication.go:158-162 | a leader had, while it led, everything any node ever comes to know committed in an earlier term, even where that was counted only after it stopped leading |
| `Safety.ElectionSafety` | raft/election.go:116-170 | two nodes that lead the same term, at the same or different moments of a run that keeps votes, are one node |
| `ElectionLimits.ElectionSafetyIff` | raft/election.go:14-20 | for the code as written, pre-vote included, Election Safety holds in all sessions if and only if the membership is even or a single node |
| `ElectionLimits.TwoLeaders` | raft/node.go:496-498 | for every odd membership of three or more, a session with pre-vote in which one node and then another leads term 1 |
| `Safety.LogMatching` | raft/replication.go:196-240 | whole logs without a stale suffix that agree on a term at i agree on everything up to i |
| `Matching.StoredLogsMatch` | raft/replication.go:196-213 | Log Matching on what nodes store: the same term at an index, on any two nodes at any two moments, means the same stored entries up to it, stale suffixes included |
| `Matching.StoredFromLeader` | raft/replication.go:223-240 | whatever a node stores up to an index is what the leader of that index's term put there |
| `Matching.MessagesMatch` | raft/replication.go:52-67 | an entry in flight equals the entry any node stores, then or later, with its index and term |
| `Safety.UntidyIsConfined` | raft/log.go:99-104 | a stale suffix behind an installed snapshot occurs only on a non-leader whose commit index is its boundary |
| `Matching.InstallKeepsTidyIff` | raft/snapshot.go:70-75 | a log without stale suffix is left so by an installed snapshot exactly when the snapshot reaches its end or agrees with its term at the boundary |
| `StaleSuffixes.StaleSuffixArises` | raft/log.go:99-104 | in every cluster of three or more some session that keeps votes leaves a node with an entry of term 1 behind a boundary of term 2 |
| `StaleSuffixes.SmallTidy` | raft/snapshot.go:70-75 | in a cluster of one or two no session that keeps votes does |
| `StaleSuffixes.AlwaysTidyIff` | raft/log.go:88-105 | no session that keeps votes leaves a stale suffix if and only if the cluster has at most two members |
| `StaleSuffixes.HolderClean` | raft/replication.go:158-162 | a node counted for the commit that covers its boundary has no stale suffix |
| `Safety.MatchIndexSound` | raft/replication.go:103-110 | in every run matchIndex lies within the leader's log, and as long as the peer stays in the leader's term its log has the leader's entries that far, whatever has become of the leader since |
| `Safety.CommitRuleIsBest` | raft/replication.go:145-163 | in every run maybeCommit moves to the greatest index Figure 2 allows whenever there is one, and nowhere else |
| `Confirmations.ConfirmationsStay` | raft/replication.go:103-111 | in one term of office a leader's matchIndex and commit index only grow, however replies are lost, repeated or late |
| `Confirmations.CommitNeverFalls` | raft/replication.go:245-253 | in every run a commit index falls only where its node's process ends |
| `Confirmations.AcceptanceConfirms` | raft/replication.go:103-111 | an acceptance moves that peer's matchIndex to the furthest confirmed entry and nextIndex right behind it, no other peer's, and never lowers the commit index |
| `Confirmations.RejectionConfirmsNothing` | raft/replication.go:114-138 | a rejection moves nextIndex of that peer and nothing else |
| `Safety.LeaderCommitWithinMessage` | raft/replication.go:52-67 | every AppendEntries in flight has LeaderCommit within its own entries, or can never be accepted |
| `Safety.VoteRemembered` | raft/election.go:226-231 | a granted vote is still the node's vote while it stays in that term, across restarts, unless its own quorum check failed in that term |
| `Safety.AcknowledgedKept` | raft/replication.go:255-256 | an acknowledged message's entries are still in the log while the node stays in that term, across restarts |
| `Terms.GoldenRule` | raft/election.go:150-153 | in every run any message that reaches a node leaves its term the greater of the two, and a raised term makes a follower |
| `Terms.StaleSenderStepsDown` | raft/election.go:207-216 | the answer to a request carries the answering node's term, at least the request's, and whenever it reaches a sender still below that term the sender becomes a follower of it |
| `Terms.VoteRule` | raft/election.go:207-234 | RequestVote of Figure 2: granted exactly to an up-to-date candidate whose term leaves the vote free; the reply has the node's new term, and term, vote and role are stated |
| `Terms.VoteRepeats` | raft/election.go:218-231 | asking again gets the same answer and moves no vote |
| `Terms.ProbeRule` | raft/election.go:63-76 | a probe is the request its sender would make as a candidate, binds nobody, and a granted one is granted for real by a node whose vote is free |
| `Terms.AppendRule` | raft/replication.go:173-195 | the answer to entries has the node's new term; when the node steps down, and whom it names as leader |
| `Terms.InstallRule` | raft/snapshot.go:52-66 | the same for a snapshot |
| `Terms.RepliesRule` | raft/replication.go:85-94 | every kind of reply leaves the greater term, and a higher one a follower without a vote |
| `KnownLeaders.NamesTheLeader` | cmd/kvstore/main.go:112-119 | whoever leads a node's term, then or later, is the only leader the node can name, and a leader names itself |
| `KnownLeaders.RunNamesWinners` | raft/election.go:14-50 | in every run that keeps votes a node names nobody or the winner of its own term |
| `SnapshotTrips.SnapshotRoundTrip` | raft/snapshot.go:104-132 | after a snapshot is sent, installed and confirmed the peer needs none, the next message starts right behind what is confirmed, and the peer accepts it if and only if it has not compacted further than that itself; if it has, the answer points past the end of its log |
| `SnapshotTrips.SnapshotThenEntries` | raft/replication.go:52-67 | and once it accepts, its whole log has the leader's |
| `SnapshotTrips.ReplyConfirms` | raft/snapshot.go:122-131 | a reply to a snapshot moves the peer's indices behind the furthest confirmed entry, no other peer's, and says when another snapshot is needed |
| `SnapshotTrips.MatchedAccepted` | raft/replication.go:196-213 | in every reachable cluster a message that starts at matchIndex is accepted exactly by a peer that has not compacted past it |
| `AppendSpec.AcceptedMessage` | raft/replication.go:215-256 | an accepted message leaves exactly its entries over its range, a longer log that had them untouched, and the commit index of Figure 2, min(leaderCommit, last new entry), although the code caps with its own last index |
| `AppendSpec.StaleMessageIgnored` | raft/replication.go:223-240 | after an acknowledgement in the current term, that message or any shorter one of the same leader leaves the log as it is |
| `ClusterAppends.AppendLoopAdopts` | raft/replication.go:223-240 | the loop over entries refines one rule on whole logs: keep the log if it has the leader's prefix, else become that prefix |
| `Backtracking.MismatchBacksUp` | raft/replication.go:116-138 | after a term mismatch nextIndex falls strictly, stays past the longest common prefix, and any next mismatch has a smaller term |
| `Backtracking.BacktrackingConverges` | raft/replication.go:116-138 | rejections before acceptance number at most one plus the distinct terms in the follower's log |
| `Backtracking.RunBacktracks` | raft/replication.go:196-213 | the bound holds in every run for a leader and a follower with uncompacted logs, wherever nextIndex stands |
| `Backtracking.RoundOutcome` | raft/replication.go:72-139 | one round trip either leaves the follower with the leader's log or keeps the conditions of the bound with a smaller nextIndex |
| `Backtracking.RelatedIsDecided` | raft/log.go:110-117 | logs drawn from the per-term leader logs decide each other's entries by term, which pairwise Log Matching alone does not give |
| `Recovery.RunDurable` | raft/persist.go:50-109 | in every run, without conditions, each node's disk alone rebuilds its term, vote and log, and no node's term ever goes down |
| `Recovery.CrashInTakeSnapshot` | raft/snapshot.go:26-43 | from every image written by TakeSnapshot a restart has the compacted log, the snapshot's state and the snapshot index as boundary |
| `Recovery.CrashInInstall` | raft/snapshot.go:48-99 | from every image written by HandleInstallSnapshot a restart has the installed log and, once the snapshot file is written, the snapshot's state, or the old log under the new term |
| `Recovery.CrashInVote` | raft/election.go:207-231 | from every image written while voting a restart has the vote, or the new term without it |
| `Recovery.CrashInAppend` | raft/replication.go:173-255 | from every image written while taking entries a restart has the new log, or the old log under the new term |
| `Recovery.SavedRecovers` | raft/snapshot.go:36-41 | between the two files the saved snapshot already implies the compacted log |
| `Recovery.NextKept` | raft/node.go:505-561 | no event, crash or not, lowers a term or leaves a disk that does not rebuild the node |
| `Program.SessionIsRun` | raft/node.go:505-561 | every session, with probes, apply loops, snapshots and calls in separate steps, is node for node and message for message a run of the cluster, so the run theorems carry over |
| `Program.StepIsEvent` | raft/apply.go:42-100 | every action moves the cluster by one event or not at all |
| `Program.CrashOutcome` | raft/snapshot.go:148-167 | a crash, wherever it strikes, restarts its victim as a follower that has applied what its snapshot covers and leaves every other node as it was |
| `Replicas.SessionInStep` | raft/apply.go:42-100 | in every session in order each apply loop is in step: its map, the entry in hand, the queued snapshot and the bytes read all replay the log |
| `Replicas.MachineIsReplay` | raft/apply.go:63-97 | in sessions that restore and capture in order, between entries the map is the replay of the entries up to lastApplied, and while an entry is in hand, of the entries before it |
| `Replicas.AppliedStays` | raft/apply.go:66-68 | only taking an entry, an installed snapshot and a restart move lastApplied |
| `Replicas.ReplicasAgree` | kvstore/kvstore.go:195-214 | replicas that have applied equally far hold equal maps, whenever each got there |
| `Replicas.ReadsLastWrite` | kvstore/kvstore.go:89-97 | between entries a key holds a value if and only if the last applied entry to name the key set it to that value |
| `Machine.LastWriterWins` | kvstore/kvstore.go:195-214 | for every log and key: the replay maps the key to a value exactly when some entry sets it and no later one sets or deletes it |
| `Reports.NothingLostOrInvented` | raft/apply.go:48-93 | in every session what a store has drained since its node started, what is on the channel and what is in hand are, in order, one message per entry taken and snapshot restored |
| `Replicas.StandsInIff` | raft/apply.go:48-51 | the map after i entries can stand in for the map after j, whatever the log, exactly when i equals j: the index tests of both orders are exact |
| `ReplicaLimits.BothOrdersAgree` | raft/apply.go:48-97 | with restores and captures both in order, two replicas that have applied equally far never hold different maps |
| `ReplicaLimits.RestoreDiverges` | raft/apply.go:48-51 | in every cluster of two or more, a session that keeps votes and takes its snapshots in order, and ends with two replicas that have applied the same entries and hold different maps |
| `ReplicaLimits.CaptureDiverges` | kvstore/kvstore.go:173-177 | the same with nothing restored from the queue and one snapshot taken after its bytes were read |
| `ReplicaLimits.BothOrdersNeededIff` | raft/snapshot.go:88-96 | replicas agree without the one order, or without the other, if and only if the cluster has at most one member |
| `Replicas.RestoreThenApply` | raft/snapshot.go:148-167 | restoring a snapshot taken at i and applying i+1..k equals applying 1..k |
| `Submissions.SubmittedCommandIsOwn` | raft/node.go:253-262 | an entry known committed anywhere later with the index and term Submit returned is the submitted command |
| `Clients.AnsweredCallIsOwn` | kvstore/kvstore.go:107-170 | in every session a call answered with a result had its own command committed and applied on its node at its index and term, and the result is that command's |
| `Answers.EntryAnswers` | kvstore/kvstore.go:155-169 | draining an entry with a waiting call's index and term answers that call with its own command's result and ends its wait |
| `Answers.AnswersHaveCauses` | kvstore/kvstore.go:107-189 | every answer has its cause: a result is that of the call's own entry, a refusal means an entry of another term applied at its index on its node or a snapshot drained while it waited, a timeout that it gave up |
| `Answers.WaitsOn` | kvstore/kvstore.go:118-131 | a registered call stays registered until an entry at its index, a snapshot, a crash, an expiry at its index or another call registered there |
| `Answers.TableMoves` | kvstore/kvstore.go:138-189 | what each action of the program does to a node's table of calls, and that no other touches it |
| `Answers.SnapshotRefuses` | kvstore/kvstore.go:182-189 | a drained snapshot refuses exactly those who wait |
| `Answers.OtherTermRefuses` | kvstore/kvstore.go:163-166 | an entry of another term at a waiting call's index refuses it |
| `Answers.SubmitAccepts` | kvstore/kvstore.go:113-116 | a leader accepts a call exactly by making its command the new last entry, at the index and term the call is given; anyone else accepts none and changes nothing |
| `Answers.UnawaitedEntry` | kvstore/kvstore.go:153-161 | an entry nobody waits for changes no pending call and no answer |
| `Answers.Registers` | kvstore/kvstore.go:117-121 | a call that registers is waited for at its index with the term Submit gave it |
| `Answers.ExpiryTells` | kvstore/kvstore.go:126-131 | a caller that gives up is told so and frees its index |
| `Clients.SessionHolds` | kvstore/kvstore.go:138-179 | in every session each pending call, queued message and answer is backed by a submitted command or an applied, committed entry |
| `Clients.OwnCommand` | kvstore/kvstore.go:162-169 | whatever was applied with a call's index and term is the call's command |
| `Program.ProbeTransparent` | raft/election.go:188-204 | asking, answering and counting a probe leave everything but the probe as it was |
| `PreVote.ProbesHold` | raft/election.go:63-111 | every probe was asked with the prober's own term, log and peers, and every counted grant was given by that peer while not hearing a leader and finding that log up to date |
| `PreVote.CandidacyNeedsMajority` | raft/node.go:533-542 | a node becomes candidate of a new term only by proceeding from one probe that it sent with its own next term and log to the peers it had, and that a majority, itself included, granted while not hearing a leader and finding that log up to date |
| `PreVote.OnlyStandingMakesCandidates` | raft/election.go:25-32 | no event but the election timeout makes a candidate |
| `Runs.RunGood` | raft/node.go:505-561 | every run that keeps votes satisfies the invariant that ties nodes, disks, messages and vote rounds to the protocol history |
| `Runs.NextGood` | raft/node.go:519-560 | every single event keeps that invariant and only extends the history |
| `Runs.VotesChange` | raft/node.go:496-498 | votes are added only by standing and granting, and erased only by a failed quorum check |
| `ProtocolElections.OnlyWinner` | raft/election.go:133 | whoever gathers a majority of votes in a term that has a winner is that winner, the erased vote notwithstanding when the membership is even |
| `ProtocolElections.WinnerHasCommits` | raft/election.go:218-226 | a winner's log holds every counted commit of an earlier term: commit quorum and vote quorum meet in an up-to-date voter |
| `ProtocolElections.WinnerIsClean` | raft/log.go:99-104 | a node with a stale suffix cannot win |
| `ProtocolElections.WinInv` | raft/election.go:37-50 | becoming leader keeps the protocol invariant |
| `ProtocolElections.GrantInv` | raft/election.go:218-231 | granting a vote keeps the protocol invariant |
| `ProtocolElections.StandInv` | raft/election.go:25-32 | standing keeps the protocol invariant |
| `ProtocolReplication.LeaderAppendInv` | raft/node.go:259-262 | a leader's append keeps the protocol invariant |
| `ProtocolFollowers.AcceptInv` | raft/replication.go:215-256 | accepting entries keeps the protocol invariant |
| `ProtocolFollowers.InstallInv` | raft/snapshot.go:70-82 | installing a snapshot keeps the protocol invariant, also where the boundary does not match |
| `ProtocolCommits.LaterLeaderHas` | raft/replication.go:158-162 | every leader elected after a counted commit holds it |
| `ProtocolCommits.AdvanceInv` | raft/replication.go:158-162 | advancing the commit index by counting keeps the protocol invariant |
| `CommitRule.QuorumIndexIsGreatest` | raft/replication.go:145-156 | the chosen element of the descending sort reaches k exactly when a majority's progress does |
| `CommitRule.MaybeCommitIsBest` | raft/replication.go:158-162 | with non-decreasing terms the single term test finds the greatest index Figure 2 allows |
| `CommitRule.CountProgress` | raft/replication.go:147-151 | counting array elements counts distinct nodes |
| `CommitRule.SortSorts` | raft/replication.go:154 | sorting orders the array and keeps every count |
| `Quorums.MajoritiesMeet` | raft/election.go:133 | two majorities of one membership share a node |
| `Quorums.EvenMajoritiesMeetTwice` | raft/node.go:495 | with an even membership two majorities share a node other than any chosen one |
| `Quorums.SingleChangeMajoritiesMeet` | raft/node.go:331-354 | majorities of two memberships one added node apart share a node |
| `LogStore.CompactionInvisible` | raft/log.go:47-138 | after any sequence of appends, truncations above the boundary and compactions with the log's own term, the stored log is the whole log compacted at the highest boundary |
| `Logs.GetCompacted` | raft/log.go:53-59 | reading: the whole log's entry above the boundary, its index and term at it, nothing elsewhere |
| `Logs.LastCompacted` | raft/log.go:62-69 | last index, last term and boundary of a stored log in terms of the whole log |
| `Logs.SliceCompacted` | raft/log.go:121-138 | slicing to the end above the boundary is slicing the whole log |
| `Logs.TruncateCompacted` | raft/log.go:73-82 | truncating above the boundary is truncating the whole log |
| `Logs.CompactCompacted` | raft/log.go:88-105 | compacting to any prefix's end overlays that prefix and keeps the suffix, whether or not they agree |
| `Logs.CompactOwn` | raft/log.go:88-105 | compacting with the log's own term changes the boundary only |
| `Logs.CompactTwice` | raft/log.go:88-105 | successive compactions compose to the later one |
| `Logs.FirstIndexFinds` | raft/log.go:110-117 | the first stored index of a term, boundary included, or 0 |
| `LogStore.Log.constructor` | raft/log.go:34-38 | a fresh log stands for the empty one |
| `LogStore.Log.Append` | raft/log.go:47-49 | the whole log grows by the entries, the boundary stays |
| `LogStore.Log.Get` | raft/log.go:53-59 | the whole log's entry, the boundary, or the zero entry, with no index underflow |
| `LogStore.Log.LastIndex` | raft/log.go:62-64 | the length of the whole log |
| `LogStore.Log.LastTerm` | raft/log.go:67-69 | the last term of the whole log, the boundary's when nothing is stored |
| `LogStore.Log.TruncateFrom` | raft/log.go:73-82 | the whole log loses its suffix above the boundary, and nothing at or below it |
| `LogStore.Log.CompactTo` | raft/log.go:88-105 | the boundary only rises; with the log's own term the whole log is unchanged, with a foreign one its prefix is replaced and its suffix kept |
| `LogStore.Log.FirstIndexForTerm` | raft/log.go:110-117 | the scan finds the first stored index of the term or 0 |
| `LogStore.Log.Slice` | raft/log.go:121-138 | the whole log's entries in the range that are still stored |
| `LogStore.Log.Load` | raft/persist.go:105-107 | loaded entries stand for a whole log with the same boundary and suffix |
| `Servers.RaftNode.constructor` | raft/node.go:129-158 | a follower in term 0 with an empty log over the given disk |
| `Servers.RaftNode.Persist` | raft/persist.go:50-83 | the state file becomes term, vote and stored log; the snapshot file is untouched |
| `Servers.RaftNode.SaveSnapshot` | raft/snapshot.go:172-193 | the snapshot file alone is replaced |
| `Servers.RaftNode.LoadState` | raft/persist.go:88-109 | term, vote and log come from the state file |
| `Servers.RaftNode.RestoreFromSnapshot` | raft/snapshot.go:148-167 | the node after a start: compacted to the snapshot, indices raised to it, map restored |
| `Servers.RaftNode.BecomeFollower` | raft/election.go:14-20 | the step of becomeFollower, with one image written |
| `Servers.RaftNode.BecomeCandidate` | raft/election.go:25-32 | the step of becomeCandidate, with one image written |
| `Servers.RaftNode.BecomeLeader` | raft/election.go:37-50 | the node names itself, every peer starts behind the end of the log with nothing confirmed, and nothing is written |
| `Servers.RaftNode.CheckQuorum` | raft/node.go:480-499 | a leader stays leader if and only if it and the distinct peers heard from are a majority; the term stays; one image is written if it steps down, none otherwise |
| `Servers.HeardFromCounts` | raft/node.go:489-494 | the counting loop counts distinct peers that answered |
| `Servers.RaftNode.Tick` | raft/node.go:551-558 | the leader steps down exactly without a majority heard from, and the messages of the tick are those it would have sent before the check |
| `Servers.RaftNode.BuildRound` | raft/replication.go:15-35 | exactly one message per peer, a snapshot where its entries are gone |
| `Servers.RaftNode.Stand` | raft/node.go:535-541 | candidacy only for a non-leader with peers |
| `Servers.RaftNode.HandleRequestVote` | raft/election.go:179-234 | the step of the handler, pre-vote included, the term it answers with, and the images it wrote in order |
| `Servers.RaftNode.BuildVoteArgs` | raft/election.go:119-129 | the request carries the term and the end of the log at the time it is built, not at the time of candidacy |
| `Servers.RaftNode.ProbeSucceeds` | raft/election.go:77-110 | the counting loop that stops early says whether the peers that granted, and the node, are a majority: the condition on which sessions let a node stand |
| `Servers.GrantedCounts` | raft/election.go:95-108 | counting grants counts the distinct peers that granted |
| `Servers.RaftNode.ReceiveVote` | raft/election.go:146-168 | the step of the vote goroutine on its own counter |
| `Servers.RaftNode.Submit` | raft/node.go:253-275 | leaders append one entry of their term at the end, return its place and send every peer its message; others refuse and change nothing |
| `Servers.RaftNode.BuildArgs` | raft/replication.go:52-67 | the message the step function describes |
| `Servers.RaftNode.BuildSnapshotArgs` | raft/snapshot.go:136-144 | boundary, its term and the snapshot kept in memory |
| `Servers.RaftNode.HandleAppendEntries` | raft/replication.go:169-261 | the step of the handler, the term it answers with, and the images it wrote in order |
| `Servers.RaftNode.TakeEntries` | raft/replication.go:223-240 | the loop leaves the log the recursive step describes and never moves the boundary |
| `Servers.RaftNode.ReceiveAppendReply` | raft/replication.go:82-139 | the step on a reply: step down, ignore, confirm and count, or back up |
| `Servers.RaftNode.LastOfTerm` | raft/replication.go:121-127 | the backward scan finds the last index of the term, or 0 |
| `Servers.RaftNode.MaybeCommit` | raft/replication.go:145-163 | filling, sorting and picking is the step of maybeCommit |
| `Servers.RaftNode.TakeSnapshot` | raft/snapshot.go:26-43 | the step of TakeSnapshot, its two images in order, the whole log unchanged |
| `Servers.RaftNode.HandleInstallSnapshot` | raft/snapshot.go:48-99 | the step of the handler, the images it wrote in order, and the newest snapshot handed to the apply loop |
| `Servers.RaftNode.ReceiveSnapshotReply` | raft/snapshot.go:114-131 | the step on a snapshot reply: step down, ignore, or move matchIndex to the furthest confirmed entry and nextIndex right behind it |
| `Servers.RaftNode.TakeNext` | raft/apply.go:65-76 | under the lock: the next committed entry is copied and counted as applied, if there is one |
| `Servers.RaftNode.FinishNext` | raft/apply.go:79-92 | without it: the map moves by the entry and its result is reported, membership entries do neither |
| `Servers.RaftNode.RestoreNotified` | raft/apply.go:48-61 | the handed-over snapshot replaces the map, whatever was applied since |
| `Servers.RaftNode.ApplyCommitted` | raft/apply.go:66-96 | the loop of these turns applies everything committed, when nothing moves in between |
| `Servers.DrainedReplays` | raft/apply.go:66-96 | what it applies is the fold of exactly the committed, unapplied entries in index order |
| `Stores.KVStore.constructor` | kvstore/kvstore.go:65-76 | an empty map, no waiting calls, a snapshot every 100 entries |
| `Stores.KVStore.Apply` | kvstore/kvstore.go:195-214 | a SET leaves the key with the value, a DEL leaves it absent, every other key and every other command leaves the map; the result says which it was; and the map moves as the replay does |
| `Stores.KVStore.FailAllPending` | kvstore/kvstore.go:182-189 | every waiting call is refused and none is left |
| `Stores.KVStore.Receive` | kvstore/kvstore.go:138-179 | one apply message: the call waiting at its index gets the result if the terms agree and a refusal if not, a snapshot refuses all, nothing else moves; and when a snapshot is due |
| `Stores.FailOne` | kvstore/kvstore.go:185-188 | failing one waiting call and then the rest is failing them all |
| `Machine.ReplaySplit` | kvstore/kvstore.go:229-242 | replaying a log in two parts is replaying it whole |
| `Scenarios.WinElection` | raft/election.go:63-170 | any non-leader wins its next term, probe first, given a majority that would vote for it, every other node staying as it was |
| `Scenarios.StandLeads` | raft/node.go:533-542 | a node stands once a majority has granted its probe, whatever else is going on |
| `Scenarios.CalmKeepsVotes` | raft/node.go:551-558 | a session without quorum checks keeps votes |
| `Exchanges.Spread` | raft/replication.go:72-163 | a leader brings its log to followers that store nothing, rejections included, and commits it once they make a majority |
| `Exchanges.RejectedTwice` | raft/replication.go:72-139 | two messages sent before the first answer leave a second rejection under way |

## Left out

- Membership changes over runs: configurations take effect at different points on leaders and followers; only the overlap of majorities one node apart is proved, and a committed membership entry is applied without changing the peer list.
- Unsigned 64-bit overflow of terms and indices: they are unbounded here; the subtractions that could underflow are proved not to.
- Failing disk writes, the encoding of the two files and their temporary names: a write replaces the whole file value.
- Transports, timeouts of single calls and the pairing of goroutines with connections: a reply carries its request and may arrive any number of times, except that a vote round counts each peer once.
- Real time, random timeouts and progress: timeouts are always possible and no eventual election is claimed.
- Which of its two channels the apply loop serves first, and the order of two snapshots handed over at once: any order the program allows is a session.
- Linearizable reads: reads are local and may be stale.
- The blocking call of the store as one method: its parts, submitting, registering and giving up, are the actions Submit, Wait and Expire of sessions.
- Channel capacities, shutdown, heartbeat counters and the accessors for display.
- The chaos rules, the sidecar, the HTTP handlers, the dashboard and the deployment files.
- Safety.StateMachineSafety: conditional on runs that keep votes, because the law is false of the code when a freed vote is cast again; SafetyLimits.StateMachineSafetyIff gives the exact memberships.
- Safety.ElectionSafety: conditional on runs that keep votes, because the law is false of the code when a freed vote is cast again; ElectionLimits.ElectionSafetyIff gives the exact memberships.
- Safety.LeaderCompleteness: conditional on runs that keep votes, since it rests on one leader per term; the same holds for the other run theorems of Safety, AppendSpec, Matching, Backtracking, Submissions, Replicas and Clients.
- Safety.LogMatching: on whole logs, and for those without a stale suffix, because the law is false of one that has it; Matching.StoredLogsMatch holds of everything stored, and StaleSuffixes.AlwaysTidyIff and Matching.InstallKeepsTidyIff say exactly where and when a suffix becomes stale.
- Replicas.MachineIsReplay: for sessions that restore and capture in order, because the law is false otherwise; ReplicaLimits.BothOrdersNeededIff shows that neither order can be given up.
- Servers.RaftNode.ApplyCommitted: the loop without interference; the lock is released between entries, and sessions interleave its turns, TakeNext and FinishNext, with everything else.
- Backtracking.RunBacktracks: for uncompacted logs and a leader whose log does not grow meanwhile, as the promised bound is.
- Clients.AnsweredCallIsOwn: a call whose entry is applied before it registers times out although its command took effect, as in the program; only answered calls are promised anything.
