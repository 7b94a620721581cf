/**
 One node as a value: the fields of RaftNode, the disk it writes, and every
 critical section of the code as a function from the node before to the node
 after. Time enters as arguments: whether a leader was heard recently, how many
 peers answered in time. The state machine is not part of it: snapshots carry a
 value of it that comes from outside.
 */
module Nodes {
  import opened Entries
  import opened Logs
  import opened Machine
  import opened Quorums

  datatype SnapshotFile = SnapshotFile(index: nat, term: nat, data: Store)

  /** The two files a node keeps, each replaced atomically. */
  datatype Disk = Disk(term: nat, votedFor: Id, entries: seq<LogEntry>, snapshot: SnapshotFile)

  const FRESH_LOG: seq<LogEntry> := [Sentinel(0, 0)]
  const NO_SNAPSHOT: SnapshotFile := SnapshotFile(0, 0, map[])
  const EMPTY_DISK: Disk := Disk(0, "", FRESH_LOG, NO_SNAPSHOT)

  datatype Node = Node(
    id: Id,
    peers: seq<Id>,
    term: nat,
    votedFor: Id,
    log: seq<LogEntry>,
    role: Role,
    commitIndex: nat,
    lastApplied: nat,
    nextIndex: map<Id, nat>,
    matchIndex: map<Id, nat>,
    leaderId: Id,
    snapshotData: Store,
    disk: Disk)

  datatype VoteArgs = VoteArgs(term: nat, candidate: Id, lastIndex: nat, lastTerm: nat, isPreVote: bool)
  datatype VoteReply = VoteReply(term: nat, granted: bool)
  datatype AppendArgs = AppendArgs(term: nat, leader: Id, prevIndex: nat, prevTerm: nat,
                                   entries: seq<LogEntry>, leaderCommit: nat)
  datatype AppendReply = AppendReply(term: nat, success: bool, conflictTerm: nat, conflictIndex: nat)
  datatype SnapshotArgs = SnapshotArgs(term: nat, leader: Id, lastIndex: nat, lastTerm: nat, data: Store)
  datatype SnapshotReply = SnapshotReply(term: nat)

  ghost predicate Usable(n: Node) {
    |n.log| > 0 && |n.disk.entries| > 0
  }

  function NewNode(id: Id, peers: seq<Id>, disk: Disk): Node {
    Node(id, peers, 0, "", FRESH_LOG, Follower, 0, 0, map[], map[], "", map[], disk)
  }

  /** A map read as Go reads it: an absent key yields zero. */
  function Index(m: map<Id, nat>, p: Id): nat {
    if p in m then m[p] else 0
  }

  function Filled(m: map<Id, nat>, keys: seq<Id>, value: nat): map<Id, nat> {
    m + map p | p in keys :: value
  }

  // ---------------------------------------------------------------- persistence

  function Persist(n: Node): Node {
    n.(disk := n.disk.(term := n.term, votedFor := n.votedFor, entries := n.log))
  }

  function SaveSnapshot(n: Node, index: nat, term: nat, data: Store): Node {
    n.(disk := n.disk.(snapshot := SnapshotFile(index, term, data)))
  }

  function LoadState(n: Node): Node {
    n.(term := n.disk.term, votedFor := n.disk.votedFor, log := n.disk.entries)
  }

  function RestoreFromSnapshot(n: Node): Node
    requires |n.log| > 0
  {
    var s := n.disk.snapshot;
    if s.index == 0 then n
    else n.(snapshotData := s.data,
            log := CompactTo(n.log, s.index, s.term),
            lastApplied := if n.lastApplied < s.index then s.index else n.lastApplied,
            commitIndex := if n.commitIndex < s.index then s.index else n.commitIndex)
  }

  /** A process that starts on a disk left behind by an earlier one. */
  function Boot(id: Id, peers: seq<Id>, disk: Disk): Node
    requires |disk.entries| > 0
  {
    RestoreFromSnapshot(LoadState(NewNode(id, peers, disk)))
  }

  /** The state machine such a process starts with. */
  function RestoredStore(disk: Disk): Store {
    if disk.snapshot.index == 0 then map[] else disk.snapshot.data
  }

  function Reboot(n: Node): Node
    requires Usable(n)
  {
    Boot(n.id, n.peers, n.disk)
  }

  // ---------------------------------------------------------------- roles

  function BecomeFollower(n: Node, term: nat): Node {
    Persist(n.(role := Follower, term := term, votedFor := "", leaderId := ""))
  }

  function BecomeCandidate(n: Node): Node {
    Persist(n.(role := Candidate, term := n.term + 1, votedFor := n.id, leaderId := ""))
  }

  function BecomeLeader(n: Node): Node
    requires |n.log| > 0
  {
    n.(role := Leader, leaderId := n.id,
       nextIndex := Filled(n.nextIndex, n.peers, LastIndex(n.log) + 1),
       matchIndex := Filled(n.matchIndex, n.peers, 0))
  }

  /** The election timer fired and the pre-vote round succeeded. */
  predicate MayStand(n: Node) {
    n.role != Leader && |n.peers| > 0
  }

  function Majority(n: Node): nat {
    MajoritySize(|n.peers| + 1)
  }

  // ---------------------------------------------------------------- elections

  function BuildVoteArgs(n: Node): VoteArgs
    requires |n.log| > 0
  {
    VoteArgs(n.term, n.id, LastIndex(n.log), LastTerm(n.log), false)
  }

  function BuildPreVoteArgs(n: Node): VoteArgs
    requires |n.log| > 0
  {
    VoteArgs(n.term + 1, n.id, LastIndex(n.log), LastTerm(n.log), true)
  }

  predicate UpToDate(args: VoteArgs, log: seq<LogEntry>)
    requires |log| > 0
  {
    args.lastTerm > LastTerm(log) || (args.lastTerm == LastTerm(log) && args.lastIndex >= LastIndex(log))
  }

  function HandleRequestVote(n: Node, args: VoteArgs, heardLeader: bool): (Node, VoteReply)
    requires |n.log| > 0
  {
    if args.isPreVote then
      (n, VoteReply(n.term, !heardLeader && UpToDate(args, n.log)))
    else
      var m := if args.term > n.term then BecomeFollower(n, args.term) else n;
      if args.term < m.term then (m, VoteReply(m.term, false))
      else if (m.votedFor == "" || m.votedFor == args.candidate) && UpToDate(args, m.log) then
        (Persist(m.(votedFor := args.candidate)), VoteReply(m.term, true))
      else (m, VoteReply(m.term, false))
  }

  /** A vote reply reaches the goroutine that asked; `votes` is that goroutine's own count. */
  function ReceiveVote(n: Node, term: nat, votes: nat, reply: VoteReply): (Node, nat)
    requires |n.log| > 0
  {
    if reply.term > n.term then (BecomeFollower(n, reply.term), votes)
    else if n.role != Candidate || n.term != term then (n, votes)
    else if !reply.granted then (n, votes)
    else if votes + 1 >= Majority(n) then (BecomeLeader(n), votes + 1)
    else (n, votes + 1)
  }

  function CheckQuorum(n: Node, heard: nat): Node {
    if n.role == Leader && heard < Majority(n) then BecomeFollower(n, n.term) else n
  }

  // ---------------------------------------------------------------- replication

  function Submit(n: Node, command: Command): (Node, nat, nat)
    requires |n.log| > 0 && n.role == Leader
  {
    var index := LastIndex(n.log) + 1;
    (Persist(n.(log := n.log + [CommandEntry(n.term, index, command)])), index, n.term)
  }

  /** Does the next message to this peer have to be a snapshot? */
  predicate NeedsSnapshot(n: Node, p: Id)
    requires |n.log| > 0
  {
    Index(n.nextIndex, p) <= SnapshotIndex(n.log)
  }

  function BuildArgs(n: Node, p: Id): AppendArgs
    requires |n.log| > 0 && !NeedsSnapshot(n, p)
  {
    var next := Index(n.nextIndex, p);
    AppendArgs(n.term, n.id, next - 1, Get(n.log, next - 1).term,
               Slice(n.log, next, LastIndex(n.log) + 1), n.commitIndex)
  }

  function BuildSnapshotArgs(n: Node): SnapshotArgs
    requires |n.log| > 0
  {
    SnapshotArgs(n.term, n.id, SnapshotIndex(n.log), SnapshotTerm(n.log), n.snapshotData)
  }

  /** The loop over incoming entries. */
  function AppendLoop(log: seq<LogEntry>, entries: seq<LogEntry>): (r: seq<LogEntry>)
    requires |log| > 0
    ensures |r| > 0
  {
    if |entries| == 0 then log
    else
      var e := entries[0];
      if e.index <= SnapshotIndex(log) then AppendLoop(log, entries[1..])
      else
        var existing := Get(log, e.index);
        if existing.term == 0 then log + entries
        else if existing.term != e.term then TruncateFrom(log, e.index) + entries
        else AppendLoop(log, entries[1..])
  }

  function HandleAppendEntries(n: Node, args: AppendArgs): (Node, AppendReply)
    requires |n.log| > 0
  {
    var m :=
      if args.term > n.term then BecomeFollower(n, args.term)
      else if args.term == n.term && n.role == Candidate then n.(role := Follower)
      else n;
    if args.term < m.term then (m, AppendReply(m.term, false, 0, 0))
    else
      var f := m.(leaderId := args.leader);
      var prev := Get(f.log, args.prevIndex);
      if args.prevIndex > 0 && prev.term == 0 then
        (f, AppendReply(f.term, false, 0, LastIndex(f.log) + 1))
      else if args.prevIndex > 0 && prev.term != args.prevTerm then
        (f, AppendReply(f.term, false, prev.term, FirstIndexForTerm(f.log, prev.term)))
      else
        var log := AppendLoop(f.log, args.entries);
        var commit :=
          if args.leaderCommit > f.commitIndex then
            (if args.leaderCommit < LastIndex(log) then args.leaderCommit else LastIndex(log))
          else f.commitIndex;
        (Persist(f.(log := log, commitIndex := commit)), AppendReply(f.term, true, 0, 0))
  }

  /** The last index holding the term, scanning back from `from`; 0 when there is none. */
  function LastIndexForTerm(log: seq<LogEntry>, term: nat, from: nat): nat
    requires |log| > 0
  {
    if from == 0 then 0
    else if Get(log, from).term == term then from
    else LastIndexForTerm(log, term, from - 1)
  }

  function BackUp(log: seq<LogEntry>, reply: AppendReply): nat
    requires |log| > 0
  {
    var next :=
      if reply.conflictTerm == 0 then reply.conflictIndex
      else
        var found := LastIndexForTerm(log, reply.conflictTerm, LastIndex(log));
        if found > 0 then found + 1 else reply.conflictIndex;
    if next < 1 then 1 else next
  }

  function ReceiveAppendReply(n: Node, p: Id, term: nat, args: AppendArgs, reply: AppendReply): Node
    requires |n.log| > 0
  {
    if reply.term > n.term then BecomeFollower(n, reply.term)
    else if n.role != Leader || n.term != term then n
    else if reply.success then
      var confirmed := args.prevIndex + |args.entries|;
      var match' := if confirmed > Index(n.matchIndex, p) then confirmed else Index(n.matchIndex, p);
      MaybeCommit(n.(matchIndex := n.matchIndex[p := match'], nextIndex := n.nextIndex[p := match' + 1]))
    else n.(nextIndex := n.nextIndex[p := BackUp(n.log, reply)])
  }

  // ---------------------------------------------------------------- commit rule

  function InsertDescending(s: seq<nat>, x: nat): seq<nat> {
    if |s| == 0 || x >= s[0] then [x] + s else [s[0]] + InsertDescending(s[1..], x)
  }

  function SortDescending(s: seq<nat>): seq<nat> {
    if |s| == 0 then [] else InsertDescending(SortDescending(s[1..]), s[0])
  }

  lemma SortedLength(s: seq<nat>)
    ensures |SortDescending(s)| == |s|
  {
    if |s| > 0 {
      SortedLength(s[1..]);
      InsertedLength(SortDescending(s[1..]), s[0]);
    }
  }

  lemma InsertedLength(s: seq<nat>, x: nat)
    ensures |InsertDescending(s, x)| == |s| + 1
  {
  }

  function MatchIndices(peers: seq<Id>, matchIndex: map<Id, nat>): (r: seq<nat>)
    ensures |r| == |peers|
  {
    seq(|peers|, i requires 0 <= i < |peers| => Index(matchIndex, peers[i]))
  }

  /** Replication progress: the leader's own last index, then each peer's match index. */
  function Progress(n: Node): (r: seq<nat>)
    requires |n.log| > 0
    ensures |r| == |n.peers| + 1
  {
    [LastIndex(n.log)] + MatchIndices(n.peers, n.matchIndex)
  }

  function QuorumIndex(n: Node): nat
    requires |n.log| > 0
  {
    SortedLength(Progress(n));
    SortDescending(Progress(n))[Majority(n) - 1]
  }

  function MaybeCommit(n: Node): Node
    requires |n.log| > 0
  {
    var index := QuorumIndex(n);
    if index > n.commitIndex && Get(n.log, index).term == n.term then n.(commitIndex := index) else n
  }

  // ---------------------------------------------------------------- snapshots

  function TakeSnapshot(n: Node, data: Store): Node
    requires |n.log| > 0
  {
    var index := n.lastApplied;
    if index == 0 || index <= SnapshotIndex(n.log) then n
    else
      var term := Get(n.log, index).term;
      Persist(SaveSnapshot(n, index, term, data).(snapshotData := data, log := CompactTo(n.log, index, term)))
  }

  /** The snapshot is taken over: saved, and queued for the apply loop to restore. */
  predicate Installs(n: Node, args: SnapshotArgs)
    requires |n.log| > 0
  {
    args.term >= n.term && args.lastIndex > SnapshotIndex(n.log)
  }

  function HandleInstallSnapshot(n: Node, args: SnapshotArgs): (Node, SnapshotReply)
    requires |n.log| > 0
  {
    var m := if args.term > n.term then BecomeFollower(n, args.term) else n;
    if args.term < m.term then (m, SnapshotReply(m.term))
    else
      var f := m.(leaderId := args.leader);
      if args.lastIndex <= SnapshotIndex(f.log) then (f, SnapshotReply(m.term))
      else
        (Persist(SaveSnapshot(f, args.lastIndex, args.lastTerm, args.data).(
                 snapshotData := args.data,
                 log := CompactTo(f.log, args.lastIndex, args.lastTerm),
                 lastApplied := if f.lastApplied < args.lastIndex then args.lastIndex else f.lastApplied,
                 commitIndex := if f.commitIndex < args.lastIndex then args.lastIndex else f.commitIndex)),
         SnapshotReply(m.term))
  }

  function ReceiveSnapshotReply(n: Node, p: Id, term: nat, args: SnapshotArgs, reply: SnapshotReply): Node {
    if reply.term > n.term then BecomeFollower(n, reply.term)
    else if n.role != Leader || n.term != term then n
    else
      var match' := if args.lastIndex > Index(n.matchIndex, p) then args.lastIndex else Index(n.matchIndex, p);
      n.(matchIndex := n.matchIndex[p := match'], nextIndex := n.nextIndex[p := match' + 1])
  }

  // ---------------------------------------------------------------- applying

  predicate CanApply(n: Node) {
    n.lastApplied < n.commitIndex
  }

  /** The entry the apply loop takes next. */
  function NextEntry(n: Node): LogEntry
    requires |n.log| > 0
  {
    Get(n.log, n.lastApplied + 1)
  }

  function TakeNext(n: Node): Node {
    n.(lastApplied := n.lastApplied + 1)
  }
}
