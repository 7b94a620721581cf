/**
 What a crash can leave behind. Each handler replaces the two files at fixed
 points; a crash at any of them restarts from the image written last.
 */
module Recovery {
  import opened Entries
  import opened Logs
  import opened Machine
  import opened Nodes
  import opened Cluster
  import P = Protocol

  /** A restart from this image has the node's term, vote and log, and its snapshot ends at the log's boundary. */
  ghost predicate RecoversTo(image: Disk, n: Node) {
    && |n.log| > 0 && |image.entries| > 0
    && var b := Boot(n.id, n.peers, image);
       && b.term == n.term && b.votedFor == n.votedFor && b.log == n.log
       && image.snapshot.index == SnapshotIndex(n.log)
       && b.commitIndex == b.lastApplied == SnapshotIndex(n.log)
  }

  /** The disk alone says what the node must remember. */
  ghost predicate Durable(n: Node) {
    RecoversTo(n.disk, n)
  }

  // ---------------------------------------------------------------- images written

  /** The images becomeFollower leaves when a higher term arrives. */
  function StepDownWrites(n: Node, term: nat): seq<Disk> {
    if term > n.term then [BecomeFollower(n, term).disk] else []
  }

  function VoteWrites(n: Node, args: VoteArgs, heardLeader: bool): seq<Disk>
    requires |n.log| > 0
  {
    if args.isPreVote then []
    else
      var (n', reply) := HandleRequestVote(n, args, heardLeader);
      StepDownWrites(n, args.term) + if reply.granted then [n'.disk] else []
  }

  function AppendWrites(n: Node, args: AppendArgs): seq<Disk>
    requires |n.log| > 0
  {
    var (n', reply) := HandleAppendEntries(n, args);
    StepDownWrites(n, args.term) + if reply.success then [n'.disk] else []
  }

  /** First the snapshot file, then the compacted log. */
  function TakeSnapshotWrites(n: Node, data: Store): seq<Disk>
    requires |n.log| > 0
  {
    var index := n.lastApplied;
    if index == 0 || index <= SnapshotIndex(n.log) then []
    else [SaveSnapshot(n, index, Get(n.log, index).term, data).disk, TakeSnapshot(n, data).disk]
  }

  function InstallWrites(n: Node, args: SnapshotArgs): seq<Disk>
    requires |n.log| > 0
  {
    var m := if args.term > n.term then BecomeFollower(n, args.term) else n;
    StepDownWrites(n, args.term) +
    if args.term < m.term || args.lastIndex <= SnapshotIndex(m.log) then []
    else [SaveSnapshot(m, args.lastIndex, args.lastTerm, args.data).disk, HandleInstallSnapshot(n, args).0.disk]
  }

  // ---------------------------------------------------------------- persisting

  lemma PersistDurable(n: Node)
    requires |n.log| > 0 && n.disk.snapshot.index == SnapshotIndex(n.log)
    ensures Durable(Persist(n))
  {
  }

  /** Between the two files: the saved snapshot already implies the compacted log. */
  lemma SavedRecovers(n: Node, index: nat, term: nat, data: Store)
    requires Durable(n) && index > SnapshotIndex(n.log)
    ensures RecoversTo(SaveSnapshot(n, index, term, data).disk, n.(log := CompactTo(n.log, index, term)))
    ensures RecoversTo(SaveSnapshot(n, index, term, data).disk.(entries := CompactTo(n.log, index, term)),
                       n.(log := CompactTo(n.log, index, term)))
  {
    CompactTwice(n.disk.entries, n.disk.snapshot.index, n.disk.snapshot.term, index, term);
  }

  lemma StepDownDurable(n: Node, term: nat)
    requires Durable(n)
    ensures Durable(BecomeFollower(n, term)) && BecomeFollower(n, term).log == n.log
  {
    PersistDurable(n.(role := Follower, term := term, votedFor := "", leaderId := ""));
  }

  // ---------------------------------------------------------------- handlers

  /** A crash while answering a vote request: the old state, the new term without a vote, or the vote. */
  lemma CrashInVote(n: Node, args: VoteArgs, heardLeader: bool)
    requires Durable(n)
    ensures var n' := HandleRequestVote(n, args, heardLeader).0;
            && Durable(n')
            && forall image :: image in VoteWrites(n, args, heardLeader) ==>
                 RecoversTo(image, n') || (args.term > n.term && RecoversTo(image, BecomeFollower(n, args.term)))
  {
    hide Durable, RecoversTo, BecomeFollower;
    StepDownDurable(n, args.term);
    var m := if args.term > n.term then BecomeFollower(n, args.term) else n;
    assert Durable(m);
    DurableFacts(m);
    DurableFacts(BecomeFollower(n, args.term));
    PersistDurable(m.(votedFor := args.candidate));
    var n' := HandleRequestVote(n, args, heardLeader).0;
    DurableFacts(n');
  }

  lemma DurableFacts(n: Node)
    ensures Durable(n) <==> RecoversTo(n.disk, n)
    ensures Durable(n) ==> |n.log| > 0 && n.disk.snapshot.index == SnapshotIndex(n.log)
  {
  }

  /** Only what the disk holds matters to durability. */
  lemma SameDisk(n: Node, m: Node)
    requires Durable(n) && m.term == n.term && m.votedFor == n.votedFor && m.log == n.log && m.disk == n.disk
    ensures Durable(m)
  {
  }

  lemma {:induction false} LoopKeepsBoundary(log: seq<LogEntry>, entries: seq<LogEntry>)
    requires |log| > 0
    ensures SnapshotIndex(AppendLoop(log, entries)) == SnapshotIndex(log)
  {
    if |entries| > 0 {
      LoopKeepsBoundary(log, entries[1..]);
    }
  }

  /** A crash while taking entries: the old state, the new term, or the new log. */
  lemma CrashInAppend(n: Node, args: AppendArgs)
    requires Durable(n)
    ensures var n' := HandleAppendEntries(n, args).0;
            && Durable(n')
            && forall image :: image in AppendWrites(n, args) ==>
                 RecoversTo(image, n') || (args.term > n.term && RecoversTo(image, BecomeFollower(n, args.term)))
  {
    hide Durable, RecoversTo, BecomeFollower, AppendLoop, Get;
    StepDownDurable(n, args.term);
    DurableFacts(n);
    DurableFacts(BecomeFollower(n, args.term));
    var m := if args.term > n.term then BecomeFollower(n, args.term)
             else if args.term == n.term && n.role == Candidate then n.(role := Follower) else n;
    SameDisk(n, n.(role := Follower));
    assert Durable(m);
    DurableFacts(m);
    var f := m.(leaderId := args.leader);
    SameDisk(m, f);
    LoopKeepsBoundary(f.log, args.entries);
    var (n', reply) := HandleAppendEntries(n, args);
    if reply.success {
      var log := AppendLoop(f.log, args.entries);
      PersistDurable(f.(log := log, commitIndex := n'.commitIndex));
      assert n' == Persist(f.(log := log, commitIndex := n'.commitIndex));
    } else {
      assert n' == m || n' == f;
    }
    DurableFacts(n');
  }

  /** A crash inside TakeSnapshot: from the first write on, the compacted log and the snapshot's state. */
  lemma CrashInTakeSnapshot(n: Node, data: Store)
    requires Durable(n)
    ensures var n' := TakeSnapshot(n, data);
            && Durable(n')
            && forall image :: image in TakeSnapshotWrites(n, data) ==>
                 RecoversTo(image, n') && RestoredStore(image) == data
  {
    hide CompactTo, RecoversTo;
    DurableFacts(n);
    var index := n.lastApplied;
    if index != 0 && index > SnapshotIndex(n.log) {
      var term := Get(n.log, index).term;
      SavedRecovers(n, index, term, data);
      var saved := SaveSnapshot(n, index, term, data).disk;
      var log := CompactTo(n.log, index, term);
      var n' := TakeSnapshot(n, data);
      SameTarget(saved, n.(log := log), n');
      SameTarget(saved.(entries := log), n.(log := log), n');
      DiskFacts(n);
      assert n'.disk == saved.(entries := log);
      DurableFacts(n');
    }
  }

  lemma DiskFacts(n: Node)
    requires Durable(n)
    ensures n.disk.term == n.term && n.disk.votedFor == n.votedFor && |n.disk.entries| > 0
  {
  }

  lemma SameTarget(image: Disk, n: Node, m: Node)
    requires RecoversTo(image, n) && m.term == n.term && m.votedFor == n.votedFor && m.log == n.log
    ensures RecoversTo(image, m)
  {
  }

  /** A crash inside HandleInstallSnapshot: the old log under the new term, or the installed one with its state. */
  lemma CrashInInstall(n: Node, args: SnapshotArgs)
    requires Durable(n)
    ensures var n' := HandleInstallSnapshot(n, args).0;
            && Durable(n')
            && forall image :: image in InstallWrites(n, args) ==>
                 || (RecoversTo(image, n') && (Installs(n, args) ==> RestoredStore(image) == args.data))
                 || (args.term > n.term && RecoversTo(image, BecomeFollower(n, args.term)))
  {
    hide BecomeFollower, CompactTo, RecoversTo, HandleInstallSnapshot, InstallWrites;
    StepDownDurable(n, args.term);
    var m := if args.term > n.term then BecomeFollower(n, args.term) else n;
    DurableFacts(m);
    DurableFacts(BecomeFollower(n, args.term));
    InstallImages(n, m, args);
    var n' := HandleInstallSnapshot(n, args).0;
    if args.term >= m.term && args.lastIndex > SnapshotIndex(m.log) {
      var log := CompactTo(m.log, args.lastIndex, args.lastTerm);
      var saved := SaveSnapshot(m, args.lastIndex, args.lastTerm, args.data).disk;
      SavedRecovers(m, args.lastIndex, args.lastTerm, args.data);
      SameTarget(saved, m.(log := log), n');
      SameTarget(saved.(entries := log), m.(log := log), n');
    } else {
      SameDisk(m, n');
    }
    DurableFacts(n');
  }

  /** What the handler leaves and what it wrote on the way, once it has stepped down. */
  lemma InstallImages(n: Node, m: Node, args: SnapshotArgs)
    requires Durable(n) && Durable(m) && m == if args.term > n.term then BecomeFollower(n, args.term) else n
    ensures |m.log| > 0 && |n.log| > 0
    ensures var n' := HandleInstallSnapshot(n, args).0;
            var saved := SaveSnapshot(m, args.lastIndex, args.lastTerm, args.data).disk;
            if args.term >= m.term && args.lastIndex > SnapshotIndex(m.log) then
              && n'.term == m.term && n'.votedFor == m.votedFor && n'.log == CompactTo(m.log, args.lastIndex, args.lastTerm)
              && n'.disk == saved.(entries := n'.log)
              && InstallWrites(n, args) == StepDownWrites(n, args.term) + [saved, n'.disk]
            else
              && n'.term == m.term && n'.votedFor == m.votedFor && n'.log == m.log && n'.disk == m.disk
              && InstallWrites(n, args) == StepDownWrites(n, args.term) && !Installs(n, args)
  {
    hide CompactTo;
    DiskFacts(m);
  }

  // ---------------------------------------------------------------- every run

  /** A step of one node that forgets nothing it owes to its disk. */
  ghost predicate Kept(n: Node, n': Node) {
    Durable(n') && n'.term >= n.term
  }

  lemma VotingKept(n: Node, args: VoteArgs, term: nat, votes: nat, reply: VoteReply)
    requires Durable(n)
    ensures Kept(n, BecomeCandidate(n)) && Kept(n, HandleRequestVote(n, args, false).0)
    ensures Kept(n, ReceiveVote(n, term, votes, reply).0)
  {
    hide Durable;
    DurableFacts(n);
    PersistDurable(n.(role := Candidate, term := n.term + 1, votedFor := n.id, leaderId := ""));
    CrashInVote(n, args, false);
    StepDownDurable(n, reply.term);
    SameDisk(n, BecomeLeader(n));
  }

  lemma LeadingKept(n: Node, command: Command, heard: nat, p: Id, term: nat, args: AppendArgs, reply: AppendReply)
    requires Durable(n)
    ensures n.role == Leader ==> Kept(n, Submit(n, command).0)
    ensures Kept(n, CheckQuorum(n, heard))
    ensures Kept(n, ReceiveAppendReply(n, p, term, args, reply))
  {
    hide Durable, BackUp, QuorumIndex;
    DurableFacts(n);
    StepDownDurable(n, n.term);
    StepDownDurable(n, reply.term);
    if n.role == Leader {
      PersistDurable(n.(log := n.log + [CommandEntry(n.term, LastIndex(n.log) + 1, command)]));
    }
    var n' := ReceiveAppendReply(n, p, term, args, reply);
    if reply.term <= n.term {
      SameDisk(n, n');
    }
  }

  lemma InstallingKept(n: Node, args: SnapshotArgs)
    requires Durable(n)
    ensures Kept(n, HandleInstallSnapshot(n, args).0)
  {
    hide Durable, CompactTo;
    DurableFacts(n);
    CrashInInstall(n, args);
  }

  lemma SnapshottingKept(n: Node, data: Store)
    requires Durable(n)
    ensures Kept(n, TakeSnapshot(n, data))
    ensures CanApply(n) ==> Kept(n, TakeNext(n))
  {
    hide Durable, CompactTo, ApplyEntry;
    DurableFacts(n);
    CrashInTakeSnapshot(n, data);
    if CanApply(n) {
      SameDisk(n, TakeNext(n));
    }
  }

  lemma SnapshotReplyKept(n: Node, p: Id, term: nat, args: SnapshotArgs, reply: SnapshotReply)
    requires Durable(n)
    ensures Kept(n, ReceiveSnapshotReply(n, p, term, args, reply))
  {
    hide Durable;
    StepDownDurable(n, reply.term);
    var n' := ReceiveSnapshotReply(n, p, term, args, reply);
    if reply.term <= n.term {
      SameDisk(n, n');
    }
  }

  lemma RestartKept(n: Node, m: Node, target: Node)
    requires Durable(n) && |m.log| > 0 && RecoversTo(m.disk, target) && target.term >= n.term
    ensures Kept(n, Reboot(m))
  {
  }

  /** Crashes at rest, after becomeFollower and between the two files. */
  lemma CrashesKept(n: Node, term: nat, args: SnapshotArgs, data: Store)
    requires Durable(n)
    ensures Kept(n, Reboot(n))
    ensures term > n.term ==> Kept(n, Reboot(BecomeFollower(n, term)))
    ensures n.lastApplied > SnapshotIndex(n.log) ==>
              Kept(n, Reboot(SaveSnapshot(n, n.lastApplied, Get(n.log, n.lastApplied).term, data)))
    ensures var m := if args.term > n.term then BecomeFollower(n, args.term) else n;
            && |m.log| > 0 && Usable(m)
            && Kept(n, Reboot(m))
            && (args.lastIndex > SnapshotIndex(m.log) ==>
                  Kept(n, Reboot(SaveSnapshot(m, args.lastIndex, args.lastTerm, args.data))))
  {
    hide Durable, RecoversTo, Kept, CompactTo, Reboot;
    DurableFacts(n);
    DiskFacts(n);
    RestartKept(n, n, n);
    StepDownDurable(n, term);
    DurableFacts(BecomeFollower(n, term));
    if term > n.term {
      RestartKept(n, BecomeFollower(n, term), BecomeFollower(n, term));
    }
    if n.lastApplied > SnapshotIndex(n.log) {
      var t := Get(n.log, n.lastApplied).term;
      SavedRecovers(n, n.lastApplied, t, data);
      RestartKept(n, SaveSnapshot(n, n.lastApplied, t, data), n.(log := CompactTo(n.log, n.lastApplied, t)));
    }
    var m := if args.term > n.term then BecomeFollower(n, args.term) else n;
    StepDownDurable(n, args.term);
    DurableFacts(m);
    DiskFacts(m);
    RestartKept(n, m, m);
    if args.lastIndex > SnapshotIndex(m.log) {
      SavedRecovers(m, args.lastIndex, args.lastTerm, args.data);
      RestartKept(n, SaveSnapshot(m, args.lastIndex, args.lastTerm, args.data),
                  m.(log := CompactTo(m.log, args.lastIndex, args.lastTerm)));
    }
  }

  ghost predicate AllDurable(c: Cluster) {
    forall n :: n in c.nodes ==> Durable(c.nodes[n])
  }

  ghost predicate NodesKept(c: Cluster, c': Cluster) {
    c'.nodes.Keys == c.nodes.Keys && forall n :: n in c.nodes ==> Kept(c.nodes[n], c'.nodes[n])
  }

  /** One node changed and kept what it owed; the others did not change. */
  lemma OneKept(c: Cluster, c': Cluster, n: Id, node: Node)
    requires AllDurable(c) && n in c.nodes && Kept(c.nodes[n], node)
    requires c'.nodes == c.nodes[n := node] || c'.nodes == c.nodes
    ensures NodesKept(c, c')
  {
    hide Durable;
  }

  lemma VoteDeliveryKept(c: Cluster, m: Message)
    requires AllDurable(c) && Live(c, Receiver(m)) && (m.VoteRequest? || m.VoteAnswer?)
    ensures NodesKept(c, OnDeliver(c, m))
  {
    hide AllDurable, NodesKept, Durable, HandleRequestVote, ReceiveVote, Kept;
    DurableNode(c, Receiver(m));
    NothingKept(c);
    var n := c.nodes[Receiver(m)];
    match m
    case VoteRequest(to, _, args) =>
      VotingKept(n, args, 0, 0, VoteReply(0, false));
      OneKept(c, OnDeliver(c, m), to, HandleRequestVote(n, args, false).0);
    case VoteAnswer(from, round, args, reply) =>
      if round < |c.rounds| {
        var r := c.rounds[round];
        VotingKept(n, args, r.args.term, 1 + |r.granted|, reply);
        OneKept(c, OnDeliver(c, m), args.candidate, ReceiveVote(n, r.args.term, 1 + |r.granted|, reply).0);
      }
  }

  lemma DurableNode(c: Cluster, n: Id)
    requires AllDurable(c) && n in c.nodes
    ensures Durable(c.nodes[n])
  {
  }

  lemma AppendDeliveryKept(c: Cluster, m: Message)
    requires AllDurable(c) && Live(c, Receiver(m)) && (m.AppendRequest? || m.AppendAnswer?)
    ensures NodesKept(c, OnDeliver(c, m))
  {
    hide AllDurable, NodesKept, Durable, HandleAppendEntries, ReceiveAppendReply, Holders;
    DurableNode(c, Receiver(m));
    var n := c.nodes[Receiver(m)];
    match m
    case AppendRequest(to, args) =>
      CrashInAppend(n, args);
      AppendRaisesTerm(n, args);
      OneKept(c, OnDeliver(c, m), to, HandleAppendEntries(n, args).0);
    case AppendAnswer(from, args, reply) =>
      LeadingKept(n, Raw([]), 0, from, args.term, args, reply);
      OneKept(c, OnDeliver(c, m), args.leader, ReceiveAppendReply(n, from, args.term, args, reply));
  }

  lemma SnapshotDeliveryKept(c: Cluster, m: Message)
    requires AllDurable(c) && Live(c, Receiver(m)) && (m.SnapshotRequest? || m.SnapshotAnswer?)
    ensures NodesKept(c, OnDeliver(c, m))
  {
    hide AllDurable, NodesKept, Durable, HandleInstallSnapshot, ReceiveSnapshotReply, Kept;
    DurableNode(c, Receiver(m));
    var n := c.nodes[Receiver(m)];
    match m
    case SnapshotRequest(to, args) =>
      InstallingKept(n, args);
      OneKept(c, OnDeliver(c, m), to, HandleInstallSnapshot(n, args).0);
    case SnapshotAnswer(from, args, reply) =>
      SnapshotReplyKept(n, from, args.term, args, reply);
      OneKept(c, OnDeliver(c, m), args.leader, ReceiveSnapshotReply(n, from, args.term, args, reply));
  }

  lemma AppendRaisesTerm(n: Node, args: AppendArgs)
    requires |n.log| > 0
    ensures HandleAppendEntries(n, args).0.term >= n.term
  {
    hide AppendLoop, FirstIndexForTerm, Get;
  }

  lemma SelfKept(c: Cluster)
    requires AllDurable(c)
    ensures forall n :: n in c.nodes ==> Kept(c.nodes[n], c.nodes[n])
  {
  }

  lemma CrashKept(c: Cluster, n: Id, data: Store)
    requires AllDurable(c) && Live(c, n)
    ensures NodesKept(c, OnCrash(c, n)) && NodesKept(c, OnCrashSaving(c, n, data))
  {
    hide Durable, Kept, Reboot, SaveSnapshot, TakeSnapshot, P.Restart, P.Compact;
    SelfKept(c);
    CrashesKept(c.nodes[n], 0, SnapshotArgs(0, "", 0, 0, map[]), data);
  }

  lemma CrashFollowingKept(c: Cluster, n: Id, term: nat)
    requires AllDurable(c) && Live(c, n) && term > c.nodes[n].term
    ensures NodesKept(c, OnCrashFollowing(c, n, term))
  {
    hide Durable, Kept, Reboot, BecomeFollower, P.Restart, P.Follow;
    SelfKept(c);
    CrashesKept(c.nodes[n], term, SnapshotArgs(0, "", 0, 0, map[]), map[]);
  }

  lemma CrashInstallingKept(c: Cluster, n: Id, args: SnapshotArgs)
    requires AllDurable(c) && Live(c, n)
    ensures NodesKept(c, OnCrashInstalling(c, n, args))
  {
    hide Durable, Kept, Reboot, BecomeFollower, SaveSnapshot, Installed, Followed, P.Restart;
    SelfKept(c);
    CrashesKept(c.nodes[n], 0, args, map[]);
  }

  lemma LocalKept(c: Cluster, n: Id, heard: nat)
    requires AllDurable(c) && Live(c, n)
    ensures NodesKept(c, OnStand(c, n)) && NodesKept(c, OnLaunch(c, n)) && NodesKept(c, OnQuorumCheck(c, n, heard))
  {
    hide AllDurable, NodesKept, Durable, Kept, BecomeCandidate, CheckQuorum;
    DurableNode(c, n);
    var x := c.nodes[n];
    VotingKept(x, VoteArgs(0, "", 0, 0, false), 0, 0, VoteReply(0, false));
    LeadingKept(x, Raw([]), heard, "", 0, AppendArgs(0, "", 0, 0, [], 0), AppendReply(0, false, 0, 0));
    OneKept(c, OnStand(c, n), n, BecomeCandidate(x));
    OneKept(c, OnLaunch(c, n), n, BecomeCandidate(x));
    OneKept(c, OnQuorumCheck(c, n, heard), n, CheckQuorum(x, heard));
  }

  lemma WorkKept(c: Cluster, n: Id, command: Command, data: Store)
    requires AllDurable(c) && Live(c, n)
    ensures c.nodes[n].role == Leader ==> NodesKept(c, OnSubmit(c, n, command))
    ensures CanApply(c.nodes[n]) ==> NodesKept(c, WithNode(c, n, TakeNext(c.nodes[n])))
    ensures NodesKept(c, OnSnapshot(c, n, data))
  {
    hide AllDurable, NodesKept, Durable, Kept, Submit, TakeSnapshot, TakeNext;
    DurableNode(c, n);
    var x := c.nodes[n];
    LeadingKept(x, command, 0, "", 0, AppendArgs(0, "", 0, 0, [], 0), AppendReply(0, false, 0, 0));
    SnapshottingKept(x, data);
    OneKept(c, OnSnapshot(c, n, data), n, TakeSnapshot(x, data));
    if x.role == Leader {
      OneKept(c, OnSubmit(c, n, command), n, Submit(x, command).0);
    }
    if CanApply(x) {
      OneKept(c, WithNode(c, n, TakeNext(x)), n, TakeNext(x));
    }
  }

  lemma SendKept(c: Cluster, n: Id, p: Id)
    requires AllDurable(c) && Live(c, n)
    ensures NodesKept(c, OnSend(c, n, p))
  {
    hide Durable, Kept, BuildArgs;
    SelfKept(c);
  }

  lemma NothingKept(c: Cluster)
    requires AllDurable(c)
    ensures NodesKept(c, c)
  {
    hide Durable;
  }

  /** No event, crash or not, leaves a node with less on its disk than it may have acted on. */
  lemma NextKept(c: Cluster, e: Event)
    requires AllDurable(c)
    ensures NodesKept(c, Next(c, e))
  {
    hide AllDurable, NodesKept, OnStand, OnLaunch, OnSubmit, OnSend, OnQuorumCheck, OnSnapshot, OnDeliver, OnCrash,
         OnCrashFollowing,
         OnCrashSaving, OnCrashInstalling, TakeNext, WithNode;
    NothingKept(c);
    match e
    case Stand(n) =>
      if Live(c, n) {
        LocalKept(c, n, 0);
      }
    case Launch(n) =>
      if Live(c, n) {
        LocalKept(c, n, 0);
      }
    case Deliver(m) =>
      if Live(c, Receiver(m)) {
        if m.VoteRequest? || m.VoteAnswer? {
          VoteDeliveryKept(c, m);
        } else if m.AppendRequest? || m.AppendAnswer? {
          AppendDeliveryKept(c, m);
        } else {
          SnapshotDeliveryKept(c, m);
        }
      }
    case ClientSubmit(n, command) =>
      if Live(c, n) {
        WorkKept(c, n, command, map[]);
      }
    case Send(n, p) =>
      if Live(c, n) {
        SendKept(c, n, p);
      }
    case QuorumCheck(n, heard) =>
      if Live(c, n) {
        LocalKept(c, n, heard);
      }
    case Apply(n) =>
      if Live(c, n) {
        WorkKept(c, n, Raw([]), map[]);
      }
    case Snapshot(n, data) =>
      if Live(c, n) {
        WorkKept(c, n, Raw([]), data);
      }
    case Crash(n) =>
      if Live(c, n) {
        CrashKept(c, n, map[]);
      }
    case CrashFollowing(m) =>
      if Live(c, Receiver(m)) && TermOf(m) > c.nodes[Receiver(m)].term {
        CrashFollowingKept(c, Receiver(m), TermOf(m));
      }
    case CrashSaving(n, data) =>
      if Live(c, n) {
        CrashKept(c, n, data);
      }
    case CrashInstalling(m) =>
      if m.SnapshotRequest? && Live(c, m.to) {
        CrashInstallingKept(c, m.to, m.snapshot);
      }
  }

  lemma StartDurable(config: Config)
    ensures AllDurable(Init(config))
  {
  }

  /** In every run the disk alone rebuilds term, vote and log, and no node's term goes down. */
  lemma {:induction false} RunDurable(config: Config, events: seq<Event>, more: seq<Event>, n: Id)
    requires n in Run(config, events).nodes
    ensures Durable(Run(config, events).nodes[n])
    ensures n in Run(config, events + more).nodes
    ensures Durable(Run(config, events + more).nodes[n])
    ensures Run(config, events).nodes[n].term <= Run(config, events + more).nodes[n].term
    decreases |more|
  {
    hide Durable, Next;
    if |more| == 0 {
      assert events + more == events;
      RunAllDurable(config, events);
    } else {
      var less := more[..|more| - 1];
      assert (events + more)[..|events + more| - 1] == events + less;
      RunDurable(config, events, less, n);
      RunAllDurable(config, events + less);
      NextKept(Run(config, events + less), more[|more| - 1]);
    }
  }

  lemma {:induction false} RunAllDurable(config: Config, events: seq<Event>)
    ensures AllDurable(Run(config, events))
  {
    hide Durable, Next;
    if |events| == 0 {
      StartDurable(config);
    } else {
      RunAllDurable(config, events[..|events| - 1]);
      NextKept(Run(config, events[..|events| - 1]), events[|events| - 1]);
    }
  }

  lemma {:induction false} RunNodes(config: Config, events: seq<Event>)
    ensures Run(config, events).nodes.Keys == config.Keys
  {
    hide Next;
    if |events| > 0 {
      var c := Run(config, events[..|events| - 1]);
      RunNodes(config, events[..|events| - 1]);
      RunAllDurable(config, events[..|events| - 1]);
      NextKept(c, events[|events| - 1]);
    }
  }
}
