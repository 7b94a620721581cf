/** Applying, snapshots and crashes keep the cluster good. */
module ClusterSnapshots {
  import opened Entries
  import opened Logs
  import opened Machine
  import opened Nodes
  import opened Cluster
  import opened ClusterInv
  import opened ClusterElections
  import opened ClusterAppends
  import opened ClusterLeaders
  import P = Protocol
  import ProtocolSteps
  import ProtocolFollowers

  // ---------------------------------------------------------------- applying

  lemma ApplyNode(h: P.History, n: Id, node: Node, intact: bool)
    requires NodeOk(h, n, node, intact) && CanApply(node)
    ensures NodeOk(h, n, TakeNext(node), intact)
  {
  }

  lemma ApplyGood(c: Cluster, n: Id)
    requires Good(c) && n in c.nodes && CanApply(c.nodes[n])
    ensures |c.nodes[n].log| > 0 && Good(WithNode(c, n, TakeNext(c.nodes[n])))
  {
    hide Good, NodeOk;
    MemberFacts(c, n);
    TermMirrors(c, n);
    ApplyNode(c.history, n, c.nodes[n], !c.skewed);
    ReplaceGood(c, n, TakeNext(c.nodes[n]));
  }

  // ---------------------------------------------------------------- taking a snapshot

  /** Compacting through the applied entries leaves the whole log as it was. */
  lemma TakenLog(node: Node, p: P.Peer, data: Store)
    requires Mirrors(node, p) && Applied(node, p) && p.base < node.lastApplied
    ensures TakeSnapshot(node, data) ==
            Persist(SaveSnapshot(node, node.lastApplied, TermAt(p.log, node.lastApplied), data).(
                    snapshotData := data, log := Compacted(p.log, node.lastApplied)))
  {
    LastCompacted(p.log, p.base);
    GetCompacted(p.log, p.base, node.lastApplied);
    CompactOwn(p.log, p.base, node.lastApplied);
  }

  lemma TakenNode(h: P.History, n: Id, node: Node, intact: bool, data: Store, intact': bool)
    requires NodeOk(h, n, node, intact) && h.peers[n].base < node.lastApplied <= |h.peers[n].log|
    requires intact' ==> intact && data == Replay(h.peers[n].log[..node.lastApplied])
    ensures NodeOk(P.Compact(h, n, node.lastApplied), n, TakeSnapshot(node, data), intact')
  {
    hide TakeSnapshot, PeerList, Replay, Compacted, CompactTo;
    var p := h.peers[n];
    var index := node.lastApplied;
    TakenLog(node, p, data);
    var saved := SaveSnapshot(node, index, TermAt(p.log, index), data).(
    snapshotData := data, log := Compacted(p.log, index));
    PersistStores(saved, p.(base := index));
    TrackingGrows(h, P.Compact(h, n, index), node);
  }

  lemma SnapshotGood(c: Cluster, n: Id, data: Store)
    requires Good(c) && n in c.nodes
    ensures n in c.history.peers && |c.nodes[n].log| > 0
    ensures Good(OnSnapshot(c, n, data)) && Grows(c.history, OnSnapshot(c, n, data).history)
  {
    hide P.Inv, NodeOk, MessageOk, RoundsOk, Grows, TakeSnapshot, Mirrors, Applied, Stored;
    MemberFacts(c, n);
    TermMirrors(c, n);
    var node := c.nodes[n];
    var p := c.history.peers[n];
    NodeBounds(c.history, n, node, !c.skewed);
    var c' := OnSnapshot(c, n, data);
    if p.base < node.lastApplied {
      TakenLog(node, p, data);
      ProtocolSteps.CompactInv(c.history, n, node.lastApplied);
      TakenNode(c.history, n, node, !c.skewed, data, !c'.skewed);
      CompactGrows(c.history, n, node.lastApplied);
      Assemble(c, c', n, {});
    } else {
      NoSnapshotTaken(node, data);
      GrowsSame(c.history);
      assert c.nodes[n := node] == c.nodes;
      assert c.history.peers[n := p] == c.history.peers;
      assert c' == c;
    }
  }

  lemma CompactGrows(h: P.History, n: Id, base: nat)
    requires n in h.peers
    ensures Grows(h, P.Compact(h, n, base))
    ensures StillStanding(h, P.Compact(h, n, base), n)
  {
  }

  lemma NodeBounds(h: P.History, n: Id, node: Node, intact: bool)
    requires NodeOk(h, n, node, intact)
    ensures var p := h.peers[n];
            && Mirrors(node, p) && Applied(node, p) && Stored(node, p) && node.id == n
            && SnapshotIndex(node.log) == p.base && Usable(node)
  {
    LastCompacted(h.peers[n].log, h.peers[n].base);
  }

  // ---------------------------------------------------------------- crashing

  /** The two files hold a snapshot and a log that covers it. */
  ghost predicate Recoverable(h: P.History, n: Id, node: Node, intact: bool) {
    && n in h.peers
    && node.id == n
    && PeerList(h.members, n, node.peers)
    && Stored(node, h.peers[n])
    && h.peers[n].base <= |h.peers[n].log|
    && (intact && h.peers[n].base > 0 ==>
          node.disk.snapshot.data == Replay(h.peers[n].log[..h.peers[n].base]))
  }

  /** Restarting rebuilds term, vote, log and boundary, and replays to the snapshot. */
  lemma RebootNode(h: P.History, n: Id, node: Node, intact: bool)
    requires Recoverable(h, n, node, intact) && Usable(node)
    ensures NodeOk(P.Restart(h, n), n, Reboot(node), intact)
  {
    hide PeerList;
    var p := h.peers[n];
    assert p.log[..0] == [];
  }

  /** Bringing a node back, given that its disk holds what the history says. */
  lemma CrashWith(c: Cluster, n: Id, node: Node, h: P.History)
    requires Good(c) && n in c.nodes && n in c.history.peers
    requires P.Inv(h) && Grows(c.history, h) && Usable(node)
    requires forall x :: x in c.history.peers && x != n ==> h.peers[x] == c.history.peers[x]
    requires Recoverable(h, n, node, !c.skewed)
    ensures var c' := OnCrash(Record(WithNode(c, n, node), h), n);
            Good(c') && Grows(c.history, c'.history)
  {
    hide P.Inv, NodeOk, MessageOk, RoundsOk, Recoverable, Grows;
    RecoverableMember(h, n, node, !c.skewed);
    var c1 := Record(WithNode(c, n, node), h);
    var c' := OnCrash(c1, n);
    ProtocolSteps.RestartInv(h, n);
    RebootNode(h, n, node, !c.skewed);
    RestartGrows(h, n);
    GrowsFurther(c.history, h, c'.history);
    StandingStill(c.history, c'.history, n);
    Assemble(c, c'.(launching := c.launching), n, {});
  }

  lemma RecoverableMember(h: P.History, n: Id, node: Node, intact: bool)
    requires Recoverable(h, n, node, intact)
    ensures n in h.peers
  {
  }

  lemma RestartGrows(h: P.History, n: Id)
    requires n in h.peers
    ensures Grows(h, P.Restart(h, n))
  {
  }

  lemma OkIsRecoverable(h: P.History, n: Id, node: Node, intact: bool)
    requires NodeOk(h, n, node, intact)
    ensures Recoverable(h, n, node, intact)
  {
  }

  lemma CrashGood(c: Cluster, n: Id)
    requires Good(c) && n in c.nodes
    ensures n in c.history.peers && Usable(c.nodes[n])
    ensures Good(OnCrash(c, n)) && Grows(c.history, OnCrash(c, n).history)
  {
    hide NodeOk, NodesOk, MessagesOk, RoundsOk, Recoverable, Grows, P.Inv, Reboot;
    MemberFacts(c, n);
    NodeBounds(c.history, n, c.nodes[n], !c.skewed);
    OkIsRecoverable(c.history, n, c.nodes[n], !c.skewed);
    GrowsSame(c.history);
    CrashWith(c, n, c.nodes[n], c.history);
    assert c.nodes[n := c.nodes[n]] == c.nodes;
  }

  lemma CrashFollowingGood(c: Cluster, n: Id, term: nat)
    requires Good(c) && n in c.nodes && term > c.nodes[n].term
    ensures n in c.history.peers && Usable(c.nodes[n])
    ensures Good(OnCrashFollowing(c, n, term)) && Grows(c.history, OnCrashFollowing(c, n, term).history)
  {
    hide Good, Grows, NodeOk;
    MemberFacts(c, n);
    CaughtGood(c, n, term);
    var c1 := Caught(c, n, term);
    CrashGood(c1, n);
    GrowsFurther(c.history, c1.history, OnCrash(c1, n).history);
  }

  /** A snapshot file ahead of the log file recovers to the log compacted at the snapshot. */
  lemma AheadStored(node: Node, p: P.Peer, prefix: seq<LogEntry>, data: Store)
    requires Stored(node, p) && p.base < |prefix|
    ensures |prefix| <= |Overlay(p.log, prefix)|
    ensures Stored(SaveSnapshot(node, |prefix|, LastTermOf(prefix), data), p.(log := Overlay(p.log, prefix), base := |prefix|))
  {
    var index := |prefix|;
    CompactCompacted(p.log, p.base, prefix);
    if p.base > 0 {
      CompactTwice(node.disk.entries, p.base, TermAt(p.log, p.base), index, LastTermOf(prefix));
    }
    assert Overlay(p.log, prefix)[..index] == prefix;
    assert index > 0 ==> Overlay(p.log, prefix)[index - 1] == prefix[index - 1];
  }

  lemma SavedIsRecoverable(h: P.History, n: Id, node: Node, intact: bool, data: Store)
    requires NodeOk(h, n, node, intact) && h.peers[n].base < node.lastApplied <= |h.peers[n].log|
    requires intact ==> data == Replay(h.peers[n].log[..node.lastApplied])
    ensures Recoverable(P.Compact(h, n, node.lastApplied), n,
                        SaveSnapshot(node, node.lastApplied, TermAt(h.peers[n].log, node.lastApplied), data), intact)
  {
    hide PeerList, Replay, Tracking, Stored, Overlay, Compacted;
    var p := h.peers[n];
    OverlayOwn(p.log, node.lastApplied);
    AheadStored(node, p, p.log[..node.lastApplied], data);
  }

  lemma OverlayOwn(log: seq<LogEntry>, k: nat)
    requires k <= |log|
    ensures Overlay(log, log[..k]) == log && LastTermOf(log[..k]) == TermAt(log, k)
  {
  }

  /** Nothing is known of snapshots once one was skewed. */
  lemma SkewedGood(c: Cluster, skewed: bool)
    requires Good(c) && (c.skewed ==> skewed)
    ensures Good(c.(skewed := skewed))
  {
    hide P.Inv, RoundsOk, PeerList, Mirrors, Stored, Tracking;
    var c' := c.(skewed := skewed);
    forall n | n in c.nodes
      ensures NodeOk(c.history, n, c.nodes[n], !skewed)
    {
      assert NodeOk(c.history, n, c.nodes[n], !c.skewed);
    }
    GrowsSame(c.history);
    MessagesGrow(c, c.history, c.rounds, !skewed);
  }

  lemma CrashSavingGood(c: Cluster, n: Id, data: Store)
    requires Good(c) && n in c.nodes
    ensures n in c.history.peers && Usable(c.nodes[n])
    ensures Good(OnCrashSaving(c, n, data)) && Grows(c.history, OnCrashSaving(c, n, data).history)
  {
    hide Good, Grows, Reboot, TakeSnapshot, Replay;
    CrashGood(c, n);
    var c1 := c.(skewed := c.skewed || Skews(c, n, data));
    SkewedGood(c, c1.skewed);
    SavingGood(c1, n, data);
    assert OnCrashSaving(c, n, data) == OnCrashSaving(c1, n, data);
  }

  lemma SavingGood(c: Cluster, n: Id, data: Store)
    requires Good(c) && n in c.nodes && Live(c, n) && (Skews(c, n, data) ==> c.skewed)
    ensures Good(OnCrashSaving(c, n, data)) && Grows(c.history, OnCrashSaving(c, n, data).history)
  {
    hide Good, NodeOk, TakeSnapshot, OnCrash, OnCrashSaving, Mirrors, Applied, Stored, Grows, Skews;
    MemberFacts(c, n);
    var node := c.nodes[n];
    NodeBounds(c.history, n, node, !c.skewed);
    if c.history.peers[n].base < node.lastApplied {
      SavedGood(c, n, data);
    } else {
      NothingSaved(c, n, data);
      CrashGood(c, n);
    }
  }

  /** There is nothing new to save: an ordinary crash. */
  lemma NothingSaved(c: Cluster, n: Id, data: Store)
    requires Live(c, n) && c.nodes[n].lastApplied <= SnapshotIndex(c.nodes[n].log) == c.history.peers[n].base
    requires Skews(c, n, data) ==> c.skewed
    ensures OnCrashSaving(c, n, data) == OnCrash(c, n)
  {
    hide OnCrash, Skews, TakeSnapshot;
    var node, p := c.nodes[n], c.history.peers[n];
    NoSnapshotTaken(node, data);
    assert c.nodes[n := node] == c.nodes;
    assert c.history.peers[n := p] == c.history.peers;
    SkewStays(c, n);
  }

  lemma SkewStays(c: Cluster, n: Id)
    requires Live(c, n)
    ensures OnCrash(c, n).skewed == c.skewed
  {
    hide Reboot;
  }

  /** The snapshot file is written, the state file is not. */
  lemma SavedGood(c: Cluster, n: Id, data: Store)
    requires Good(c) && n in c.nodes && Live(c, n) && (Skews(c, n, data) ==> c.skewed)
    requires c.history.peers[n].base < c.nodes[n].lastApplied
    ensures Good(OnCrashSaving(c, n, data)) && Grows(c.history, OnCrashSaving(c, n, data).history)
  {
    hide NodeOk, NodesOk, MessagesOk, RoundsOk, Recoverable, P.Inv, TakeSnapshot, Reboot, Mirrors, Applied, Stored, Grows;
    MemberFacts(c, n);
    var node := c.nodes[n];
    var p := c.history.peers[n];
    NodeBounds(c.history, n, node, !c.skewed);
    TakenLog(node, p, data);
    GetCompacted(p.log, p.base, node.lastApplied);
    ProtocolSteps.CompactInv(c.history, n, node.lastApplied);
    CompactGrows(c.history, n, node.lastApplied);
    SavedIsRecoverable(c.history, n, node, !c.skewed, data);
    CrashWith(c, n, SaveSnapshot(node, node.lastApplied, TermAt(p.log, node.lastApplied), data),
              P.Compact(c.history, n, node.lastApplied));
  }

  lemma NoSnapshotTaken(node: Node, data: Store)
    requires |node.log| > 0 && node.lastApplied <= SnapshotIndex(node.log)
    ensures TakeSnapshot(node, data) == node
  {
  }

  // ---------------------------------------------------------------- installing a snapshot

  /** The peer after a snapshot of the leader's first `index` entries. */
  function InstalledPeer(p: P.Peer, lead: seq<LogEntry>, index: nat): P.Peer
    requires index <= |lead|
  {
    p.(log := Overlay(p.log, lead[..index]), base := index, commit := if p.commit < index then index else p.commit)
  }

  lemma InstalledSound(h: P.History, n: Id, args: SnapshotArgs, intact: bool)
    requires n in h.peers && h.peers[n].term == args.term && SnapshotOk(h, args, n, intact)
    ensures Sound(Installed(h, n, args), n, args.term, args.lastIndex)
  {
    if args.lastIndex > 0 {
      var cm :| cm in h.commits && P.Covers(h.leaderLog, cm, h.leaderLog[args.term], args.lastIndex, args.term);
      assert Reaches(cm, args.term, args.lastIndex);
    }
  }

  lemma OverlayKeepsShared(log: seq<LogEntry>, lead: seq<LogEntry>, index: nat, k: nat)
    requires index <= |lead| && k <= |lead| && k <= |log| && log[..k] == lead[..k]
    ensures log[..k] <= Overlay(log, lead[..index])
  {
    var log' := Overlay(log, lead[..index]);
    forall i | 0 <= i < k
      ensures log[i] == log'[i]
    {
      assert log[i] == log[..k][i] == lead[..k][i];
    }
  }

  lemma InstalledGrows(h: P.History, n: Id, args: SnapshotArgs, intact: bool)
    requires P.Inv(h) && n in h.peers && h.peers[n].term == args.term && SnapshotOk(h, args, n, intact)
    ensures Grows(h, Installed(h, n, args))
  {
    hide P.Inv, P.Covered, SnapshotOk;
    SnapshotInRange(h, n, args, intact);
    var p := h.peers[n];
    var h' := Installed(h, n, args);
    forall k | 0 <= k <= |p.log| && P.Covered(h.leaderLog, h.commits, p.log, k, p.term)
      ensures p.log[..k] <= h'.peers[n].log
    {
      LeaderHolds(h, n, k);
      OverlayKeepsShared(p.log, h.leaderLog[p.term], args.lastIndex, k);
    }
  }

  lemma SnapshotInRange(h: P.History, n: Id, args: SnapshotArgs, intact: bool)
    requires SnapshotOk(h, args, n, intact)
    ensures args.term in h.leaderLog && args.lastIndex <= |h.leaderLog[args.term]|
  {
  }

  lemma InstalledInv(h: P.History, n: Id, args: SnapshotArgs, intact: bool)
    requires P.Inv(h) && n in h.peers && h.peers[n].term == args.term && SnapshotOk(h, args, n, intact)
    ensures P.Inv(Installed(h, n, args))
  {
    hide P.Inv, P.Covered, P.Install, P.Confirm;
    NotTheLeader(h, n, args.term, args.leader);
    var p := h.peers[n];
    if args.lastIndex > p.base {
      ProtocolFollowers.InstallInv(h, n, args.lastIndex);
      InstallShape(h, n, args.lastIndex);
      ProtocolSteps.ConfirmInv(P.Install(h, n, args.lastIndex), n, args.lastIndex);
    } else {
      ProtocolSteps.ConfirmInv(h, n, args.lastIndex);
    }
  }

  lemma InstallShape(h: P.History, n: Id, index: nat)
    requires n in h.peers && h.peers[n].term in h.leaderLog && index <= |h.leaderLog[h.peers[n].term]|
    ensures var h' := P.Install(h, n, index);
            n in h'.peers && h'.peers[n].base == index && h'.peers[n].term in h'.leaderLog
  {
  }

  lemma InstalledLog(node: Node, p: P.Peer, lead: seq<LogEntry>, args: SnapshotArgs)
    requires Mirrors(node, p) && p.base < args.lastIndex <= |lead| && args.lastTerm == TermAt(lead, args.lastIndex)
    ensures args.lastIndex <= |Overlay(p.log, lead[..args.lastIndex])|
    ensures CompactTo(node.log, args.lastIndex, args.lastTerm) ==
            Compacted(Overlay(p.log, lead[..args.lastIndex]), args.lastIndex)
    ensures Overlay(p.log, lead[..args.lastIndex])[..args.lastIndex] == lead[..args.lastIndex]
    ensures TermAt(Overlay(p.log, lead[..args.lastIndex]), args.lastIndex) == args.lastTerm
  {
    CompactCompacted(p.log, p.base, lead[..args.lastIndex]);
    var log' := Overlay(p.log, lead[..args.lastIndex]);
    assert log'[..args.lastIndex] == lead[..args.lastIndex];
    assert log'[args.lastIndex - 1] == lead[args.lastIndex - 1];
  }

  /** The node an installed snapshot leaves, before it is persisted. */
  function InstalledFields(node: Node, q: P.Peer, args: SnapshotArgs): Node
    requires args.lastIndex <= |q.log|
  {
    SaveSnapshot(node.(leaderId := args.leader), args.lastIndex, args.lastTerm, args.data).(
    snapshotData := args.data,
    log := Compacted(q.log, args.lastIndex),
    lastApplied := if node.lastApplied < args.lastIndex then args.lastIndex else node.lastApplied,
    commitIndex := q.commit)
  }

  lemma InstalledHandler(node: Node, p: P.Peer, lead: seq<LogEntry>, args: SnapshotArgs)
    requires Mirrors(node, p) && args.term == node.term
    requires p.base < args.lastIndex <= |lead| && args.lastTerm == TermAt(lead, args.lastIndex)
    ensures var q := InstalledPeer(p, lead, args.lastIndex);
            && args.lastIndex <= |q.log|
            && HandleInstallSnapshot(node, args).0 == Persist(InstalledFields(node, q, args))
            && Mirrors(InstalledFields(node, q, args), q)
            && TermAt(q.log, args.lastIndex) == args.lastTerm
  {
    hide Compacted, CompactTo;
    LastCompacted(p.log, p.base);
    InstalledLog(node, p, lead, args);
  }

  lemma InstalledNode(h: P.History, n: Id, node: Node, intact: bool, args: SnapshotArgs)
    requires NodeOk(h, n, node, intact) && SnapshotOk(h, args, n, intact) && node.role != Leader
    requires args.term == node.term && args.lastIndex > h.peers[n].base
    ensures NodeOk(Installed(h, n, args), n, HandleInstallSnapshot(node, args).0, intact)
  {
    hide PeerList, Replay, P.Covered, Compacted, Stored, HandleInstallSnapshot, CompactTo;
    var p := h.peers[n];
    var lead := h.leaderLog[p.term];
    InstalledLog(node, p, lead, args);
    InstalledHandler(node, p, lead, args);
    var q := InstalledPeer(p, lead, args.lastIndex);
    PersistStores(InstalledFields(node, q, args), q);
    assert Installed(h, n, args).peers[n] == q;
  }

  /** The stale or repeated snapshot: nothing but the leader's name changes. */
  lemma SkippedNode(h: P.History, n: Id, node: Node, intact: bool, args: SnapshotArgs)
    requires NodeOk(h, n, node, intact) && SnapshotOk(h, args, n, intact)
    requires args.term < node.term || (args.term == node.term && args.lastIndex <= h.peers[n].base)
    ensures NodeOk(Installed(h, n, args), n, HandleInstallSnapshot(node, args).0, intact)
    ensures Installed(h, n, args).peers == h.peers
  {
    hide PeerList, Replay, P.Covered, Sound, Compacted, CompactTo;
    LastCompacted(h.peers[n].log, h.peers[n].base);
    TrackingGrows(h, Installed(h, n, args), node);
  }

  lemma SnapshotAnswerOk(h: P.History, rounds: seq<Round>, n: Id, args: SnapshotArgs, reply: SnapshotReply, intact: bool)
    requires SnapshotOk(h, args, n, intact) && args.term <= reply.term
    requires reply.term == args.term ==> Sound(h, n, args.term, args.lastIndex)
    ensures MessageOk(h, rounds, SnapshotAnswer(n, args, reply), intact)
  {
  }

  lemma SnapshotFacts(c: Cluster, n: Id, args: SnapshotArgs)
    requires Good(c) && SnapshotRequest(n, args) in c.messages
    ensures SnapshotOk(c.history, args, n, !c.skewed)
  {
    hide P.Inv, NodesOk, RoundsOk;
    assert MessageOk(c.history, c.rounds, SnapshotRequest(n, args), !c.skewed);
  }

  lemma InstallReply(node: Node, args: SnapshotArgs)
    requires |node.log| > 0 && args.term <= node.term
    ensures HandleInstallSnapshot(node, args).1.term == node.term
  {
  }

  /** A snapshot of a term the node has reached already. */
  lemma LateSnapshotGood(c: Cluster, n: Id, args: SnapshotArgs)
    requires Good(c) && n in c.nodes && n in c.history.peers && |c.nodes[n].log| > 0
    requires SnapshotRequest(n, args) in c.messages && args.term <= c.nodes[n].term
    ensures Good(OnSnapshotRequest(c, n, args)) && Grows(c.history, OnSnapshotRequest(c, n, args).history)
  {
    hide P.Inv, NodeOk, MessageOk, RoundsOk, SnapshotOk, Sound, HandleInstallSnapshot, Grows, P.Install, P.Confirm, Mirrors,
         Applied, Stored;
    MemberFacts(c, n);
    TermMirrors(c, n);
    var h := c.history;
    var node := c.nodes[n];
    var c' := OnSnapshotRequest(c, n, args);
    var (node', reply) := HandleInstallSnapshot(node, args);
    SnapshotFacts(c, n, args);
    NodeBounds(h, n, node, !c.skewed);
    InstallReply(node, args);
    GrowsSame(h);
    var p := h.peers[n];
    assert Followed(h, n, args.term) == h;
    if args.term == node.term {
      InstalledSound(h, n, args, !c.skewed);
      InstalledGrows(h, n, args, !c.skewed);
      InstalledInv(h, n, args, !c.skewed);
    }
    SnapshotGrows(h, c'.history, args, n, !c.skewed, !c'.skewed);
    SnapshotAnswerOk(c'.history, c.rounds, n, args, reply, !c'.skewed);
    if args.term == node.term && args.lastIndex > p.base {
      SnapshotFromOther(h, n, args, !c.skewed);
      InstalledNode(h, n, node, !c.skewed, args);
      InstalledStanding(h, n, args, !c.skewed);
    } else {
      SkippedNode(h, n, node, !c.skewed, args);
    }
    Assemble(c, c', n, {SnapshotAnswer(n, args, reply)});
  }

  lemma SnapshotFromOther(h: P.History, n: Id, args: SnapshotArgs, intact: bool)
    requires P.Inv(h) && n in h.peers && SnapshotOk(h, args, n, intact) && h.peers[n].term == args.term
    ensures h.peers[n].role != Leader
  {
    NotTheLeader(h, n, args.term, args.leader);
  }

  /** A candidate that installs a snapshot has lost already: its term has a leader. */
  lemma InstalledStanding(h: P.History, n: Id, args: SnapshotArgs, intact: bool)
    requires n in h.peers && h.peers[n].term == args.term && SnapshotOk(h, args, n, intact)
    ensures n in Installed(h, n, args).peers && StillStanding(h, Installed(h, n, args), n)
    ensures forall x :: x in h.peers && x != n ==> Installed(h, n, args).peers[x] == h.peers[x]
  {
  }

  lemma CatchThenInstall(c: Cluster, n: Id, args: SnapshotArgs)
    requires n in c.nodes && n in c.history.peers && |c.nodes[n].log| > 0
    requires c.nodes[n].term == c.history.peers[n].term
    ensures OnSnapshotRequest(c, n, args) == OnSnapshotRequest(Caught(c, n, args.term), n, args)
  {
    if args.term > c.nodes[n].term {
      var c1 := Caught(c, n, args.term);
      assert HandleInstallSnapshot(c.nodes[n], args) == HandleInstallSnapshot(c1.nodes[n], args);
      var (node, _) := HandleInstallSnapshot(c.nodes[n], args);
      assert c1.nodes[n := node] == c.nodes[n := node];
    }
  }

  lemma SnapshotRequestGood(c: Cluster, n: Id, args: SnapshotArgs)
    requires Good(c) && n in c.nodes && SnapshotRequest(n, args) in c.messages
    ensures n in c.history.peers && |c.nodes[n].log| > 0
    ensures Good(OnSnapshotRequest(c, n, args)) && Grows(c.history, OnSnapshotRequest(c, n, args).history)
  {
    hide Good, Grows, OnSnapshotRequest;
    TermMirrors(c, n);
    CaughtGood(c, n, args.term);
    var c1 := Caught(c, n, args.term);
    TermMirrors(c1, n);
    CatchThenInstall(c, n, args);
    LateSnapshotGood(c1, n, args);
    GrowsFurther(c.history, c1.history, OnSnapshotRequest(c, n, args).history);
  }

  lemma InstallingIsRecoverable(h: P.History, n: Id, node: Node, intact: bool, args: SnapshotArgs)
    requires NodeOk(h, n, node, intact) && SnapshotOk(h, args, n, intact)
    requires args.term == node.term && args.lastIndex > h.peers[n].base
    ensures Recoverable(Installed(h, n, args), n, SaveSnapshot(node, args.lastIndex, args.lastTerm, args.data), intact)
  {
    hide PeerList, Replay, Tracking, P.Covered, Compacted;
    var p := h.peers[n];
    var lead := h.leaderLog[p.term];
    InstalledLog(node, p, lead, args);
    AheadStored(node, p, lead[..args.lastIndex], args.data);
    assert Installed(h, n, args).peers[n] == InstalledPeer(p, lead, args.lastIndex);
    var q := p.(log := Overlay(p.log, lead[..args.lastIndex]), base := args.lastIndex);
    assert Stored(SaveSnapshot(node, args.lastIndex, args.lastTerm, args.data), q);
  }

  lemma LateCrashInstallingGood(c: Cluster, n: Id, args: SnapshotArgs)
    requires Good(c) && n in c.nodes && n in c.history.peers && Usable(c.nodes[n])
    requires SnapshotRequest(n, args) in c.messages && args.term <= c.nodes[n].term
    ensures Good(OnCrashInstalling(c, n, args)) && Grows(c.history, OnCrashInstalling(c, n, args).history)
  {
    hide NodeOk, NodesOk, MessagesOk, RoundsOk, Recoverable, P.Inv, SnapshotOk, Grows, Sound, P.Install, P.Confirm;
    MemberFacts(c, n);
    TermMirrors(c, n);
    var h := c.history;
    var node := c.nodes[n];
    NodeBounds(h, n, node, !c.skewed);
    SnapshotFacts(c, n, args);
    assert Followed(h, n, args.term) == h;
    if args.term < node.term || args.lastIndex <= h.peers[n].base {
      CrashGood(c, n);
      assert c.nodes[n := node] == c.nodes;
    } else {
      InstalledSound(h, n, args, !c.skewed);
      InstalledGrows(h, n, args, !c.skewed);
      InstalledInv(h, n, args, !c.skewed);
      InstalledStanding(h, n, args, !c.skewed);
      InstallingIsRecoverable(h, n, node, !c.skewed, args);
      CrashWith(c, n, SaveSnapshot(node, args.lastIndex, args.lastTerm, args.data), Installed(h, n, args));
    }
  }

  lemma CatchThenCrash(c: Cluster, n: Id, args: SnapshotArgs)
    requires n in c.nodes && n in c.history.peers && Usable(c.nodes[n])
    requires c.nodes[n].term == c.history.peers[n].term
    ensures Usable(Caught(c, n, args.term).nodes[n])
    ensures OnCrashInstalling(c, n, args) == OnCrashInstalling(Caught(c, n, args.term), n, args)
  {
    hide Installed, Reboot;
    if args.term > c.nodes[n].term {
      var c1 := Caught(c, n, args.term);
      var node := c1.nodes[n];
      var saved := SaveSnapshot(node, args.lastIndex, args.lastTerm, args.data);
      assert c1.nodes[n := node] == c.nodes[n := node];
      assert c1.nodes[n := saved] == c.nodes[n := saved];
    }
  }

  lemma CrashInstallingGood(c: Cluster, n: Id, args: SnapshotArgs)
    requires Good(c) && n in c.nodes && SnapshotRequest(n, args) in c.messages
    ensures n in c.history.peers && Usable(c.nodes[n])
    ensures Good(OnCrashInstalling(c, n, args)) && Grows(c.history, OnCrashInstalling(c, n, args).history)
  {
    hide Good, Grows, OnCrashInstalling, NodeOk;
    MemberFacts(c, n);
    TermMirrors(c, n);
    CaughtGood(c, n, args.term);
    var c1 := Caught(c, n, args.term);
    TermMirrors(c1, n);
    CatchThenCrash(c, n, args);
    LateCrashInstallingGood(c1, n, args);
    GrowsFurther(c.history, c1.history, OnCrashInstalling(c, n, args).history);
  }
}
