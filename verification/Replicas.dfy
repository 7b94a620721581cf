/**
 The replicated state: in every session that restores and captures in order, a
 node's map is the replay of the entries it has applied.
 */
module Replicas {
  import opened Entries
  import opened Logs
  import opened Machine
  import opened Nodes
  import opened Cluster
  import opened ClusterInv
  import opened Runs
  import opened Safety
  import opened Calls
  import opened Program
  import Recovery
  import P = Protocol

  // ---------------------------------------------------------------- in order

  /** The apply loop restores a snapshot although entries past it were taken, before it came or since. */
  ghost predicate RestoresLate(s: System, n: Id) {
    var a := ApplierOf(s, n);
    && n in s.cluster.nodes && !a.draining && a.hand.Empty? && a.queued.Pending?
    && a.queued.index != s.cluster.nodes[n].lastApplied
  }

  /** A snapshot is taken with bytes that were read at another index, or with an entry or a restore under way. */
  ghost predicate CompactsLate(s: System, n: Id) {
    var a := ApplierOf(s, n);
    && Live(s.cluster, n) && a.captured.Bytes?
    && SnapshotIndex(s.cluster.nodes[n].log) < s.cluster.nodes[n].lastApplied
    && !(a.captured.settled && a.captured.index == s.cluster.nodes[n].lastApplied)
  }

  ghost predicate Disturbs(s: System, a: Action) {
    || (a.Restore? && RestoresLate(s, a.n))
    || ((a.Compact? || a.CrashCompact?) && CompactsLate(s, a.n))
  }

  ghost predicate InOrder(config: Config, actions: seq<Action>) {
    forall i :: 0 <= i < |actions| ==> !Disturbs(Session(config, actions[..i]), actions[i])
  }

  // ---------------------------------------------------------------- what is known of an applier

  /** The map is the replay of what was applied; an entry in hand is the last one taken. */
  ghost predicate InStep(log: seq<LogEntry>, applied: nat, a: Applier) {
    && applied <= |log|
    && (a.hand.Empty? ==> a.store == Replay(log[..applied]))
    && (a.hand.Holding? ==> applied >= 1 && a.hand.entry == log[applied - 1] && a.store == Replay(log[..applied - 1]))
  }

  ghost predicate ApplierOk(log: seq<LogEntry>, applied: nat, a: Applier) {
    && applied <= |log|
    && (a.queued.Nothing? ==> InStep(log, applied, a))
    && (a.queued.Pending? ==> a.queued.index <= applied && a.queued.data == Replay(log[..a.queued.index]))
    && (a.captured.Bytes? && a.captured.settled ==>
          a.captured.index <= applied && a.captured.data == Replay(log[..a.captured.index]))
  }

  ghost predicate AppliersOk(s: System) {
    forall n :: n in s.cluster.nodes ==> ApplierOk(WholeLog(s.cluster, n), s.cluster.nodes[n].lastApplied, ApplierOf(s, n))
  }

  /** A log that keeps the applied prefix serves as well. */
  lemma ApplierStays(log: seq<LogEntry>, log': seq<LogEntry>, applied: nat, a: Applier)
    requires ApplierOk(log, applied, a) && applied <= |log'| && log'[..applied] == log[..applied]
    ensures ApplierOk(log', applied, a)
  {
    assert forall k :: 0 <= k <= applied ==> log'[..k] == log'[..applied][..k] && log[..k] == log[..applied][..k];
    if a.hand.Holding? && a.queued.Nothing? {
      assert log'[applied - 1] == log'[..applied][applied - 1] == log[applied - 1];
    }
  }

  // ---------------------------------------------------------------- single steps

  /** The entry in hand is taken, applied, reported. */
  lemma TakenOk(log: seq<LogEntry>, applied: nat, a: Applier)
    requires ApplierOk(log, applied, a) && a.hand.Empty? && applied < |log|
    ensures ApplierOk(log, applied + 1, a.(hand := Holding(log[applied])))
  {
  }

  lemma FinishedOk(log: seq<LogEntry>, applied: nat, a: Applier, a': Applier)
    requires ApplierOk(log, applied, a) && a.hand.Holding?
    requires a' == a.(store := ApplyEntry(a.store, a.hand.entry), hand := Empty, channel := a'.channel)
    ensures ApplierOk(log, applied, a')
  {
    if a.queued.Nothing? {
      ReplayStep(log, applied - 1);
    }
  }

  lemma RestoredOk(log: seq<LogEntry>, applied: nat, a: Applier, a': Applier)
    requires ApplierOk(log, applied, a) && a.hand.Empty? && a.queued.Pending? && a.queued.index == applied
    requires a' == a.(store := a.queued.data, queued := Nothing, channel := a'.channel)
    ensures ApplierOk(log, applied, a')
  {
  }

  lemma CapturedOk(log: seq<LogEntry>, applied: nat, a: Applier)
    requires ApplierOk(log, applied, a)
    ensures ApplierOk(log, applied, a.(captured := Bytes(a.store, applied, Settled(a))))
  {
  }

  // ---------------------------------------------------------------- what events do to lastApplied

  lemma HandlersKeepApplied(n: Node, vote: VoteArgs, append: AppendArgs, snapshot: SnapshotArgs)
    requires |n.log| > 0
    ensures HandleRequestVote(n, vote, false).0.lastApplied == n.lastApplied
    ensures HandleAppendEntries(n, append).0.lastApplied == n.lastApplied
    ensures !Installs(n, snapshot) ==> HandleInstallSnapshot(n, snapshot).0.lastApplied == n.lastApplied
  {
    hide AppendLoop, Get, FirstIndexForTerm, CompactTo;
  }

  lemma RepliesKeepApplied(n: Node, p: Id, term: nat, votes: nat, vote: VoteReply, append: AppendArgs, appended: AppendReply,
        snapshot: SnapshotArgs, installed: SnapshotReply)
    requires |n.log| > 0
    ensures ReceiveVote(n, term, votes, vote).0.lastApplied == n.lastApplied
    ensures ReceiveAppendReply(n, p, term, append, appended).lastApplied == n.lastApplied
    ensures ReceiveSnapshotReply(n, p, term, snapshot, installed).lastApplied == n.lastApplied
  {
    hide BackUp, QuorumIndex;
  }

  lemma DeliveryKeepsApplied(c: Cluster, m: Message, n: Id)
    requires Live(c, Receiver(m)) && n in c.nodes
    requires !(m.SnapshotRequest? && m.to == n && Installs(c.nodes[n], m.snapshot))
    ensures n in OnDeliver(c, m).nodes && OnDeliver(c, m).nodes[n].lastApplied == c.nodes[n].lastApplied
  {
    hide HandleRequestVote, ReceiveVote, HandleAppendEntries, ReceiveAppendReply, HandleInstallSnapshot,
         ReceiveSnapshotReply, Holders, Installs;
    var x := c.nodes[Receiver(m)];
    var noVote, noAppend, noSnapshot := VoteArgs(0, "", 0, 0, false), AppendArgs(0, "", 0, 0, [], 0), SnapshotArgs(0, "", 0, 0, map[]);
    match m
    case VoteRequest(_, _, args) => HandlersKeepApplied(x, args, noAppend, noSnapshot);
    case AppendRequest(_, args) => HandlersKeepApplied(x, noVote, args, noSnapshot);
    case SnapshotRequest(_, args) => HandlersKeepApplied(x, noVote, noAppend, args);
    case VoteAnswer(_, i, _, reply) =>
      if i < |c.rounds| {
        RepliesKeepApplied(x, "", c.rounds[i].args.term, 1 + |c.rounds[i].granted|, reply, noAppend, AppendReply(0, false, 0, 0),
                           noSnapshot, SnapshotReply(0));
      }
    case AppendAnswer(from, args, reply) =>
      RepliesKeepApplied(x, from, args.term, 0, VoteReply(0, false), args, reply, noSnapshot, SnapshotReply(0));
    case SnapshotAnswer(from, args, reply) =>
      RepliesKeepApplied(x, from, args.term, 0, VoteReply(0, false), noAppend, AppendReply(0, false, 0, 0), args, reply);
  }

  /** Only taking an entry, an installed snapshot and a restart move lastApplied. */
  lemma AppliedStays(c: Cluster, e: Event, n: Id)
    requires n in c.nodes && !(e.Apply? && e.n == n)
    requires !(Crashes(c, e) && Victim(e) == n) && !(Queues(c, e) && e.m.to == n)
    ensures n in Next(c, e).nodes && Next(c, e).nodes[n].lastApplied == c.nodes[n].lastApplied
  {
    if e.Deliver? {
      hide OnDeliver, Installs;
      if e.m in c.messages && Live(c, Receiver(e.m)) {
        DeliveryKeepsApplied(c, e.m, n);
      }
    } else if e.Crash? || e.CrashFollowing? || e.CrashSaving? || e.CrashInstalling? {
      hide Next;
      CrashOutcome(c, e, n);
    } else {
      hide Next;
      WorkKeepsApplied(c, e, n);
    }
  }

  lemma WorkKeepsApplied(c: Cluster, e: Event, n: Id)
    requires n in c.nodes && !(e.Apply? && e.n == n)
    requires !e.Deliver? && !e.Crash? && !e.CrashFollowing? && !e.CrashSaving? && !e.CrashInstalling?
    ensures n in Next(c, e).nodes && Next(c, e).nodes[n].lastApplied == c.nodes[n].lastApplied
  {
    hide CompactTo, Get, Skews, BuildVoteArgs, BuildArgs, BuildSnapshotArgs, P.Compact, P.Stand, P.LeaderAppend, P.Forget;
  }

  /** A restarted node has applied what its snapshot covers. */
  lemma RestartedApplied(c: Cluster, e: Event)
    requires Crashes(c, e)
    ensures var n, c' := Victim(e), Next(c, e);
            n in c'.nodes && c'.nodes[n].lastApplied == c'.nodes[n].disk.snapshot.index
  {
    hide Next;
    CrashKnows(c, e);
    CrashOutcome(c, e, Victim(e));
  }

  lemma CrashKnows(c: Cluster, e: Event)
    requires Crashes(c, e)
    ensures Victim(e) in c.nodes
  {
  }

  // ---------------------------------------------------------------- what the cluster guarantees an applier

  /** What a node has applied stays in its log. */
  lemma AppliedKept(c: Cluster, c': Cluster, n: Id)
    requires Good(c) && Good(c') && Grows(c.history, c'.history) && n in c.nodes && n in c'.nodes
    ensures var k := c.nodes[n].lastApplied;
            && k <= c.nodes[n].commitIndex <= |WholeLog(c, n)| && k <= |WholeLog(c', n)|
            && WholeLog(c', n)[..k] == WholeLog(c, n)[..k]
  {
    hide Good, P.Covered, P.RoleOk, P.Clean, P.Dirty;
    NodeFacts(c, n);
    NodeFacts(c', n);
    assert Durable(c.history, c'.history, n);
    var log, log', k := WholeLog(c, n), WholeLog(c', n), c.nodes[n].lastApplied;
    var m := c.nodes[n].commitIndex;
    assert log[..m] <= log';
    assert log[..k] == log[..m][..k] && log'[..k] == log'[..m][..k];
  }

  /** What every snapshot on a node holds, as long as none was skewed. */
  lemma SnapshotsReplay(c: Cluster, n: Id)
    requires Good(c) && !c.skewed && n in c.nodes
    ensures |c.nodes[n].log| > 0
    ensures var node, log, base := c.nodes[n], WholeLog(c, n), SnapshotIndex(c.nodes[n].log);
            && base <= node.lastApplied <= |log| && node.disk.snapshot.index == base
            && (base > 0 ==> node.snapshotData == Replay(log[..base]) && node.disk.snapshot.data == Replay(log[..base]))
  {
    hide P.Inv, MessagesOk, RoundsOk, Replay, Tracking, PeerList;
    NodeFacts(c, n);
    assert NodeOk(c.history, n, c.nodes[n], !c.skewed);
  }

  lemma RestartedOk(c: Cluster, n: Id)
    requires Good(c) && !c.skewed && n in c.nodes && c.nodes[n].lastApplied == c.nodes[n].disk.snapshot.index
    ensures ApplierOk(WholeLog(c, n), c.nodes[n].lastApplied, Started(RestoredStore(c.nodes[n].disk)))
  {
    hide Good, WholeLog;
    SnapshotsReplay(c, n);
    assert WholeLog(c, n)[..0] == [];
  }

  lemma InstalledFields(n: Node, args: SnapshotArgs)
    requires |n.log| > 0 && Installs(n, args)
    ensures var n' := HandleInstallSnapshot(n, args).0;
            && |n'.log| > 0 && SnapshotIndex(n'.log) == args.lastIndex && n'.snapshotData == args.data
            && n'.lastApplied >= args.lastIndex && n'.lastApplied >= n.lastApplied
  {
  }

  lemma QueuedOk(log: seq<LogEntry>, applied: nat, applied': nat, a: Applier, index: nat, data: Store)
    requires ApplierOk(log, applied, a) && applied <= applied' <= |log| && index <= applied' && data == Replay(log[..index])
    ensures ApplierOk(log, applied', a.(queued := Pending(index, data)))
  {
    hide Replay;
  }

  lemma InstallNext(c: Cluster, e: Event)
    requires Queues(c, e)
    ensures var n, c' := e.m.to, Next(c, e);
            n in c'.nodes && c'.nodes[n] == HandleInstallSnapshot(c.nodes[n], e.m.snapshot).0
  {
    hide HandleInstallSnapshot;
  }

  /** An installed snapshot reaches the queue with the state its index stands for. */
  lemma InstalledOk(c: Cluster, e: Event, a: Applier)
    requires Queues(c, e) && Good(c) && Good(Next(c, e)) && Grows(c.history, Next(c, e).history) && !Next(c, e).skewed
    requires ApplierOk(WholeLog(c, e.m.to), c.nodes[e.m.to].lastApplied, a)
    ensures var n, c' := e.m.to, Next(c, e);
            && n in c'.nodes
            && ApplierOk(WholeLog(c', n), c'.nodes[n].lastApplied, a.(queued := Pending(e.m.snapshot.lastIndex, e.m.snapshot.data)))
  {
    hide Good, Grows, Next, WholeLog, ApplierOk, HandleInstallSnapshot, Replay;
    var n, c' := e.m.to, Next(c, e);
    InstallNext(c, e);
    InstalledFields(c.nodes[n], e.m.snapshot);
    AppliedKept(c, c', n);
    SnapshotsReplay(c', n);
    ApplierStays(WholeLog(c, n), WholeLog(c', n), c.nodes[n].lastApplied, a);
    QueuedOk(WholeLog(c', n), c.nodes[n].lastApplied, c'.nodes[n].lastApplied, a, e.m.snapshot.lastIndex, e.m.snapshot.data);
  }

  // ---------------------------------------------------------------- events in a session

  ghost predicate Advances(c: Cluster, c': Cluster) {
    Good(c) && Good(c') && Grows(c.history, c'.history) && !c.skewed && !c'.skewed && c'.nodes.Keys == c.nodes.Keys
  }

  lemma NodeAfter(s: System, e: Event, n: Id)
    requires Advances(s.cluster, Next(s.cluster, e)) && AppliersOk(s) && n in s.cluster.nodes && !(e.Apply? && e.n == n)
    ensures ApplierOk(WholeLog(Next(s.cluster, e), n), Next(s.cluster, e).nodes[n].lastApplied, ApplierOf(Happen(s, e), n))
  {
    hide Good, Grows, Next, WholeLog, ApplierOk, Replay, Installs;
    var c, c' := s.cluster, Next(s.cluster, e);
    assert ApplierOk(WholeLog(c, n), c.nodes[n].lastApplied, ApplierOf(s, n));
    if Crashes(c, e) && Victim(e) == n {
      RestartedApplied(c, e);
      RestartedOk(c', n);
    } else if Queues(c, e) && e.m.to == n {
      QueuesNotCrashes(c, e);
      InstalledOk(c, e, ApplierOf(s, n));
    } else {
      AppliedStays(c, e, n);
      AppliedKept(c, c', n);
      ApplierStays(WholeLog(c, n), WholeLog(c', n), c.nodes[n].lastApplied, ApplierOf(s, n));
      OtherApplier(s, e, n);
    }
  }

  lemma QueuesNotCrashes(c: Cluster, e: Event)
    requires Queues(c, e)
    ensures !Crashes(c, e) && e.Deliver? && e.m.SnapshotRequest? && e.m.to in c.nodes
  {
  }

  lemma OtherApplier(s: System, e: Event, n: Id)
    requires !(Crashes(s.cluster, e) && Victim(e) == n) && !(Queues(s.cluster, e) && e.m.to == n)
    ensures ApplierOf(Happen(s, e), n) == ApplierOf(s, n)
  {
    hide Next;
  }

  lemma HappenOk(s: System, e: Event)
    requires Advances(s.cluster, Next(s.cluster, e)) && AppliersOk(s) && !e.Apply?
    ensures AppliersOk(Happen(s, e))
  {
    hide Next, ApplierOk, Happen, Good, Grows;
    HappenCluster(s, e);
    forall n | n in s.cluster.nodes
      ensures ApplierOk(WholeLog(Next(s.cluster, e), n), Next(s.cluster, e).nodes[n].lastApplied, ApplierOf(Happen(s, e), n))
    {
      NodeAfter(s, e, n);
    }
  }

  /** The entry the apply loop takes next is the node's own, at its place. */
  lemma NextToApply(c: Cluster, n: Id)
    requires Good(c) && n in c.nodes && |c.nodes[n].log| > 0 && CanApply(c.nodes[n])
    ensures var i := c.nodes[n].lastApplied + 1;
            var entry := NextEntry(c.nodes[n]);
            i <= |WholeLog(c, n)| && entry == WholeLog(c, n)[i - 1] && entry.index == i && entry.term >= 1
  {
    hide Good, P.RoleOk, P.Covered, P.Clean, P.Dirty;
    NodeFacts(c, n);
    var p := c.history.peers[n];
    GetCompacted(p.log, p.base, c.nodes[n].lastApplied + 1);
  }

  lemma TakeEvent(c: Cluster, n: Id)
    requires Live(c, n) && CanApply(c.nodes[n])
    ensures var c' := Next(c, Apply(n));
            && c'.nodes == c.nodes[n := TakeNext(c.nodes[n])] && c'.history == c.history && WholeLog(c', n) == WholeLog(c, n)
  {
  }

  lemma TakeOk(s: System, n: Id)
    requires Advances(s.cluster, Next(s.cluster, Apply(n))) && AppliersOk(s) && MayTake(s, n)
    ensures AppliersOk(Step(s, Take(n)))
  {
    hide Next, ApplierOk, Good, Grows, NextEntry, Happen;
    var c, c' := s.cluster, Next(s.cluster, Apply(n));
    HappenCluster(s, Apply(n));
    TakeEvent(c, n);
    NextToApply(c, n);
    TakenOk(WholeLog(c, n), c.nodes[n].lastApplied, ApplierOf(s, n));
    forall x | x in c'.nodes && x != n
      ensures ApplierOk(WholeLog(c', x), c'.nodes[x].lastApplied, ApplierOf(Step(s, Take(n)), x))
    {
      NodeAfter(s, Apply(n), x);
    }
  }

  /** One applier changes, nothing else that matters. */
  lemma OneApplier(s: System, s': System, n: Id, a: Applier)
    requires AppliersOk(s) && s'.cluster == s.cluster
    requires s'.appliers == s.appliers || s'.appliers == s.appliers[n := a]
    requires n in s.cluster.nodes ==> ApplierOk(WholeLog(s.cluster, n), s.cluster.nodes[n].lastApplied, a)
    ensures AppliersOk(s')
  {
    hide ApplierOk;
    assert forall x :: x != n ==> ApplierOf(s', x) == ApplierOf(s, x);
  }

  /** What an action of the apply loop or the store leaves of the applier. */
  ghost function LocalAfter(s: System, act: Action): Applier
    requires act.Wake? || act.Finish? || act.Rest? || act.Restore? || act.Drain? || act.Capture?
  {
    ApplierOf(Step(s, act), act.n)
  }

  lemma LocalFrame(s: System, act: Action)
    requires act.Wake? || act.Finish? || act.Rest? || act.Restore? || act.Drain? || act.Capture?
    ensures Step(s, act).cluster == s.cluster
    ensures Step(s, act).appliers == s.appliers || Step(s, act).appliers == s.appliers[act.n := LocalAfter(s, act)]
  {
    hide ApplyEntry, ResultOf, Dispatch;
  }

  lemma LocalChange(s: System, act: Action, a: Applier)
    requires act.Wake? || act.Finish? || act.Rest? || act.Restore? || act.Drain? || act.Capture?
    requires a == ApplierOf(s, act.n) && act.n in s.cluster.nodes
    ensures var a', applied := LocalAfter(s, act), s.cluster.nodes[act.n].lastApplied;
            match act
            case Finish(_) =>
              a' == a || (a.hand.Holding? && a' == a.(store := ApplyEntry(a.store, a.hand.entry), hand := Empty, channel := a'.channel))
            case Restore(_) =>
              || a' == a
              || (!a.draining && a.hand.Empty? && a.queued.Pending?
                  && a' == a.(store := a.queued.data, queued := Nothing, channel := a'.channel))
            case Capture(_) => a' == a.(captured := Bytes(a.store, applied, Settled(a)))
            case _ => a' == a.(draining := a'.draining, channel := a'.channel)
  {
    hide ApplyEntry, ResultOf, Dispatch;
  }

  /** The actions of the apply loop and the store that touch no cluster. */
  lemma LocalOk(s: System, act: Action)
    requires AppliersOk(s) && !Disturbs(s, act)
    requires act.Wake? || act.Finish? || act.Rest? || act.Restore? || act.Drain? || act.Capture?
    ensures AppliersOk(Step(s, act))
  {
    hide Step, ApplyEntry, LocalAfter, AppliersOk, ApplierOk, WholeLog, ApplierOf, CompactsLate;
    var n, a, a' := act.n, ApplierOf(s, act.n), LocalAfter(s, act);
    LocalFrame(s, act);
    if n in s.cluster.nodes {
      var log, applied := WholeLog(s.cluster, n), s.cluster.nodes[n].lastApplied;
      KnownOk(s, n);
      LocalChange(s, act, a);
      if a' != a {
        match act
        case Finish(_) => FinishedOk(log, applied, a, a');
        case Restore(_) => RestoredOk(log, applied, a, a');
        case Capture(_) => CapturedOk(log, applied, a);
        case _ => SameApplier(log, applied, a, a');
      }
    }
    OneApplier(s, Step(s, act), n, a');
  }

  lemma KnownOk(s: System, n: Id)
    requires AppliersOk(s) && n in s.cluster.nodes
    ensures ApplierOk(WholeLog(s.cluster, n), s.cluster.nodes[n].lastApplied, ApplierOf(s, n))
  {
  }

  lemma SameApplier(log: seq<LogEntry>, applied: nat, a: Applier, a': Applier)
    requires ApplierOk(log, applied, a) && a' == a.(draining := a'.draining, channel := a'.channel)
    ensures ApplierOk(log, applied, a')
  {
  }

  /** Bytes read in order are the state the snapshot stands for. */
  lemma InOrderNotSkewed(s: System, a: Action)
    requires Good(s.cluster) && AppliersOk(s) && !Disturbs(s, a) && ProbesOnly(s)
    ensures EventOf(s, a) != [] ==> !TakesSkewed(s.cluster, EventOf(s, a)[0])
  {
    hide Good, Replay;
    if (a.Compact? || a.CrashCompact?) && Live(s.cluster, a.n) && ApplierOf(s, a.n).captured.Bytes? {
      var n := a.n;
      assert ApplierOk(WholeLog(s.cluster, n), s.cluster.nodes[n].lastApplied, ApplierOf(s, n));
    }
  }

  lemma StepOk(s: System, a: Action)
    requires AppliersOk(s) && !Disturbs(s, a) && ProbesOnly(s)
    requires EventOf(s, a) != [] ==> Advances(s.cluster, Next(s.cluster, EventOf(s, a)[0]))
    ensures AppliersOk(Step(s, a))
  {
    if a.Wake? || a.Finish? || a.Rest? || a.Restore? || a.Drain? || a.Capture? {
      hide Step, Disturbs;
      LocalOk(s, a);
    } else if a.Ask? || a.Answer? || a.Count? {
      hide OnProbe;
      ProbeTransparent(s, a);
    } else if a.Take? {
      hide Happen, Next;
      if MayTake(s, a.n) {
        TakeOk(s, a.n);
      }
    } else {
      hide Happen, Next, ApplierOk, Advances;
      if EventOf(s, a) != [] {
        HappenOk(s, EventOf(s, a)[0]);
        HappenCluster(s, EventOf(s, a)[0]);
      }
      EventSteps(s, a);
    }
  }

  /** Apart from the event, such an action touches tables and calls, and drops the captured bytes. */
  lemma EventSteps(s: System, a: Action)
    requires a.Core? || a.Proceed? || a.Compact? || a.CrashCompact? || a.Submit? || a.Wait? || a.Expire?
    requires EventOf(s, a) == [] ==> AppliersOk(s)
    requires EventOf(s, a) != [] ==> AppliersOk(Happen(s, EventOf(s, a)[0]))
    ensures AppliersOk(Step(s, a))
  {
    hide Next, AppliersOk, Happen, OnProbe, OnApplier, Succeeded, Reserved;
    if a.Compact? && EventOf(s, a) != [] {
      hide Step;
      CompactStep(s, a.n);
    } else if a.Submit? || a.Wait? || a.Expire? {
      hide Step;
      CallStep(s, a);
    }
  }

  lemma CallStep(s: System, a: Action)
    requires a.Submit? || a.Wait? || a.Expire?
    requires EventOf(s, a) == [] ==> AppliersOk(s)
    requires EventOf(s, a) != [] ==> AppliersOk(Happen(s, EventOf(s, a)[0]))
    ensures AppliersOk(Step(s, a))
  {
    hide Next, Happen, ApplierOk, WholeLog, Enter, GiveUp, Nodes.Submit;
  }

  lemma CompactStep(s: System, n: Id)
    requires ApplierOf(s, n).captured.Bytes? && AppliersOk(Happen(s, Snapshot(n, ApplierOf(s, n).captured.data)))
    ensures AppliersOk(Step(s, Compact(n)))
  {
    hide Next, Replay, WholeLog;
    var s1 := Happen(s, Snapshot(n, ApplierOf(s, n).captured.data));
    assert forall x :: x in s1.cluster.nodes && x != n ==> ApplierOf(Step(s, Compact(n)), x) == ApplierOf(s1, x);
    assert ApplierOf(s1, n) == ApplierOf(s, n);
  }

  // ---------------------------------------------------------------- whole sessions

  lemma OrderBefore(config: Config, actions: seq<Action>)
    requires InOrder(config, actions) && |actions| > 0
    ensures InOrder(config, actions[..|actions| - 1])
    ensures !Disturbs(Session(config, actions[..|actions| - 1]), actions[|actions| - 1])
  {
    hide Disturbs, Session;
    var before := actions[..|actions| - 1];
    assert forall i :: 0 <= i < |before| ==> before[..i] == actions[..i] && before[i] == actions[i];
    assert !Disturbs(Session(config, actions[..|actions| - 1]), actions[|actions| - 1]);
  }

  /** In every session in order, appliers are in step and no snapshot was skewed. */
  lemma {:induction false} SessionInStep(config: Config, actions: seq<Action>)
    requires ValidConfig(config) && VotesKept(config, Events(config, actions)) && InOrder(config, actions)
    ensures AppliersOk(Session(config, actions)) && NeverSkewed(config, Events(config, actions))
  {
    hide Good, Grows, ValidConfig, Runs.VotesKept, Run, InOrder, Disturbs, Step, NeverSkewed, AppliersOk, ProbesOnly, EventOf;
    if |actions| == 0 {
      StartsInStep(config);
      NothingSkewed(config);
    } else {
      var before, a := actions[..|actions| - 1], actions[|actions| - 1];
      var s, events := Session(config, before), Events(config, before);
      OrderBefore(config, actions);
      KeptEarlier(config, events, EventOf(s, a));
      SessionInStep(config, before);
      SessionIsRun(config, before);
      SessionIsRun(config, actions);
      RunGood(config, events);
      StepIsEvent(s, a);
      InOrderNotSkewed(s, a);
      StaysUnskewed(config, events, EventOf(s, a));
      SessionAdvances(config, events, EventOf(s, a));
      StepOk(s, a);
    }
  }

  lemma StartsInStep(config: Config)
    ensures AppliersOk(Begin(config))
  {
  }

  lemma NothingSkewed(config: Config)
    ensures NeverSkewed(config, [])
  {
  }

  lemma StaysUnskewed(config: Config, events: seq<Event>, more: seq<Event>)
    requires NeverSkewed(config, events) && |more| <= 1 && (more != [] ==> !TakesSkewed(Run(config, events), more[0]))
    ensures NeverSkewed(config, events + more)
  {
    hide Run, TakesSkewed;
    var all := events + more;
    forall i | 0 <= i < |all|
      ensures !TakesSkewed(Run(config, all[..i]), all[i])
    {
      if i < |events| {
        assert all[..i] == events[..i] && all[i] == events[i];
      } else {
        assert all[..i] == events && all[i] == more[0];
      }
    }
  }

  lemma SessionAdvances(config: Config, events: seq<Event>, more: seq<Event>)
    requires ValidConfig(config) && VotesKept(config, events + more) && |more| <= 1
    requires NeverSkewed(config, events) && NeverSkewed(config, events + more)
    ensures more != [] ==> Advances(Run(config, events), Next(Run(config, events), more[0]))
  {
    hide Good, Grows, Run, Next, ValidConfig, Runs.VotesKept, NeverSkewed;
    KeptEarlier(config, events, more);
    RunGrows(config, events, more);
    RunGood(config, events);
    RunGood(config, events + more);
    if more != [] {
      assert more == [more[0]];
      RunNext(config, events, more[0]);
      Recovery.RunNodes(config, events);
      Recovery.RunNodes(config, events + more);
    }
  }

  /** Between entries and restores the map is the replay of the applied entries, each once and in order. */
  lemma MachineIsReplay(config: Config, actions: seq<Action>, n: Id)
    requires ValidConfig(config) && VotesKept(config, Events(config, actions)) && InOrder(config, actions)
    requires n in Session(config, actions).cluster.nodes
    ensures var s := Session(config, actions);
            var node, log, a := s.cluster.nodes[n], WholeLog(s.cluster, n), ApplierOf(s, n);
            && node.lastApplied <= node.commitIndex <= |log|
            && (Settled(a) ==> a.store == Replay(log[..node.lastApplied]))
            && (a.queued.Nothing? && a.hand.Holding? ==>
                  && node.lastApplied >= 1 && a.hand.entry == log[node.lastApplied - 1]
                  && a.store == Replay(log[..node.lastApplied - 1]))
  {
    hide Good, Run, Session, Events, Runs.VotesKept, InOrder, ValidConfig, Replay, NeverSkewed, ProbesOnly, WholeLog, ApplierOf,
         ErasuresKnown;
    SessionInStep(config, actions);
    SessionIsRun(config, actions);
    RunGood(config, Events(config, actions));
    var s := Session(config, actions);
    AppliedBounds(s.cluster, n);
    assert ApplierOk(WholeLog(s.cluster, n), s.cluster.nodes[n].lastApplied, ApplierOf(s, n));
  }

  lemma AppliedBounds(c: Cluster, n: Id)
    requires Good(c) && n in c.nodes
    ensures c.nodes[n].lastApplied <= c.nodes[n].commitIndex <= |WholeLog(c, n)|
  {
    hide Good, P.RoleOk, P.Clean, P.Dirty, P.Covered, Replayed;
    NodeFacts(c, n);
  }

  /** Between entries a key reads as the last applied entry to name it left it. */
  lemma ReadsLastWrite(config: Config, actions: seq<Action>, n: Id, key: string, value: string)
    requires ValidConfig(config) && VotesKept(config, Events(config, actions)) && InOrder(config, actions)
    requires n in Session(config, actions).cluster.nodes && Settled(ApplierOf(Session(config, actions), n))
    ensures var s := Session(config, actions);
            var log, applied, store := WholeLog(s.cluster, n), s.cluster.nodes[n].lastApplied, ApplierOf(s, n).store;
            && applied <= |log|
            && (key in store && store[key] == value <==> LastSets(log[..applied], key, value))
  {
    hide Session, Runs.VotesKept, InOrder, ValidConfig, Replay, Events, WholeLog, LastSets;
    MachineIsReplay(config, actions, n);
    var s := Session(config, actions);
    LastWriterWins(WholeLog(s.cluster, n)[..s.cluster.nodes[n].lastApplied], key, value);
  }

  /** Replicas that have applied equally far hold the same map, whenever each got there. */
  lemma ReplicasAgree(config: Config, actions: seq<Action>, more: seq<Action>, a: Id, b: Id)
    requires ValidConfig(config) && VotesKept(config, Events(config, actions + more)) && InOrder(config, actions + more)
    requires a in Session(config, actions).cluster.nodes && b in Session(config, actions + more).cluster.nodes
    requires Settled(ApplierOf(Session(config, actions), a)) && Settled(ApplierOf(Session(config, actions + more), b))
    requires Session(config, actions).cluster.nodes[a].lastApplied == Session(config, actions + more).cluster.nodes[b].lastApplied
    ensures ApplierOf(Session(config, actions), a).store == ApplierOf(Session(config, actions + more), b).store
  {
    hide Session, Run, Runs.VotesKept, InOrder, ValidConfig, Replay, Events;
    var events, all := Events(config, actions), Events(config, actions + more);
    EventsContinue(config, actions, more);
    assert events + all[|events|..] == all;
    KeptEarlier(config, events, all[|events|..]);
    OrderEarlier(config, actions, more);
    MachineIsReplay(config, actions, a);
    MachineIsReplay(config, actions + more, b);
    SessionIsRun(config, actions);
    SessionIsRun(config, actions + more);
    StateMachineSafety(config, events, all[|events|..], a, b, Session(config, actions).cluster.nodes[a].lastApplied);
  }

  lemma OrderEarlier(config: Config, actions: seq<Action>, more: seq<Action>)
    requires InOrder(config, actions + more)
    ensures InOrder(config, actions)
  {
    hide Disturbs, Session;
    forall i | 0 <= i < |actions|
      ensures !Disturbs(Session(config, actions[..i]), actions[i])
    {
      assert (actions + more)[..i] == actions[..i] && (actions + more)[i] == actions[i];
      assert !Disturbs(Session(config, (actions + more)[..i]), (actions + more)[i]);
    }
  }

  /** Restoring a snapshot taken at i and applying i+1..k equals applying 1..k. */
  lemma RestoreThenApply(log: seq<LogEntry>, i: nat, k: nat)
    requires i <= k <= |log|
    ensures ReplayFrom(Replay(log[..i]), log[i..k]) == Replay(log[..k])
  {
    ReplaySplit(map[], log[..i], log[i..k]);
    assert log[..i] + log[i..k] == log[..k];
  }

  // ---------------------------------------------------------------- why the indices must agree

  /** In whatever log, the map after i entries can stand in for the map after j. */
  ghost predicate StandsIn(i: nat, j: nat) {
    forall log: seq<LogEntry> :: i <= |log| && j <= |log| ==> Replay(log[..i]) == Replay(log[..j])
  }

  /** A log of `length` entries in which only the one after position i changes the map. */
  function OneWrite(i: nat, length: nat): seq<LogEntry> {
    seq(length, j requires 0 <= j < length =>
      CommandEntry(1, j + 1, if j == i then Encoded(Op("SET", "k", "v")) else Raw([])))
  }

  lemma {:induction false} OneWriteReplay(i: nat, length: nat, k: nat)
    requires k <= length
    ensures Replay(OneWrite(i, length)[..k]) == if i < k then map["k" := "v"] else map[]
  {
    var log := OneWrite(i, length);
    if k > 0 {
      OneWriteReplay(i, length, k - 1);
      ReplayStep(log, k - 1);
      assert log[k - 1] == CommandEntry(1, k, if k - 1 == i then Encoded(Op("SET", "k", "v")) else Raw([]));
      if k - 1 == i {
        var empty: Store := map[];
        assert ApplyEntry(empty, log[k - 1]) == empty["k" := "v"];
      }
    } else {
      assert log[..0] == [];
    }
  }

  /** A snapshot restored or taken at another index than its bytes belong to is wrong for some log. */
  lemma StandsInIff(i: nat, j: nat)
    ensures StandsIn(i, j) <==> i == j
  {
    if i != j {
      var least, most := if i < j then i else j, if i < j then j else i;
      var log := OneWrite(least, most);
      OneWriteReplay(least, most, least);
      OneWriteReplay(least, most, most);
      assert "k" in Replay(log[..most]) && "k" !in Replay(log[..least]);
      assert Replay(log[..i]) != Replay(log[..j]);
    }
  }
}
