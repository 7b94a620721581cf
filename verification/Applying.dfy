/** Apply loops at will: entries applied one by one, snapshots captured, taken, sent and restored. */
module Applying {
  import opened Entries
  import opened Logs
  import opened Machine
  import opened Nodes
  import opened Cluster
  import opened Calls
  import opened Program
  import opened Scenarios
  import Replicas

  /** A member's node and apply loop, as the system has them. */
  ghost predicate At(s: System, n: Id, node: Node, a: Applier) {
    Live(s.cluster, n) && s.cluster.nodes[n] == node && ApplierOf(s, n) == a
  }

  /** Only n has moved, and no message is lost. */
  ghost predicate Apart(s: System, s': System, n: Id) {
    && s.cluster.messages <= s'.cluster.messages
    && forall x :: x != n && Live(s.cluster, x) ==>
         Live(s'.cluster, x) && s'.cluster.nodes[x] == s.cluster.nodes[x] && ApplierOf(s', x) == ApplierOf(s, x)
  }

  lemma ApartOn(s: System, s1: System, s': System, n: Id)
    requires Apart(s, s1, n) && Apart(s1, s', n)
    ensures Apart(s, s', n)
  {
  }

  lemma ApartAt(s: System, s': System, n: Id, x: Id, node: Node, a: Applier)
    requires Apart(s, s', n) && x != n && At(s, x, node, a)
    ensures At(s', x, node, a)
  {
  }

  // ---------------------------------------------------------------- the apply loop

  lemma Wakes(s: System, n: Id, node: Node, a: Applier)
    requires At(s, n, node, a) && a.hand.Empty?
    ensures var s' := Step(s, Wake(n)); At(s', n, node, a.(draining := true)) && Apart(s, s', n)
  {
  }

  /** The loop's map and channel after an entry. */
  function AfterEntry(a: Applier, e: LogEntry): Applier {
    a.(store := ApplyEntry(a.store, e),
       channel := if e.isConfig then a.channel else a.channel + [EntryMsg(e.index, e.term, ResultOf(e.command))])
  }

  lemma Takes(s: System, n: Id, node: Node, a: Applier)
    requires At(s, n, node, a) && a.draining && a.hand.Empty? && CanApply(node)
    ensures var s' := Step(s, Take(n));
            At(s', n, TakeNext(node), a.(hand := Holding(NextEntry(node)))) && Apart(s, s', n)
  {
    hide Next, NextEntry;
    TakesCluster(s.cluster, n);
    assert !Crashes(s.cluster, Apply(n)) && !Queues(s.cluster, Apply(n));
  }

  lemma TakesCluster(c: Cluster, n: Id)
    requires Live(c, n) && CanApply(c.nodes[n])
    ensures Next(c, Apply(n)) == WithNode(c, n, TakeNext(c.nodes[n]))
  {
  }

  lemma Finishes(s: System, n: Id, node: Node, a: Applier)
    requires At(s, n, node, a) && a.hand.Holding?
    ensures var s' := Step(s, Finish(n));
            At(s', n, node, AfterEntry(a.(hand := Empty), a.hand.entry)) && Apart(s, s', n)
  {
  }

  lemma Applies(s: System, n: Id, node: Node, a: Applier)
    requires At(s, n, node, a) && a.draining && a.hand.Empty? && CanApply(node)
    ensures var s' := Follow(s, [Take(n), Finish(n)]);
            At(s', n, TakeNext(node), AfterEntry(a, NextEntry(node))) && Apart(s, s', n)
  {
    hide Step, Follow, Apart, At, AfterEntry, NextEntry;
    FollowTwo(s, Take(n), Finish(n));
    AtLog(s, n, node, a);
    Takes(s, n, node, a);
    var s1 := Step(s, Take(n));
    Finishes(s1, n, TakeNext(node), a.(hand := Holding(NextEntry(node))));
    assert a.(hand := Holding(NextEntry(node))).(hand := Empty) == a;
    ApartOn(s, s1, Step(s1, Finish(n)), n);
  }

  lemma AtLog(s: System, n: Id, node: Node, a: Applier)
    requires At(s, n, node, a)
    ensures |node.log| > 0
  {
  }

  lemma Rests(s: System, n: Id, node: Node, a: Applier)
    requires At(s, n, node, a) && a.hand.Empty? && !CanApply(node)
    ensures var s' := Step(s, Rest(n)); At(s', n, node, a.(draining := false)) && Apart(s, s', n)
  {
  }

  lemma Drains(s: System, n: Id, node: Node, a: Applier)
    requires At(s, n, node, a) && |a.channel| > 0
    ensures var s' := Step(s, Drain(n)); At(s', n, node, a.(channel := a.channel[1..])) && Apart(s, s', n)
  {
    hide Dispatch;
  }

  lemma Restores(s: System, n: Id, node: Node, a: Applier)
    requires At(s, n, node, a) && !a.draining && a.hand.Empty? && a.queued.Pending?
    ensures var s' := Step(s, Restore(n));
            && At(s', n, node, a.(store := a.queued.data, queued := Nothing, channel := a.channel + [SnapshotMsg]))
            && Apart(s, s', n)
  {
  }

  // ---------------------------------------------------------------- snapshots

  lemma Captures(s: System, n: Id, node: Node, a: Applier)
    requires At(s, n, node, a)
    ensures var s' := Step(s, Capture(n));
            At(s', n, node, a.(captured := Bytes(a.store, node.lastApplied, Settled(a)))) && Apart(s, s', n)
  {
  }

  lemma Compacts(s: System, n: Id, node: Node, a: Applier)
    requires At(s, n, node, a) && a.captured.Bytes?
    ensures var s' := Step(s, Compact(n));
            At(s', n, TakeSnapshot(node, a.captured.data), a.(captured := NoBytes)) && Apart(s, s', n)
  {
    hide CompactTo, Get, Skews, Next;
    CompactsCluster(s.cluster, n, a.captured.data);
    var e := Snapshot(n, a.captured.data);
    assert Step(s, Compact(n)) == WithApplier(Happen(s, e), n, a.(captured := NoBytes));
    assert !Crashes(s.cluster, e) && !Queues(s.cluster, e);
  }

  lemma CompactsCluster(c: Cluster, n: Id, data: Store)
    requires Live(c, n)
    ensures var c' := Next(c, Snapshot(n, data));
            && c'.nodes == c.nodes[n := TakeSnapshot(c.nodes[n], data)] && c'.messages == c.messages
            && c'.history.peers.Keys == c.history.peers.Keys && Usable(TakeSnapshot(c.nodes[n], data))
  {
    hide CompactTo, Get, Skews;
  }

  lemma SendsSnapshot(s: System, n: Id, p: Id, node: Node, a: Applier)
    requires At(s, n, node, a) && node.role == Leader && p in node.peers && |node.log| > 0 && NeedsSnapshot(node, p)
    ensures var s' := Step(s, Core(Send(n, p)));
            At(s', n, node, a) && Apart(s, s', n) && SnapshotRequest(p, BuildSnapshotArgs(node)) in s'.cluster.messages
  {
    hide BuildSnapshotArgs;
  }

  lemma Installing(s: System, n: Id, args: SnapshotArgs, node: Node, a: Applier)
    requires At(s, n, node, a) && SnapshotRequest(n, args) in s.cluster.messages && |node.log| > 0 && Installs(node, args)
    ensures var s' := Step(s, Core(Deliver(SnapshotRequest(n, args))));
            && At(s', n, HandleInstallSnapshot(node, args).0, a.(queued := Pending(args.lastIndex, args.data)))
            && Apart(s, s', n)
  {
    hide Next, HandleInstallSnapshot;
    InstallingCluster(s.cluster, n, args);
    var e := Deliver(SnapshotRequest(n, args));
    assert Queues(s.cluster, e) && !Crashes(s.cluster, e);
  }

  lemma InstallingCluster(c: Cluster, n: Id, args: SnapshotArgs)
    requires Live(c, n) && SnapshotRequest(n, args) in c.messages
    ensures var c' := Next(c, Deliver(SnapshotRequest(n, args)));
            var node := HandleInstallSnapshot(c.nodes[n], args).0;
            && c'.nodes == c.nodes[n := node] && c.messages <= c'.messages
            && c'.history.peers.Keys == c.history.peers.Keys && Usable(node)
  {
    hide CompactTo, HandleInstallSnapshot;
    assert Receiver(SnapshotRequest(n, args)) == n;
    InstallUsable(c.nodes[n], args);
    var (node, reply) := HandleInstallSnapshot(c.nodes[n], args);
    assert Next(c, Deliver(SnapshotRequest(n, args))) == OnSnapshotRequest(c, n, args);
  }

  lemma InstallUsable(node: Node, args: SnapshotArgs)
    requires Usable(node)
    ensures Usable(HandleInstallSnapshot(node, args).0)
  {
    hide CompactTo;
  }

  /** A late rejection moves nextIndex back, whatever was acknowledged since. */
  lemma BackedUp(s: System, n: Id, from: Id, args: AppendArgs, index: nat, node: Node, a: Applier)
    requires At(s, n, node, a) && AppendAnswer(from, args, AppendReply(node.term, false, 0, index)) in s.cluster.messages
    requires node.role == Leader && args.leader == n && args.term == node.term && index >= 1
    ensures var s' := Step(s, Core(Deliver(AppendAnswer(from, args, AppendReply(node.term, false, 0, index)))));
            At(s', n, node.(nextIndex := node.nextIndex[from := index]), a) && Apart(s, s', n)
  {
    hide Next;
    BackedUpCluster(s.cluster, n, from, args, index);
    var e := Deliver(AppendAnswer(from, args, AppendReply(node.term, false, 0, index)));
    assert !Crashes(s.cluster, e) && !Queues(s.cluster, e);
  }

  lemma BackedUpCluster(c: Cluster, n: Id, from: Id, args: AppendArgs, index: nat)
    requires Live(c, n) && AppendAnswer(from, args, AppendReply(c.nodes[n].term, false, 0, index)) in c.messages
    requires c.nodes[n].role == Leader && args.leader == n && args.term == c.nodes[n].term && index >= 1
    ensures var node := c.nodes[n];
            var c' := Next(c, Deliver(AppendAnswer(from, args, AppendReply(node.term, false, 0, index))));
            && c'.nodes == c.nodes[n := node.(nextIndex := node.nextIndex[from := index])] && c'.messages == c.messages
            && c'.history.peers.Keys == c.history.peers.Keys
  {
    hide MaybeCommit, Holders;
    assert Receiver(AppendAnswer(from, args, AppendReply(c.nodes[n].term, false, 0, index))) == n;
  }

  lemma Crashed(s: System, n: Id, node: Node, a: Applier)
    requires At(s, n, node, a) && Usable(node)
    ensures var s' := Step(s, Core(Crash(n)));
            At(s', n, Reboot(node), Started(RestoredStore(node.disk))) && Apart(s, s', n)
  {
    hide CompactTo;
    var c := s.cluster;
    assert Next(c, Crash(n)).nodes == c.nodes[n := Reboot(node)];
    assert Usable(Reboot(node)) && Reboot(node).disk == node.disk;
  }

  // ---------------------------------------------------------------- sessions of usual actions

  /** Nothing is applied in them. */
  lemma {:induction false} NothingApplied(config: Config, calm: bool, actions: seq<Action>, n: Id)
    requires AllUsual(calm, actions) && n in config
    ensures var s := Session(config, actions); n in s.cluster.nodes && s.cluster.nodes[n].lastApplied == 0
  {
    hide Step;
    if |actions| > 0 {
      var before := actions[..|actions| - 1];
      var a := actions[|actions| - 1];
      assert AllUsual(calm, before) by {
        assert forall i :: 0 <= i < |before| ==> before[i] == actions[i];
      }
      NothingApplied(config, calm, before, n);
      assert Usual(calm, a);
      SessionIsRun(config, before);
      StepIsEvent(Session(config, before), a);
      UsualApplies(Session(config, before), calm, a, n);
    }
  }

  lemma UsualApplies(s: System, calm: bool, a: Action, n: Id)
    requires ProbesOnly(s) && Usual(calm, a) && n in s.cluster.nodes
    ensures var c' := Step(s, a).cluster; n in c'.nodes && c'.nodes[n].lastApplied == s.cluster.nodes[n].lastApplied
  {
    hide Step, Next, Succeeded;
    StepIsEvent(s, a);
    if EventOf(s, a) != [] {
      var e := EventOf(s, a)[0];
      assert !Crashes(s.cluster, e) && !Queues(s.cluster, e) && !e.Apply?;
      Replicas.AppliedStays(s.cluster, e, n);
    }
  }

  // ---------------------------------------------------------------- capturing after the first entry

  /** The loop wakes, applies one entry and reports it; the store reads its bytes. */
  function CaptureFirst(n: Id): seq<Action> {
    [Wake(n)] + [Take(n), Finish(n)] + [Drain(n), Capture(n)]
  }

  /** The apply loop then. */
  function Caught(e: LogEntry): Applier {
    var store := ApplyEntry(map[], e);
    Applier(store, true, Empty, Nothing, [], Bytes(store, 1, true))
  }

  lemma CapturesFirst(s: System, n: Id, node: Node)
    requires At(s, n, node, Started(map[])) && node.lastApplied == 0 && node.commitIndex >= 1 && |node.log| > 0
    requires !NextEntry(node).isConfig
    ensures var s' := Follow(s, CaptureFirst(n));
            At(s', n, TakeNext(node), Caught(NextEntry(node))) && Apart(s, s', n)
  {
    hide Step, Follow, At, Apart, NextEntry;
    var e := NextEntry(node);
    var a := Started(map[]).(draining := true);
    Wakes(s, n, node, Started(map[]));
    FollowOne(s, Wake(n));
    var s1 := Step(s, Wake(n));
    Applies(s1, n, node, a);
    var s2 := Follow(s1, [Take(n), Finish(n)]);
    FollowOn(s, [Wake(n)], [Take(n), Finish(n)]);
    ApartOn(s, s1, s2, n);
    var b := AfterEntry(a, e);
    Drains(s2, n, TakeNext(node), b);
    var s3 := Step(s2, Drain(n));
    ApartOn(s, s2, s3, n);
    var d := b.(channel := b.channel[1..]);
    Captures(s3, n, TakeNext(node), d);
    var s4 := Step(s3, Capture(n));
    ApartOn(s, s3, s4, n);
    FollowTwo(s2, Drain(n), Capture(n));
    FollowOn(s, [Wake(n)] + [Take(n), Finish(n)], [Drain(n), Capture(n)]);
    assert d.(captured := Bytes(d.store, 1, Settled(d))) == Caught(e);
  }

  /** A loop that has started nothing yet applies two entries and rests. */
  function ApplyTwo(n: Id): seq<Action> {
    [Wake(n)] + [Take(n), Finish(n)] + [Take(n), Finish(n)] + [Rest(n)]
  }

  lemma AppliesTwo(s: System, n: Id, node: Node)
    requires At(s, n, node, Started(map[])) && node.lastApplied == 0 && node.commitIndex == 2 && |node.log| > 0
    ensures var s' := Follow(s, ApplyTwo(n));
            var a := AfterEntry(AfterEntry(Started(map[]), NextEntry(node)), NextEntry(TakeNext(node)));
            At(s', n, node.(lastApplied := 2), a) && Apart(s, s', n)
  {
    hide Step, Follow, At, Apart, NextEntry;
    var a := Started(map[]).(draining := true);
    Wakes(s, n, node, Started(map[]));
    FollowOne(s, Wake(n));
    var s1 := Step(s, Wake(n));
    Applies(s1, n, node, a);
    var s2 := Follow(s1, [Take(n), Finish(n)]);
    FollowOn(s, [Wake(n)], [Take(n), Finish(n)]);
    ApartOn(s, s1, s2, n);
    var b := AfterEntry(a, NextEntry(node));
    Applies(s2, n, TakeNext(node), b);
    var s3 := Follow(s2, [Take(n), Finish(n)]);
    FollowOn(s, [Wake(n)] + [Take(n), Finish(n)], [Take(n), Finish(n)]);
    ApartOn(s, s2, s3, n);
    var d := AfterEntry(b, NextEntry(TakeNext(node)));
    Rests(s3, n, node.(lastApplied := 2), d);
    FollowOne(s3, Rest(n));
    FollowOn(s, [Wake(n)] + [Take(n), Finish(n)] + [Take(n), Finish(n)], [Rest(n)]);
    ApartOn(s, s3, Step(s3, Rest(n)), n);
    assert d.(draining := false) == AfterEntry(AfterEntry(Started(map[]), NextEntry(node)), NextEntry(TakeNext(node)));
  }
}
