/**
 The whole program: the cluster, and on every node the goroutines around the
 protocol. A node probes its peers before it stands; the apply loop takes an
 entry under the lock and applies it outside, or restores a queued snapshot; the
 store drains the apply channel, answers calls, reads its bytes and hands them
 over for a snapshot in separate steps. Any sequence of actions is a session.
 */
module Program {
  import opened Entries
  import opened Logs
  import opened Machine
  import opened Quorums
  import opened Nodes
  import opened Cluster
  import opened Calls
  import P = Protocol

  // ---------------------------------------------------------------- state

  /** One startPreVote goroutine: what it asked, whom, who granted, and which grants it has counted. */
  datatype Probe = Probe(n: Id, args: VoteArgs, peers: seq<Id>, granted: set<Id>, counted: set<Id>)

  datatype Hand = Empty | Holding(entry: LogEntry)

  /** The newest snapshot installed and not restored yet. */
  datatype Queued = Nothing | Pending(index: nat, data: Store)

  /** Bytes read for a snapshot: when, and whether the apply loop was between entries then. */
  datatype Captured = NoBytes | Bytes(data: Store, index: nat, settled: bool)

  /** The apply loop of a node and the state machine it drives. */
  datatype Applier = Applier(
    store: Store,
    draining: bool,             // inside the loop over committed entries
    hand: Hand,
    queued: Queued,
    channel: seq<ApplyMsg>,
    captured: Captured)

  datatype Call = Call(n: Id, command: Command, index: nat, term: nat)

  datatype System = System(
    cluster: Cluster,
    probes: seq<Probe>,
    appliers: map<Id, Applier>,
    tables: map<Id, Table>,
    calls: seq<Call>)           // accepted calls; a ticket is a position here

  function Started(store: Store): Applier {
    Applier(store, false, Empty, Nothing, [], NoBytes)
  }

  function ApplierOf(s: System, n: Id): Applier {
    if n in s.appliers then s.appliers[n] else Started(map[])
  }

  function TableOf(s: System, n: Id): Table {
    if n in s.tables then s.tables[n] else NO_CALLS
  }

  /** Between entries and with nothing to restore. */
  predicate Settled(a: Applier) {
    a.hand.Empty? && a.queued.Nothing?
  }

  // ---------------------------------------------------------------- actions

  datatype Action =
    | Core(e: Event)                                   // any event of the cluster that no goroutine below stands for
    | Ask(n: Id)                                       // startPreVote reads its arguments, whatever the role is by then
    | Answer(probe: nat, p: Id, heardLeader: bool)     // a peer handles the probe
    | Count(probe: nat, p: Id)                         // its reply arrives
    | Proceed(probe: nat)                              // the probe succeeded: stand, if still allowed
    | Wake(n: Id)                                      // the apply loop enters the loop over entries
    | Take(n: Id)                                      // it raises lastApplied and copies the entry
    | Finish(n: Id)                                    // it applies the entry and reports it
    | Rest(n: Id)                                      // nothing committed is left
    | Restore(n: Id)                                   // it restores the queued snapshot
    | Drain(n: Id)                                     // the store takes the next message
    | Capture(n: Id)                                   // the store reads its bytes
    | Compact(n: Id)                                   // and hands them to TakeSnapshot
    | CrashCompact(n: Id)                              // crash in there, between the two files
    | Submit(n: Id, op: Op)                            // the first half of a call
    | Wait(ticket: nat)                                // registering, as the second
    | Expire(ticket: nat)

  predicate Succeeded(probe: Probe) {
    1 + |probe.counted| >= MajoritySize(|probe.peers| + 1)
  }

  ghost function WithApplier(s: System, n: Id, a: Applier): System {
    s.(appliers := s.appliers[n := a])
  }

  /** The event ends the process of a node. */
  ghost predicate Crashes(c: Cluster, e: Event) {
    match e
    case Crash(n) => Live(c, n)
    case CrashFollowing(m) => m in c.messages && Live(c, Receiver(m)) && TermOf(m) > c.nodes[Receiver(m)].term
    case CrashSaving(n, _) => Live(c, n)
    case CrashInstalling(m) => m in c.messages && m.SnapshotRequest? && Live(c, m.to)
    case _ => false
  }

  function Victim(e: Event): Id
    requires e.Crash? || e.CrashFollowing? || e.CrashSaving? || e.CrashInstalling?
  {
    match e
    case Crash(n) => n
    case CrashFollowing(m) => Receiver(m)
    case CrashSaving(n, _) => n
    case CrashInstalling(m) => Receiver(m)
  }

  /** The event hands a snapshot to the apply loop of its receiver. */
  ghost predicate Queues(c: Cluster, e: Event) {
    && e.Deliver? && e.m in c.messages && e.m.SnapshotRequest? && Live(c, e.m.to)
    && Installs(c.nodes[e.m.to], e.m.snapshot)
  }

  /** A cluster event and what it means for the goroutines of the node it concerns. */
  ghost function Happen(s: System, e: Event): System {
    var c := s.cluster;
    var c' := Next(c, e);
    if Crashes(c, e) then
      var n := Victim(e);
      var store := if n in c'.nodes then RestoredStore(c'.nodes[n].disk) else map[];
      s.(cluster := c', appliers := s.appliers[n := Started(store)], tables := s.tables[n := TableOf(s, n).(pending := map[])])
    else if Queues(c, e) then
      var n := e.m.to;
      WithApplier(s, n, ApplierOf(s, n).(queued := Pending(e.m.snapshot.lastIndex, e.m.snapshot.data))).(cluster := c')
    else s.(cluster := c')
  }

  /** Events that only the goroutines themselves bring about. */
  predicate Reserved(e: Event) {
    e.Stand? || e.Apply? || e.Snapshot? || e.CrashSaving?
  }

  ghost predicate MayTake(s: System, n: Id) {
    var a := ApplierOf(s, n);
    a.draining && a.hand.Empty? && Live(s.cluster, n) && CanApply(s.cluster.nodes[n])
  }

  ghost function OnProbe(s: System, a: Action): System
    requires a.Ask? || a.Answer? || a.Count?
  {
    var c := s.cluster;
    match a
    case Ask(n) =>
      if Live(c, n) && |c.nodes[n].peers| > 0
      then s.(probes := s.probes + [Probe(n, BuildPreVoteArgs(c.nodes[n]), c.nodes[n].peers, {}, {})]) else s
    case Answer(i, p, heardLeader) =>
      if i < |s.probes| && p in s.probes[i].peers && p in c.nodes && |c.nodes[p].log| > 0 then
        var (node, reply) := HandleRequestVote(c.nodes[p], s.probes[i].args, heardLeader);
        s.(cluster := c.(nodes := c.nodes[p := node]),
           probes := if reply.granted then s.probes[i := s.probes[i].(granted := s.probes[i].granted + {p})] else s.probes)
      else s
    case Count(i, p) =>
      if i < |s.probes| && p in s.probes[i].granted
      then s.(probes := s.probes[i := s.probes[i].(counted := s.probes[i].counted + {p})]) else s
  }

  ghost function OnApplier(s: System, act: Action): System
    requires act.Wake? || act.Take? || act.Finish? || act.Rest? || act.Restore? || act.Drain? || act.Capture?
  {
    var n := act.n;
    var a := ApplierOf(s, n);
    match act
    case Wake(_) => if a.hand.Empty? then WithApplier(s, n, a.(draining := true)) else s
    case Take(_) =>
      if MayTake(s, n)
      then WithApplier(Happen(s, Apply(n)), n, a.(hand := Holding(NextEntry(s.cluster.nodes[n])))) else s
    case Finish(_) =>
      if a.hand.Holding? then
        var e := a.hand.entry;
        WithApplier(s, n, a.(store := ApplyEntry(a.store, e), hand := Empty, channel :=
          if e.isConfig then a.channel else a.channel + [EntryMsg(e.index, e.term, ResultOf(e.command))]))
      else s
    case Rest(_) =>
      if a.hand.Empty? && n in s.cluster.nodes && !CanApply(s.cluster.nodes[n])
      then WithApplier(s, n, a.(draining := false)) else s
    case Restore(_) =>
      if !a.draining && a.hand.Empty? && a.queued.Pending?
      then WithApplier(s, n, a.(store := a.queued.data, queued := Nothing, channel := a.channel + [SnapshotMsg])) else s
    case Drain(_) =>
      if |a.channel| > 0 then
        WithApplier(s, n, a.(channel := a.channel[1..]))
        .(tables := s.tables[n := Dispatch(TableOf(s, n), a.channel[0])])
      else s
    case Capture(_) =>
      if n in s.cluster.nodes
      then WithApplier(s, n, a.(captured := Bytes(a.store, s.cluster.nodes[n].lastApplied, Settled(a)))) else s
  }

  ghost function OnSnapshotting(s: System, act: Action): System
    requires act.Compact? || act.CrashCompact?
  {
    var n := act.n;
    var a := ApplierOf(s, n);
    if !a.captured.Bytes? then s
    else if act.Compact? then WithApplier(Happen(s, Snapshot(n, a.captured.data)), n, a.(captured := NoBytes))
    else Happen(s, CrashSaving(n, a.captured.data))
  }

  ghost function OnCall(s: System, a: Action): System
    requires a.Submit? || a.Wait? || a.Expire?
  {
    match a
    case Submit(n, op) =>
      var c := s.cluster;
      var s' := Happen(s, ClientSubmit(n, Encoded(op)));
      if Live(c, n) && c.nodes[n].role == Leader then
        var (_, index, term) := Nodes.Submit(c.nodes[n], Encoded(op));
        s'.(calls := s.calls + [Call(n, Encoded(op), index, term)])
      else s'
    case Wait(ticket) =>
      if ticket < |s.calls| then
        var call := s.calls[ticket];
        s.(tables := s.tables[call.n := Enter(TableOf(s, call.n), call.index, call.term, ticket)])
      else s
    case Expire(ticket) =>
      if ticket < |s.calls| then
        var call := s.calls[ticket];
        s.(tables := s.tables[call.n := GiveUp(TableOf(s, call.n), call.index, ticket)])
      else s
  }

  /** One action. An action that cannot happen leaves the system as it is. */
  ghost function Step(s: System, a: Action): System {
    match a
    case Core(e) => if Reserved(e) then s else Happen(s, e)
    case Ask(_) => OnProbe(s, a)
    case Answer(_, _, _) => OnProbe(s, a)
    case Count(_, _) => OnProbe(s, a)
    case Proceed(i) => if i < |s.probes| && Succeeded(s.probes[i]) then Happen(s, Stand(s.probes[i].n)) else s
    case Compact(_) => OnSnapshotting(s, a)
    case CrashCompact(_) => OnSnapshotting(s, a)
    case Submit(_, _) => OnCall(s, a)
    case Wait(_) => OnCall(s, a)
    case Expire(_) => OnCall(s, a)
    case _ => OnApplier(s, a)
  }

  ghost function Begin(config: Config): System {
    System(Init(config), [], map[], map[], [])
  }

  ghost function Session(config: Config, actions: seq<Action>): System {
    if |actions| == 0 then Begin(config)
    else Step(Session(config, actions[..|actions| - 1]), actions[|actions| - 1])
  }

  // ---------------------------------------------------------------- crashes

  /** A node that has just come back: it follows, names no leader and has applied what its snapshot covers. */
  ghost predicate Restarted(x: Node) {
    x.role == Follower && x.leaderId == "" && x.lastApplied == x.disk.snapshot.index
  }

  lemma RebootOutcome(x: Node)
    requires Usable(x)
    ensures Restarted(Reboot(x))
  {
    hide CompactTo;
  }

  lemma RestartOutcome(c: Cluster, x: Id, n: Id)
    requires Live(c, x) && n in c.nodes
    ensures n in OnCrash(c, x).nodes
    ensures if x == n then Restarted(OnCrash(c, x).nodes[n]) else OnCrash(c, x).nodes[n] == c.nodes[n]
  {
    hide Reboot, P.Restart, Restarted;
    RebootOutcome(c.nodes[x]);
  }

  lemma FollowingOutcome(c: Cluster, x: Id, term: nat, n: Id)
    requires Live(c, x) && n in c.nodes
    ensures var c' := OnCrashFollowing(c, x, term);
            n in c'.nodes && if x == n then Restarted(c'.nodes[n]) else c'.nodes[n] == c.nodes[n]
  {
    hide OnCrash, Restarted;
    RestartOutcome(Record(WithNode(c, x, BecomeFollower(c.nodes[x], term)), P.Follow(c.history, x, term)), x, n);
  }

  lemma SavingOutcome(c: Cluster, x: Id, data: Store, n: Id)
    requires Live(c, x) && n in c.nodes
    ensures var c' := OnCrashSaving(c, x, data);
            n in c'.nodes && if x == n then Restarted(c'.nodes[n]) else c'.nodes[n] == c.nodes[n]
  {
    hide OnCrash, CompactTo, Restarted;
    var node := c.nodes[x];
    var saved :=
      if node.lastApplied == 0 || node.lastApplied <= SnapshotIndex(node.log) then node
      else SaveSnapshot(node, node.lastApplied, Get(node.log, node.lastApplied).term, data);
    var h := P.Compact(c.history, x, SnapshotIndex(TakeSnapshot(node, data).log));
    RestartOutcome(Record(WithNode(c, x, saved), h), x, n);
  }

  lemma InstallingOutcome(c: Cluster, x: Id, args: SnapshotArgs, n: Id)
    requires Live(c, x) && n in c.nodes
    ensures var c' := OnCrashInstalling(c, x, args);
            n in c'.nodes && if x == n then Restarted(c'.nodes[n]) else c'.nodes[n] == c.nodes[n]
  {
    hide OnCrash, Restarted;
    var node := if args.term > c.nodes[x].term then BecomeFollower(c.nodes[x], args.term) else c.nodes[x];
    var h := Followed(c.history, x, args.term);
    var saved := SaveSnapshot(node, args.lastIndex, args.lastTerm, args.data);
    RestartOutcome(Record(WithNode(c, x, node), h), x, n);
    RestartOutcome(Record(WithNode(c, x, saved), Installed(h, x, args)), x, n);
  }

  /** A crash restarts its victim and leaves every other node as it was. */
  lemma CrashOutcome(c: Cluster, e: Event, n: Id)
    requires n in c.nodes && (e.Crash? || e.CrashFollowing? || e.CrashSaving? || e.CrashInstalling?)
    ensures n in Next(c, e).nodes
    ensures if Crashes(c, e) && Victim(e) == n then Restarted(Next(c, e).nodes[n]) else Next(c, e).nodes[n] == c.nodes[n]
  {
    hide OnCrash, OnCrashFollowing, OnCrashSaving, OnCrashInstalling, Restarted;
    match e
    case Crash(x) =>
      if Live(c, x) { RestartOutcome(c, x, n); }
    case CrashFollowing(m) =>
      if Live(c, Receiver(m)) { FollowingOutcome(c, Receiver(m), TermOf(m), n); }
    case CrashSaving(x, data) =>
      if Live(c, x) { SavingOutcome(c, x, data, n); }
    case CrashInstalling(m) =>
      if m.SnapshotRequest? && Live(c, m.to) { InstallingOutcome(c, m.to, m.snapshot, n); }
  }

  // ---------------------------------------------------------------- sessions as runs

  /** The cluster events an action amounts to: one or none. */
  ghost function EventOf(s: System, a: Action): seq<Event> {
    match a
    case Core(e) => if Reserved(e) then [] else [e]
    case Proceed(i) => if i < |s.probes| && Succeeded(s.probes[i]) then [Stand(s.probes[i].n)] else []
    case Take(n) => if MayTake(s, n) then [Apply(n)] else []
    case Compact(n) => if ApplierOf(s, n).captured.Bytes? then [Snapshot(n, ApplierOf(s, n).captured.data)] else []
    case CrashCompact(n) => if ApplierOf(s, n).captured.Bytes? then [CrashSaving(n, ApplierOf(s, n).captured.data)] else []
    case Submit(n, op) => [ClientSubmit(n, Encoded(op))]
    case _ => []
  }

  ghost function Events(config: Config, actions: seq<Action>): seq<Event> {
    if |actions| == 0 then []
    else
      var before := actions[..|actions| - 1];
      Events(config, before) + EventOf(Session(config, before), actions[|actions| - 1])
  }

  /** Every probe under way is a pre-vote request. */
  ghost predicate ProbesOnly(s: System) {
    forall i :: 0 <= i < |s.probes| ==> s.probes[i].args.isPreVote
  }

  lemma HappenCluster(s: System, e: Event)
    ensures Happen(s, e).cluster == Next(s.cluster, e) && Happen(s, e).probes == s.probes && Happen(s, e).calls == s.calls
  {
    hide Next;
  }

  /** Answering a probe changes nothing but the probe. */
  lemma ProbeTransparent(s: System, a: Action)
    requires ProbesOnly(s) && (a.Ask? || a.Answer? || a.Count?)
    ensures ProbesOnly(OnProbe(s, a)) && OnProbe(s, a) == s.(probes := OnProbe(s, a).probes)
  {
    if a.Answer? && a.probe < |s.probes| && a.p in s.cluster.nodes {
      var c := s.cluster;
      assert c.nodes[a.p := c.nodes[a.p]] == c.nodes;
    }
  }

  lemma OthersKeepProbes(s: System, a: Action)
    requires !a.Ask? && !a.Answer? && !a.Count?
    ensures Step(s, a).probes == s.probes
  {
    hide Next, Happen;
    forall e
      ensures Happen(s, e).probes == s.probes
    {
      HappenCluster(s, e);
    }
  }

  /** An action moves the cluster by its event, or not at all. */
  lemma StepIsEvent(s: System, a: Action)
    requires ProbesOnly(s)
    ensures ProbesOnly(Step(s, a))
    ensures |EventOf(s, a)| <= 1
    ensures Step(s, a).cluster == if EventOf(s, a) == [] then s.cluster else Next(s.cluster, EventOf(s, a)[0])
  {
    hide Next, Happen, HandleRequestVote;
    forall e
      ensures Happen(s, e).cluster == Next(s.cluster, e) && Happen(s, e).probes == s.probes
    {
      HappenCluster(s, e);
    }
    if a.Ask? || a.Answer? || a.Count? {
      ProbeTransparent(s, a);
    }
  }

  /** Every session is a run of the cluster: same nodes, same messages. */
  lemma {:induction false} SessionIsRun(config: Config, actions: seq<Action>)
    ensures Session(config, actions).cluster == Run(config, Events(config, actions))
    ensures ProbesOnly(Session(config, actions))
  {
    hide Next, Step;
    if |actions| > 0 {
      var before := actions[..|actions| - 1];
      var a := actions[|actions| - 1];
      var s := Session(config, before);
      SessionIsRun(config, before);
      StepIsEvent(s, a);
      var events, more := Events(config, before), EventOf(s, a);
      if |more| == 0 {
        assert events + more == events;
      } else {
        assert (events + more)[..|events + more| - 1] == events;
      }
    }
  }

  /** The events of a longer session continue those of a shorter one. */
  lemma {:induction false} EventsContinue(config: Config, actions: seq<Action>, more: seq<Action>)
    ensures Events(config, actions) <= Events(config, actions + more)
  {
    hide Step;
    if |more| == 0 {
      assert actions + more == actions;
    } else {
      EventsContinue(config, actions, more[..|more| - 1]);
      assert (actions + more)[..|actions + more| - 1] == actions + more[..|more| - 1];
    }
  }
}
