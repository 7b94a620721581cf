/**
 Clients of the key-value store. A call submits its command, registers the index
 it was given, and waits; the store routes what the apply loop reports by index
 and term. The theorem: an answered call's own command was committed and applied
 where Submit said it would be.
 */
module Clients {
  import opened Entries
  import opened Machine
  import opened Nodes
  import opened Cluster
  import opened ClusterInv
  import opened Runs
  import opened Safety
  import opened Calls
  import opened Program
  import P = Protocol
  import Replicas
  import Submissions

  // ---------------------------------------------------------------- what is known at every moment

  /** At some moment of the run the node had applied this entry, committed. */
  ghost predicate AppliedAt(config: Config, events: seq<Event>, k: nat, n: Id, entry: LogEntry) {
    && k <= |events|
    && var c := Run(config, events[..k]);
       && n in c.nodes
       && 1 <= entry.index <= c.nodes[n].lastApplied <= c.nodes[n].commitIndex
       && entry.index <= |WholeLog(c, n)|
       && WholeLog(c, n)[entry.index - 1] == entry
  }

  ghost predicate WasTaken(config: Config, events: seq<Event>, n: Id, entry: LogEntry) {
    exists k: nat :: AppliedAt(config, events, k, n, entry)
  }

  ghost predicate WasApplied(config: Config, events: seq<Event>, n: Id, index: nat, term: nat, result: ApplyResult) {
    exists entry ::
      WasTaken(config, events, n, entry) && entry.index == index && entry.term == term && result == ResultOf(entry.command)
  }

  /** The leader of the term put the caller's command there. */
  ghost predicate Placed(ll: P.LeaderLogs, call: Call) {
    && call.term in ll && 1 <= call.index <= |ll[call.term]|
    && ll[call.term][call.index - 1] == CommandEntry(call.term, call.index, call.command)
  }

  ghost predicate CallsOk(ll: P.LeaderLogs, calls: seq<Call>) {
    forall i :: 0 <= i < |calls| ==> Placed(ll, calls[i])
  }

  ghost predicate ApplierKnown(config: Config, events: seq<Event>, n: Id, a: Applier) {
    && (a.hand.Holding? ==> WasTaken(config, events, n, a.hand.entry))
    && (forall i :: 0 <= i < |a.channel| && a.channel[i].EntryMsg? ==>
          WasApplied(config, events, n, a.channel[i].index, a.channel[i].term, a.channel[i].result))
  }

  ghost predicate TableOk(config: Config, events: seq<Event>, n: Id, calls: seq<Call>, t: Table) {
    && (forall i :: i in t.pending ==>
          var w := t.pending[i];
          w.ticket < |calls| && calls[w.ticket].n == n && calls[w.ticket].index == i && calls[w.ticket].term == w.term)
    && (forall k :: k in t.answers && t.answers[k].Answer? ==>
          k < |calls| && calls[k].n == n && WasApplied(config, events, n, calls[k].index, calls[k].term, t.answers[k].result))
  }

  ghost predicate SessionOk(config: Config, events: seq<Event>, s: System) {
    && CallsOk(s.cluster.history.leaderLog, s.calls)
    && (forall n :: n in s.appliers ==> ApplierKnown(config, events, n, s.appliers[n]))
    && (forall n :: n in s.tables ==> TableOk(config, events, n, s.calls, s.tables[n]))
  }

  // ---------------------------------------------------------------- it stays known

  lemma WasTakenLater(config: Config, events: seq<Event>, more: seq<Event>, n: Id, entry: LogEntry)
    requires WasTaken(config, events, n, entry)
    ensures WasTaken(config, events + more, n, entry)
  {
    hide Run;
    var k: nat :| AppliedAt(config, events, k, n, entry);
    assert (events + more)[..k] == events[..k];
    assert AppliedAt(config, events + more, k, n, entry);
  }

  lemma WasAppliedLater(config: Config, events: seq<Event>, more: seq<Event>, n: Id, index: nat, term: nat, result: ApplyResult)
    requires WasApplied(config, events, n, index, term, result)
    ensures WasApplied(config, events + more, n, index, term, result)
  {
    hide WasTaken;
    var entry :| WasTaken(config, events, n, entry) && entry.index == index && entry.term == term && result == ResultOf(entry.command);
    WasTakenLater(config, events, more, n, entry);
  }

  lemma CallsLater(h: P.History, h': P.History, calls: seq<Call>)
    requires Grows(h, h') && CallsOk(h.leaderLog, calls)
    ensures CallsOk(h'.leaderLog, calls)
  {
    hide Grows;
    forall i | 0 <= i < |calls|
      ensures Placed(h'.leaderLog, calls[i])
    {
      assert Placed(h.leaderLog, calls[i]);
      LeaderLogsGrow(h, h', calls[i].term, calls[i].index);
    }
  }

  /** Known facts stay known as the run goes on. */
  lemma LaterOk(config: Config, events: seq<Event>, more: seq<Event>, s: System, c: Cluster)
    requires SessionOk(config, events, s) && Grows(s.cluster.history, c.history)
    ensures SessionOk(config, events + more, s.(cluster := c))
  {
    hide WasApplied, WasTaken, Grows;
    CallsLater(s.cluster.history, c.history, s.calls);
    forall n, entry | WasTaken(config, events, n, entry)
      ensures WasTaken(config, events + more, n, entry)
    {
      WasTakenLater(config, events, more, n, entry);
    }
    forall n, index, term, result | WasApplied(config, events, n, index, term, result)
      ensures WasApplied(config, events + more, n, index, term, result)
    {
      WasAppliedLater(config, events, more, n, index, term, result);
    }
  }

  lemma OneApplier(config: Config, events: seq<Event>, s: System, n: Id, a: Applier)
    requires SessionOk(config, events, s) && ApplierKnown(config, events, n, a)
    ensures SessionOk(config, events, s.(appliers := s.appliers[n := a]))
  {
    hide CallsOk, TableOk, ApplierKnown;
  }

  lemma OneTable(config: Config, events: seq<Event>, s: System, n: Id, t: Table)
    requires SessionOk(config, events, s) && TableOk(config, events, n, s.calls, t)
    ensures SessionOk(config, events, s.(tables := s.tables[n := t]))
  {
    hide CallsOk, TableOk, ApplierKnown;
  }

  lemma Known(config: Config, events: seq<Event>, s: System, n: Id)
    requires SessionOk(config, events, s)
    ensures ApplierKnown(config, events, n, ApplierOf(s, n)) && TableOk(config, events, n, s.calls, TableOf(s, n))
  {
    hide WasApplied, WasTaken, CallsOk;
  }

  // ---------------------------------------------------------------- events

  /** An event keeps what is known; a restarted process knows less. */
  lemma HappenOk(config: Config, events: seq<Event>, s: System, e: Event)
    requires SessionOk(config, events, s) && Grows(s.cluster.history, Next(s.cluster, e).history)
    ensures SessionOk(config, events + [e], Happen(s, e))
  {
    hide Next, SessionOk, Grows, ApplierKnown, TableOk;
    var c := s.cluster;
    LaterOk(config, events, [e], s, Next(c, e));
    var mid := s.(cluster := Next(c, e));
    if Crashes(c, e) {
      var n := Victim(e);
      var store := if n in mid.cluster.nodes then RestoredStore(mid.cluster.nodes[n].disk) else map[];
      StartedKnown(config, events + [e], n, store);
      OneApplier(config, events + [e], mid, n, Started(store));
      Known(config, events + [e], mid, n);
      ForgottenOk(config, events + [e], n, s.calls, TableOf(s, n));
      OneTable(config, events + [e], mid.(appliers := s.appliers[n := Started(store)]), n, TableOf(s, n).(pending := map[]));
    } else if Queues(c, e) {
      var n := e.m.to;
      Known(config, events + [e], mid, n);
      var a := ApplierOf(s, n).(queued := Pending(e.m.snapshot.lastIndex, e.m.snapshot.data));
      QueueKnown(config, events + [e], n, ApplierOf(s, n), a);
      OneApplier(config, events + [e], mid, n, a);
    }
  }

  lemma StartedKnown(config: Config, events: seq<Event>, n: Id, store: Store)
    ensures ApplierKnown(config, events, n, Started(store))
  {
  }

  lemma ForgottenOk(config: Config, events: seq<Event>, n: Id, calls: seq<Call>, t: Table)
    requires TableOk(config, events, n, calls, t)
    ensures TableOk(config, events, n, calls, t.(pending := map[]))
  {
    hide WasApplied;
  }

  /** Only what is in hand and on the channel counts. */
  lemma QueueKnown(config: Config, events: seq<Event>, n: Id, a: Applier, a': Applier)
    requires ApplierKnown(config, events, n, a) && a'.hand == a.hand && a'.channel == a.channel
    ensures ApplierKnown(config, events, n, a')
  {
    hide WasApplied, WasTaken;
  }

  /** What the apply loop takes was committed on its node, and is applied from then on. */
  lemma TakenEntry(config: Config, events: seq<Event>, n: Id)
    requires ValidConfig(config) && VotesKept(config, events)
    requires Live(Run(config, events), n) && CanApply(Run(config, events).nodes[n])
    ensures WasTaken(config, events + [Apply(n)], n, NextEntry(Run(config, events).nodes[n]))
  {
    hide Good, ValidConfig, Runs.VotesKept, Run, Next, NextEntry, P.PeerLogOk, P.RoleOk, Mirrors, Replayed;
    RunGood(config, events);
    var c := Run(config, events);
    Replicas.NextToApply(c, n);
    Replicas.TakeEvent(c, n);
    NodeFacts(c, n);
    var all := events + [Apply(n)];
    assert all[..|all|] == all;
    RunNext(config, events, Apply(n));
    assert AppliedAt(config, all, |all|, n, NextEntry(c.nodes[n]));
  }

  lemma TakeOk(config: Config, events: seq<Event>, s: System, n: Id)
    requires ValidConfig(config) && VotesKept(config, events + [Apply(n)]) && s.cluster == Run(config, events)
    requires SessionOk(config, events, s) && MayTake(s, n) && Grows(s.cluster.history, Next(s.cluster, Apply(n)).history)
    ensures SessionOk(config, events + [Apply(n)], Step(s, Take(n)))
  {
    hide Next, Run, SessionOk, Grows, ApplierKnown, Happen, NextEntry, Runs.VotesKept, ValidConfig;
    KeptEarlier(config, events, [Apply(n)]);
    HappenOk(config, events, s, Apply(n));
    TakenEntry(config, events, n);
    var s1 := Happen(s, Apply(n));
    Known(config, events + [Apply(n)], s1, n);
    AppliersUntouched(s, Apply(n));
    HandKnown(config, events + [Apply(n)], n, ApplierOf(s, n), NextEntry(s.cluster.nodes[n]));
    OneApplier(config, events + [Apply(n)], s1, n, ApplierOf(s, n).(hand := Holding(NextEntry(s.cluster.nodes[n]))));
  }

  lemma AppliersUntouched(s: System, e: Event)
    requires e.Apply? || e.Snapshot? || e.ClientSubmit? || e.Stand?
    ensures Happen(s, e).appliers == s.appliers && Happen(s, e).tables == s.tables
  {
    hide Next;
  }

  lemma HandKnown(config: Config, events: seq<Event>, n: Id, a: Applier, entry: LogEntry)
    requires ApplierKnown(config, events, n, a) && WasTaken(config, events, n, entry)
    ensures ApplierKnown(config, events, n, a.(hand := Holding(entry)))
  {
    hide WasTaken, WasApplied;
  }

  // ---------------------------------------------------------------- the apply loop and the store

  lemma LocalOk(config: Config, events: seq<Event>, s: System, act: Action)
    requires SessionOk(config, events, s)
    requires act.Wake? || act.Finish? || act.Rest? || act.Restore? || act.Capture?
    ensures SessionOk(config, events, Step(s, act))
  {
    hide SessionOk, ApplierKnown, ResultOf, ApplyEntry;
    var n := act.n;
    var a, a' := ApplierOf(s, n), ApplierOf(Step(s, act), n);
    Known(config, events, s, n);
    if Step(s, act) != s {
      assert Step(s, act) == s.(appliers := s.appliers[n := a']);
      if act.Finish? {
        FinishKnown(config, events, n, a, a');
      } else if act.Restore? {
        RestoreKnown(config, events, n, a, a');
      } else {
        QueueKnown(config, events, n, a, a');
      }
      OneApplier(config, events, s, n, a');
    }
  }

  lemma FinishKnown(config: Config, events: seq<Event>, n: Id, a: Applier, a': Applier)
    requires ApplierKnown(config, events, n, a) && a.hand.Holding? && a'.hand.Empty?
    requires var e := a.hand.entry;
             a'.channel == if e.isConfig then a.channel else a.channel + [EntryMsg(e.index, e.term, ResultOf(e.command))]
    ensures ApplierKnown(config, events, n, a')
  {
    hide WasTaken;
    var e := a.hand.entry;
    assert WasApplied(config, events, n, e.index, e.term, ResultOf(e.command));
    hide WasApplied;
  }

  lemma RestoreKnown(config: Config, events: seq<Event>, n: Id, a: Applier, a': Applier)
    requires ApplierKnown(config, events, n, a) && a'.hand == a.hand && a'.channel == a.channel + [SnapshotMsg]
    ensures ApplierKnown(config, events, n, a')
  {
    hide WasTaken, WasApplied;
  }

  lemma DrainOk(config: Config, events: seq<Event>, s: System, n: Id)
    requires SessionOk(config, events, s)
    ensures SessionOk(config, events, Step(s, Drain(n)))
  {
    hide SessionOk, ApplierKnown, TableOk, Dispatch;
    var a := ApplierOf(s, n);
    Known(config, events, s, n);
    if |a.channel| > 0 {
      var a' := a.(channel := a.channel[1..]);
      DrainedKnown(config, events, n, s.calls, a, TableOf(s, n));
      OneApplier(config, events, s, n, a');
      OneTable(config, events, s.(appliers := s.appliers[n := a']), n, Dispatch(TableOf(s, n), a.channel[0]));
    }
  }

  lemma DrainedKnown(config: Config, events: seq<Event>, n: Id, calls: seq<Call>, a: Applier, t: Table)
    requires ApplierKnown(config, events, n, a) && TableOk(config, events, n, calls, t) && |a.channel| > 0
    ensures ApplierKnown(config, events, n, a.(channel := a.channel[1..]))
    ensures TableOk(config, events, n, calls, Dispatch(t, a.channel[0]))
  {
    hide WasTaken, WasApplied, Tickets;
  }

  // ---------------------------------------------------------------- calls

  lemma SubmitOk(config: Config, events: seq<Event>, s: System, n: Id, op: Op)
    requires ValidConfig(config) && VotesKept(config, events + [ClientSubmit(n, Encoded(op))]) && s.cluster == Run(config, events)
    requires SessionOk(config, events, s) && Grows(s.cluster.history, Next(s.cluster, ClientSubmit(n, Encoded(op))).history)
    ensures SessionOk(config, events + [ClientSubmit(n, Encoded(op))], Step(s, Action.Submit(n, op)))
  {
    hide Good, ValidConfig, Runs.VotesKept, SessionOk, Next, Run, Nodes.Submit, Grows, Happen;
    var e := ClientSubmit(n, Encoded(op));
    HappenOk(config, events, s, e);
    HappenCluster(s, e);
    RunNext(config, events, e);
    var c := s.cluster;
    if Live(c, n) && c.nodes[n].role == Leader {
      var (_, index, term) := Nodes.Submit(c.nodes[n], Encoded(op));
      Submissions.RecordedBySubmit(config, events, n, Encoded(op), index, term);
      CallAdded(config, events + [e], Happen(s, e), Call(n, Encoded(op), index, term));
    }
  }

  lemma CallAdded(config: Config, events: seq<Event>, s: System, call: Call)
    requires SessionOk(config, events, s) && Placed(s.cluster.history.leaderLog, call)
    ensures SessionOk(config, events, s.(calls := s.calls + [call]))
  {
    hide ApplierKnown, WasApplied, Placed;
  }

  lemma WaitOk(config: Config, events: seq<Event>, s: System, ticket: nat)
    requires SessionOk(config, events, s)
    ensures SessionOk(config, events, Step(s, Wait(ticket))) && SessionOk(config, events, Step(s, Expire(ticket)))
  {
    hide SessionOk, TableOk, Enter, GiveUp;
    if ticket < |s.calls| {
      var call := s.calls[ticket];
      Known(config, events, s, call.n);
      EnteredOk(config, events, s.calls, TableOf(s, call.n), ticket);
      OneTable(config, events, s, call.n, Enter(TableOf(s, call.n), call.index, call.term, ticket));
      OneTable(config, events, s, call.n, GiveUp(TableOf(s, call.n), call.index, ticket));
    }
  }

  lemma EnteredOk(config: Config, events: seq<Event>, calls: seq<Call>, t: Table, ticket: nat)
    requires ticket < |calls| && TableOk(config, events, calls[ticket].n, calls, t)
    ensures TableOk(config, events, calls[ticket].n, calls, Enter(t, calls[ticket].index, calls[ticket].term, ticket))
    ensures TableOk(config, events, calls[ticket].n, calls, GiveUp(t, calls[ticket].index, ticket))
  {
    hide WasApplied;
  }

  // ---------------------------------------------------------------- whole sessions

  lemma StepOk(config: Config, events: seq<Event>, s: System, a: Action)
    requires ValidConfig(config) && VotesKept(config, events + EventOf(s, a)) && s.cluster == Run(config, events)
    requires SessionOk(config, events, s) && ProbesOnly(s)
    requires EventOf(s, a) != [] ==> Grows(s.cluster.history, Next(s.cluster, EventOf(s, a)[0]).history)
    ensures SessionOk(config, events + EventOf(s, a), Step(s, a))
  {
    hide SessionOk, Happen, Next, Run, Runs.VotesKept, ValidConfig, Grows;
    assert events + [] == events;
    match a
    case Core(e) =>
      if !Reserved(e) { HappenOk(config, events, s, e); }
    case Proceed(i) =>
      if EventOf(s, a) != [] { HappenOk(config, events, s, EventOf(s, a)[0]); }
    case Take(n) =>
      if MayTake(s, n) { TakeOk(config, events, s, n); }
    case Submit(n, op) => SubmitOk(config, events, s, n, op);
    case Wait(ticket) => WaitOk(config, events, s, ticket);
    case Expire(ticket) => WaitOk(config, events, s, ticket);
    case Drain(n) => DrainOk(config, events, s, n);
    case Compact(n) => CompactOk(config, events, s, a);
    case CrashCompact(n) => CompactOk(config, events, s, a);
    case Ask(_) => ProbeOk(config, events, s, a);
    case Answer(_, _, _) => ProbeOk(config, events, s, a);
    case Count(_, _) => ProbeOk(config, events, s, a);
    case _ => LocalOk(config, events, s, a);
  }

  lemma ProbeOk(config: Config, events: seq<Event>, s: System, a: Action)
    requires SessionOk(config, events, s) && ProbesOnly(s) && (a.Ask? || a.Answer? || a.Count?)
    ensures SessionOk(config, events, Step(s, a))
  {
    hide OnProbe, CallsOk, ApplierKnown, TableOk;
    ProbeTransparent(s, a);
  }

  lemma CompactOk(config: Config, events: seq<Event>, s: System, a: Action)
    requires SessionOk(config, events, s) && (a.Compact? || a.CrashCompact?)
    requires EventOf(s, a) != [] ==> Grows(s.cluster.history, Next(s.cluster, EventOf(s, a)[0]).history)
    ensures SessionOk(config, events + EventOf(s, a), Step(s, a))
  {
    hide SessionOk, Happen, Next, Grows, ApplierKnown;
    assert events + [] == events;
    if EventOf(s, a) != [] {
      var e := EventOf(s, a)[0];
      HappenOk(config, events, s, e);
      if a.Compact? {
        var n := a.n;
        AppliersUntouched(s, e);
        Known(config, events + [e], Happen(s, e), n);
        QueueKnown(config, events + [e], n, ApplierOf(s, n), ApplierOf(s, n).(captured := NoBytes));
        OneApplier(config, events + [e], Happen(s, e), n, ApplierOf(s, n).(captured := NoBytes));
      }
    }
  }

  lemma StartHolds(config: Config)
    ensures SessionOk(config, [], Begin(config))
  {
  }

  lemma {:induction false} SessionHolds(config: Config, actions: seq<Action>)
    requires ValidConfig(config) && VotesKept(config, Events(config, actions))
    ensures SessionOk(config, Events(config, actions), Session(config, actions))
  {
    hide ValidConfig, Runs.VotesKept, Step, SessionOk, EventOf, Run, Next, Good, Grows, ProbesOnly;
    if |actions| == 0 {
      StartHolds(config);
    } else {
      var before, a := actions[..|actions| - 1], actions[|actions| - 1];
      var s, events := Session(config, before), Events(config, before);
      KeptEarlier(config, events, EventOf(s, a));
      SessionHolds(config, before);
      SessionIsRun(config, before);
      StepIsEvent(s, a);
      RunGrows(config, events, EventOf(s, a));
      if EventOf(s, a) != [] {
        assert EventOf(s, a) == [EventOf(s, a)[0]];
        RunNext(config, events, EventOf(s, a)[0]);
      }
      StepOk(config, events, s, a);
    }
  }

  // ---------------------------------------------------------------- the theorem

  /** An answered call: its own command was applied, committed, at the index and term it was given. */
  lemma AnsweredCallIsOwn(config: Config, actions: seq<Action>, n: Id, ticket: nat, result: ApplyResult)
    requires ValidConfig(config) && VotesKept(config, Events(config, actions))
    requires ticket in TableOf(Session(config, actions), n).answers
    requires TableOf(Session(config, actions), n).answers[ticket] == Outcome.Answer(result)
    ensures var calls := Session(config, actions).calls;
            && ticket < |calls| && calls[ticket].n == n
            && result == ResultOf(calls[ticket].command)
            && WasTaken(config, Events(config, actions), n,
                        CommandEntry(calls[ticket].term, calls[ticket].index, calls[ticket].command))
  {
    hide ValidConfig, Runs.VotesKept, Run, Good, Session, Events;
    var events := Events(config, actions);
    var s := Session(config, actions);
    SessionHolds(config, actions);
    SessionIsRun(config, actions);
    assert n in s.tables;
    assert TableOk(config, events, n, s.calls, s.tables[n]);
    assert Placed(s.cluster.history.leaderLog, s.calls[ticket]);
    OwnCommand(config, events, s.calls[ticket], result);
  }

  /** Whatever was applied with the index and term of a placed command is that command. */
  lemma OwnCommand(config: Config, events: seq<Event>, call: Call, result: ApplyResult)
    requires ValidConfig(config) && VotesKept(config, events)
    requires Placed(Run(config, events).history.leaderLog, call)
    requires WasApplied(config, events, call.n, call.index, call.term, result)
    ensures result == ResultOf(call.command)
    ensures WasTaken(config, events, call.n, CommandEntry(call.term, call.index, call.command))
  {
    hide ValidConfig, Runs.VotesKept, Run, Good, Grows;
    var entry :| WasTaken(config, events, call.n, entry) && entry.index == call.index && entry.term == call.term
                 && result == ResultOf(entry.command);
    var k: nat :| AppliedAt(config, events, k, call.n, entry);
    assert events[..k] + events[k..] == events;
    RunGrows(config, events[..k], events[k..]);
    CommittedIsPlaced(Run(config, events[..k]), call.n, entry.index);
    LeaderLogsGrow(Run(config, events[..k]).history, Run(config, events).history, entry.term, entry.index);
    assert entry == CommandEntry(call.term, call.index, call.command);
  }
}
