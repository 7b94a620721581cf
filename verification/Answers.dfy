/**
 What becomes of a waiting call. It stays registered until something at its index,
 a snapshot or a crash ends the wait; an entry with its index and term answers it
 with its own command's result; and every refusal and every timeout has its cause.
 */
module Answers {
  import opened Entries
  import opened Logs
  import opened Machine
  import opened Nodes
  import opened Cluster
  import opened Runs
  import opened Calls
  import opened Program
  import opened Clients
  import Safety
  import P = Protocol

  // ---------------------------------------------------------------- one action

  /** The node's process ends with this action. */
  ghost predicate Ends(s: System, a: Action, n: Id) {
    match a
    case Core(e) => !Reserved(e) && Crashes(s.cluster, e) && Victim(e) == n
    case CrashCompact(x) => x == n && Live(s.cluster, n) && ApplierOf(s, n).captured.Bytes?
    case _ => false
  }

  /** The store of the node takes this message with this action. */
  ghost predicate Takes(s: System, a: Action, n: Id, msg: ApplyMsg) {
    a == Drain(n) && |ApplierOf(s, n).channel| > 0 && ApplierOf(s, n).channel[0] == msg
  }

  ghost predicate CallAt(s: System, ticket: nat, n: Id, index: nat) {
    ticket < |s.calls| && s.calls[ticket].n == n && s.calls[ticket].index == index
  }

  /** The action ends whatever wait there is at the index of the node. */
  ghost predicate EndsWait(s: System, a: Action, n: Id, index: nat) {
    || Ends(s, a, n)
    || Takes(s, a, n, SnapshotMsg)
    || (a == Drain(n) && |ApplierOf(s, n).channel| > 0 && ApplierOf(s, n).channel[0].EntryMsg?
        && ApplierOf(s, n).channel[0].index == index)
    || ((a.Wait? || a.Expire?) && CallAt(s, a.ticket, n, index))
  }

  /** The table of a node after an action, by what the action is. */
  lemma TableMoves(s: System, a: Action, n: Id)
    ensures var t, t' := TableOf(s, n), TableOf(Step(s, a), n);
            t' ==
              if Ends(s, a, n) then t.(pending := map[])
              else if a == Drain(n) && |ApplierOf(s, n).channel| > 0 then Dispatch(t, ApplierOf(s, n).channel[0])
              else if a.Wait? && a.ticket < |s.calls| && s.calls[a.ticket].n == n
                then Enter(t, s.calls[a.ticket].index, s.calls[a.ticket].term, a.ticket)
              else if a.Expire? && a.ticket < |s.calls| && s.calls[a.ticket].n == n
                then GiveUp(t, s.calls[a.ticket].index, a.ticket)
              else t
  {
    hide Next, Dispatch, Enter, GiveUp, Happen, OnProbe;
    match a
    case Core(e) =>
      if !Reserved(e) { HappenTables(s, e, n); }
    case Proceed(i) =>
      if i < |s.probes| && Succeeded(s.probes[i]) { HappenTables(s, Stand(s.probes[i].n), n); }
    case Take(x) =>
      if MayTake(s, x) { HappenTables(s, Apply(x), n); }
    case Compact(x) =>
      if ApplierOf(s, x).captured.Bytes? { HappenTables(s, Snapshot(x, ApplierOf(s, x).captured.data), n); }
    case CrashCompact(x) =>
      if ApplierOf(s, x).captured.Bytes? { HappenTables(s, CrashSaving(x, ApplierOf(s, x).captured.data), n); }
    case Submit(x, op) => HappenTables(s, ClientSubmit(x, Encoded(op)), n);
    case Ask(_) => ProbesKeepTables(s, a);
    case Answer(_, _, _) => ProbesKeepTables(s, a);
    case Count(_, _) => ProbesKeepTables(s, a);
    case _ =>
      hide Step;
      LocalTables(s, a, n);
  }

  lemma LocalTables(s: System, a: Action, n: Id)
    requires a.Wake? || a.Finish? || a.Rest? || a.Restore? || a.Drain? || a.Capture? || a.Wait? || a.Expire?
    ensures var t, t' := TableOf(s, n), TableOf(Step(s, a), n);
            t' ==
              if a == Drain(n) && |ApplierOf(s, n).channel| > 0 then Dispatch(t, ApplierOf(s, n).channel[0])
              else if a.Wait? && a.ticket < |s.calls| && s.calls[a.ticket].n == n
                then Enter(t, s.calls[a.ticket].index, s.calls[a.ticket].term, a.ticket)
              else if a.Expire? && a.ticket < |s.calls| && s.calls[a.ticket].n == n
                then GiveUp(t, s.calls[a.ticket].index, a.ticket)
              else t
  {
    hide Next, Dispatch, Enter, GiveUp, ApplyEntry, ResultOf, CanApply;
  }

  lemma HappenTables(s: System, e: Event, n: Id)
    ensures TableOf(Happen(s, e), n) ==
            if Crashes(s.cluster, e) && Victim(e) == n then TableOf(s, n).(pending := map[]) else TableOf(s, n)
    ensures Happen(s, e).calls == s.calls
  {
    hide Next, Queues;
  }

  lemma ProbesKeepTables(s: System, a: Action)
    requires a.Ask? || a.Answer? || a.Count?
    ensures OnProbe(s, a).tables == s.tables && OnProbe(s, a).calls == s.calls
  {
    hide HandleRequestVote;
  }

  lemma CallsMove(s: System, a: Action)
    ensures s.calls <= Step(s, a).calls
  {
    hide Next, Happen, OnProbe, Nodes.Submit;
    if a.Ask? || a.Answer? || a.Count? {
      ProbesKeepTables(s, a);
    }
    forall e
      ensures Happen(s, e).calls == s.calls
    {
      HappenCluster(s, e);
    }
  }

  // ---------------------------------------------------------------- registering and waiting

  /** A leader accepts a call: the command is the new last entry of its log, at the index and term the call is given. */
  lemma SubmitAccepts(s: System, n: Id, op: Op)
    requires Live(s.cluster, n)
    ensures var s' := Step(s, Action.Submit(n, op));
            && n in s'.cluster.nodes
            && var x, x' := s.cluster.nodes[n], s'.cluster.nodes[n];
               if x.role == Leader then
                 var call := Call(n, Encoded(op), LastIndex(x.log) + 1, x.term);
                 s'.calls == s.calls + [call] && x'.log == x.log + [CommandEntry(call.term, call.index, call.command)]
               else s'.calls == s.calls && x' == x
  {
    hide P.LeaderAppend;
  }

  /** A call that registers is waited for, with the term Submit gave it. */
  lemma Registers(s: System, ticket: nat)
    requires ticket < |s.calls|
    ensures var call, s' := s.calls[ticket], Step(s, Wait(ticket));
            && call.index in TableOf(s', call.n).pending
            && TableOf(s', call.n).pending[call.index] == Waiting(call.term, ticket)
            && TableOf(s', call.n).answers == TableOf(s, call.n).answers
  {
  }

  ghost predicate IsWaiting(s: System, n: Id, index: nat, w: Waiting) {
    index in TableOf(s, n).pending && TableOf(s, n).pending[index] == w
  }

  lemma StillWaiting(s: System, a: Action, n: Id, index: nat, w: Waiting)
    requires IsWaiting(s, n, index, w) && !EndsWait(s, a, n, index)
    ensures IsWaiting(Step(s, a), n, index, w)
  {
    hide Step, Ends;
    TableMoves(s, a, n);
  }

  /** No action of the continuation ends the wait. */
  ghost predicate NothingEnds(config: Config, actions: seq<Action>, more: seq<Action>, n: Id, index: nat) {
    forall i :: 0 <= i < |more| ==> !EndsWait(Session(config, actions + more[..i]), more[i], n, index)
  }

  lemma EndsLess(config: Config, actions: seq<Action>, more: seq<Action>, n: Id, index: nat)
    requires NothingEnds(config, actions, more, n, index) && |more| > 0
    ensures NothingEnds(config, actions, more[..|more| - 1], n, index)
    ensures !EndsWait(Session(config, actions + more[..|more| - 1]), more[|more| - 1], n, index)
  {
    hide EndsWait, Session;
    var less := more[..|more| - 1];
    forall i | 0 <= i < |less|
      ensures !EndsWait(Session(config, actions + less[..i]), less[i], n, index)
    {
      assert less[..i] == more[..i] && less[i] == more[i];
    }
  }

  /** A registered call stays registered as long as nothing ends its wait. */
  lemma {:induction false} WaitsOn(config: Config, actions: seq<Action>, more: seq<Action>, n: Id, index: nat, w: Waiting)
    requires IsWaiting(Session(config, actions), n, index, w) && NothingEnds(config, actions, more, n, index)
    ensures IsWaiting(Session(config, actions + more), n, index, w)
  {
    hide Step, IsWaiting, EndsWait, NothingEnds;
    if |more| == 0 {
      assert actions + more == actions;
    } else {
      var less, a := more[..|more| - 1], more[|more| - 1];
      EndsLess(config, actions, more, n, index);
      WaitsOn(config, actions, less, n, index, w);
      assert (actions + more)[..|actions + more| - 1] == actions + less;
      StillWaiting(Session(config, actions + less), a, n, index, w);
    }
  }

  // ---------------------------------------------------------------- being answered

  /** An entry with the waiting call's index and term answers it with its own command's result. */
  lemma EntryAnswers(config: Config, actions: seq<Action>, n: Id, index: nat, w: Waiting, result: ApplyResult)
    requires ValidConfig(config) && VotesKept(config, Events(config, actions))
    requires IsWaiting(Session(config, actions), n, index, w)
    requires Takes(Session(config, actions), Drain(n), n, EntryMsg(index, w.term, result))
    ensures var s, s' := Session(config, actions), Step(Session(config, actions), Drain(n));
            var t, t' := TableOf(s, n), TableOf(s', n);
            && w.ticket < |s.calls| && s.calls[w.ticket].n == n
            && t' == Table(t.pending - {index}, t.answers[w.ticket := Outcome.Answer(ResultOf(s.calls[w.ticket].command))])
  {
    hide ValidConfig, Runs.VotesKept, Session, Events, Run, Step, WasApplied, Placed;
    var s, events := Session(config, actions), Events(config, actions);
    SessionHolds(config, actions);
    SessionIsRun(config, actions);
    TableMoves(s, Drain(n), n);
    Known(config, events, s, n);
    var call := s.calls[w.ticket];
    assert Placed(s.cluster.history.leaderLog, call);
    assert WasApplied(config, events, n, index, w.term, result);
    OwnCommand(config, events, call, result);
  }

  /** An entry of another term at the waiting call's index refuses it. */
  lemma OtherTermRefuses(s: System, n: Id, index: nat, w: Waiting, term: nat, result: ApplyResult)
    requires IsWaiting(s, n, index, w) && Takes(s, Drain(n), n, EntryMsg(index, term, result)) && term != w.term
    ensures var t, t' := TableOf(s, n), TableOf(Step(s, Drain(n)), n);
            t' == Table(t.pending - {index}, t.answers[w.ticket := NotLeader])
  {
    hide Step;
    TableMoves(s, Drain(n), n);
  }

  /** An entry nobody waits for is nobody's business. */
  lemma UnawaitedEntry(s: System, n: Id, index: nat, term: nat, result: ApplyResult)
    requires index !in TableOf(s, n).pending && Takes(s, Drain(n), n, EntryMsg(index, term, result))
    ensures TableOf(Step(s, Drain(n)), n) == TableOf(s, n)
  {
    hide Step;
    TableMoves(s, Drain(n), n);
  }

  /** A snapshot refuses everybody who waits, and nobody else. */
  lemma SnapshotRefuses(s: System, n: Id)
    requires Takes(s, Drain(n), n, SnapshotMsg)
    ensures var t, t' := TableOf(s, n), TableOf(Step(s, Drain(n)), n);
            && t'.pending == map[]
            && (forall i :: i in t.pending ==> t.pending[i].ticket in t'.answers && t'.answers[t.pending[i].ticket] == NotLeader)
            && (forall k :: k in t'.answers && t'.answers[k] != NotLeader ==> k in t.answers && t.answers[k] == t'.answers[k])
            && (forall k :: k in t'.answers && k !in t.answers ==> exists i :: i in t.pending && t.pending[i].ticket == k)
  {
    hide Step;
    TableMoves(s, Drain(n), n);
    var t := TableOf(s, n);
    assert forall i :: i in t.pending ==> t.pending[i].ticket in Tickets(t.pending);
  }

  /** A caller that gives up is told so and frees its index. */
  lemma ExpiryTells(s: System, ticket: nat)
    requires ticket < |s.calls|
    ensures var call, s' := s.calls[ticket], Step(s, Expire(ticket));
            var t, t' := TableOf(s, call.n), TableOf(s', call.n);
            t' == Table(t.pending - {call.index}, t.answers[ticket := TimedOut])
  {
  }

  // ---------------------------------------------------------------- every answer has its cause

  /** An entry of another term was applied at the call's index on its node. */
  ghost predicate Superseded(config: Config, events: seq<Event>, call: Call) {
    exists entry :: WasTaken(config, events, call.n, entry) && entry.index == call.index && entry.term != call.term
  }

  /** At this moment the store took a snapshot message while the call waited. */
  ghost predicate SweptAt(config: Config, actions: seq<Action>, j: nat, n: Id, ticket: nat) {
    && j < |actions|
    && var s := Session(config, actions[..j]);
       && Takes(s, actions[j], n, SnapshotMsg)
       && exists i :: i in TableOf(s, n).pending && TableOf(s, n).pending[i].ticket == ticket
  }

  ghost predicate Caused(config: Config, actions: seq<Action>, n: Id, call: Call, ticket: nat, outcome: Outcome) {
    && call.n == n
    && match outcome
       case Answer(result) => WasApplied(config, Events(config, actions), n, call.index, call.term, result)
       case NotLeader => Superseded(config, Events(config, actions), call)
                         || exists j: nat :: SweptAt(config, actions, j, n, ticket)
       case TimedOut => exists j :: 0 <= j < |actions| && actions[j] == Expire(ticket)
  }

  ghost predicate AllCaused(config: Config, actions: seq<Action>, calls: seq<Call>, n: Id, t: Table) {
    forall k :: k in t.answers ==> k < |calls| && Caused(config, actions, n, calls[k], k, t.answers[k])
  }

  lemma CausedLater(config: Config, actions: seq<Action>, a: Action, n: Id, call: Call, ticket: nat, outcome: Outcome)
    requires Caused(config, actions, n, call, ticket, outcome)
    ensures Caused(config, actions + [a], n, call, ticket, outcome)
  {
    hide Step, WasTaken, WasApplied, Session, Events;
    var all := actions + [a];
    EventsContinue(config, actions, [a]);
    var events, more := Events(config, actions), Events(config, all)[|Events(config, actions)|..];
    assert events + more == Events(config, all);
    match outcome
    case Answer(result) => WasAppliedLater(config, events, more, n, call.index, call.term, result);
    case NotLeader =>
      if Superseded(config, events, call) {
        var entry :| WasTaken(config, events, call.n, entry) && entry.index == call.index && entry.term != call.term;
        WasTakenLater(config, events, more, call.n, entry);
      } else {
        var j: nat :| SweptAt(config, actions, j, n, ticket);
        assert all[..j] == actions[..j] && all[j] == actions[j];
        assert SweptAt(config, all, j, n, ticket);
      }
    case TimedOut =>
      var j :| 0 <= j < |actions| && actions[j] == Expire(ticket);
      assert all[j] == Expire(ticket);
  }

  lemma AllCausedLater(config: Config, actions: seq<Action>, a: Action, calls: seq<Call>, calls': seq<Call>, n: Id, t: Table)
    requires AllCaused(config, actions, calls, n, t) && calls <= calls'
    ensures AllCaused(config, actions + [a], calls', n, t)
  {
    hide Caused;
    forall k | k in t.answers
      ensures k < |calls'| && Caused(config, actions + [a], n, calls'[k], k, t.answers[k])
    {
      CausedLater(config, actions, a, n, calls[k], k, t.answers[k]);
    }
  }

  /** What a drained message does to the answers. */
  lemma DrainCauses(config: Config, actions: seq<Action>, n: Id)
    requires ValidConfig(config) && VotesKept(config, Events(config, actions))
    requires |ApplierOf(Session(config, actions), n).channel| > 0
    requires AllCaused(config, actions + [Drain(n)], Session(config, actions).calls, n, TableOf(Session(config, actions), n))
    ensures var s := Session(config, actions);
            AllCaused(config, actions + [Drain(n)], s.calls, n, Dispatch(TableOf(s, n), ApplierOf(s, n).channel[0]))
  {
    hide ValidConfig, Runs.VotesKept, Session, WasApplied, Placed, Step, Dispatch, Caused;
    var s := Session(config, actions);
    var msg := ApplierOf(s, n).channel[0];
    SessionHolds(config, actions);
    Known(config, Events(config, actions), s, n);
    match msg
    case EntryMsg(index, term, result) => EntryCauses(config, actions, n, index, term, result);
    case SnapshotMsg => SweepCauses(config, actions, n);
  }

  lemma EventsDrain(config: Config, actions: seq<Action>, n: Id)
    ensures Events(config, actions + [Drain(n)]) == Events(config, actions)
  {
    hide Step;
    assert (actions + [Drain(n)])[..|actions|] == actions;
  }

  lemma EntryCauses(config: Config, actions: seq<Action>, n: Id, index: nat, term: nat, result: ApplyResult)
    requires WasApplied(config, Events(config, actions), n, index, term, result)
    requires TableOk(config, Events(config, actions), n, Session(config, actions).calls, TableOf(Session(config, actions), n))
    requires AllCaused(config, actions + [Drain(n)], Session(config, actions).calls, n, TableOf(Session(config, actions), n))
    ensures var s := Session(config, actions);
            AllCaused(config, actions + [Drain(n)], s.calls, n, Dispatch(TableOf(s, n), EntryMsg(index, term, result)))
  {
    hide Session, WasTaken, SweptAt;
    var s, all := Session(config, actions), actions + [Drain(n)];
    var t := TableOf(s, n);
    EventsDrain(config, actions, n);
    if index in t.pending {
      var w := t.pending[index];
      var call := s.calls[w.ticket];
      if w.term != term {
        var entry :| WasTaken(config, Events(config, actions), n, entry) && entry.index == index && entry.term == term
                     && result == ResultOf(entry.command);
        assert Superseded(config, Events(config, all), call);
        assert Caused(config, all, n, call, w.ticket, NotLeader);
      } else {
        assert Caused(config, all, n, call, w.ticket, Outcome.Answer(result));
      }
      hide Caused;
    }
  }

  lemma SweepCauses(config: Config, actions: seq<Action>, n: Id)
    requires Takes(Session(config, actions), Drain(n), n, SnapshotMsg)
    requires TableOk(config, Events(config, actions), n, Session(config, actions).calls, TableOf(Session(config, actions), n))
    requires AllCaused(config, actions + [Drain(n)], Session(config, actions).calls, n, TableOf(Session(config, actions), n))
    ensures var s := Session(config, actions);
            AllCaused(config, actions + [Drain(n)], s.calls, n, Dispatch(TableOf(s, n), SnapshotMsg))
  {
    hide Session, WasApplied, Superseded;
    var s, all := Session(config, actions), actions + [Drain(n)];
    var t := TableOf(s, n);
    assert all[..|actions|] == actions;
    forall i | i in t.pending
      ensures Caused(config, all, n, s.calls[t.pending[i].ticket], t.pending[i].ticket, NotLeader)
    {
      assert SweptAt(config, all, |actions|, n, t.pending[i].ticket);
    }
    hide Caused, SweptAt, Takes;
    forall k | k in FailAll(t).answers
      ensures k < |s.calls| && Caused(config, all, n, s.calls[k], k, FailAll(t).answers[k])
    {
      if k in Tickets(t.pending) {
        var i :| i in t.pending && t.pending[i].ticket == k;
      }
    }
  }

  lemma StepCauses(config: Config, actions: seq<Action>, a: Action, n: Id)
    requires ValidConfig(config) && VotesKept(config, Events(config, actions))
    requires AllCaused(config, actions, Session(config, actions).calls, n, TableOf(Session(config, actions), n))
    ensures var s' := Step(Session(config, actions), a);
            AllCaused(config, actions + [a], s'.calls, n, TableOf(s', n))
  {
    hide ValidConfig, Runs.VotesKept, Session, Events, Step, Dispatch, Caused, Ends;
    var s, all := Session(config, actions), actions + [a];
    TableMoves(s, a, n);
    CallsMove(s, a);
    AllCausedLater(config, actions, a, s.calls, s.calls, n, TableOf(s, n));
    if a == Drain(n) && |ApplierOf(s, n).channel| > 0 {
      DrainCauses(config, actions, n);
    } else if a.Expire? && a.ticket < |s.calls| && s.calls[a.ticket].n == n {
      ExpiryCaused(config, all, n, s.calls[a.ticket], a.ticket);
    }
    MoreCalls(config, all, s.calls, Step(s, a).calls, n, TableOf(Step(s, a), n));
  }

  lemma ExpiryCaused(config: Config, actions: seq<Action>, n: Id, call: Call, ticket: nat)
    requires |actions| > 0 && actions[|actions| - 1] == Expire(ticket) && call.n == n
    ensures Caused(config, actions, n, call, ticket, TimedOut)
  {
  }

  lemma MoreCalls(config: Config, actions: seq<Action>, calls: seq<Call>, calls': seq<Call>, n: Id, t: Table)
    requires AllCaused(config, actions, calls, n, t) && calls <= calls'
    ensures AllCaused(config, actions, calls', n, t)
  {
    hide Caused;
  }

  /**
   Every answer has its cause. A result is that of the call's own entry. A refusal means that an entry
   of another term was applied at the call's index on its node, or that a snapshot swept the call away
   while it waited. A timeout means that the call gave up.
   */
  lemma {:induction false} AnswersHaveCauses(config: Config, actions: seq<Action>, n: Id)
    requires ValidConfig(config) && VotesKept(config, Events(config, actions))
    ensures AllCaused(config, actions, Session(config, actions).calls, n, TableOf(Session(config, actions), n))
  {
    hide ValidConfig, Runs.VotesKept, Step, Caused, EventOf;
    if |actions| > 0 {
      var before, a := actions[..|actions| - 1], actions[|actions| - 1];
      assert before + [a] == actions;
      Safety.KeptEarlier(config, Events(config, before), EventOf(Session(config, before), a));
      AnswersHaveCauses(config, before, n);
      StepCauses(config, before, a, n);
    }
  }
}
