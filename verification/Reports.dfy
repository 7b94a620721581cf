/**
 The apply channel loses nothing, invents nothing and keeps the order: since a node
 last started, what its store has drained, what is still on the channel and what
 is in hand are together one message for every entry taken and every snapshot
 restored.
 */
module Reports {
  import opened Entries
  import opened Machine
  import opened Nodes
  import opened Cluster
  import opened Calls
  import opened Program
  import opened Answers

  /** What an applied entry is reported as; membership entries are not. */
  function Report(e: LogEntry): seq<ApplyMsg> {
    if e.isConfig then [] else [EntryMsg(e.index, e.term, ResultOf(e.command))]
  }

  ghost predicate MayRestore(s: System, n: Id) {
    var a := ApplierOf(s, n);
    !a.draining && a.hand.Empty? && a.queued.Pending?
  }

  /** One message for every entry taken and every snapshot restored since the node last started. */
  ghost function Produced(config: Config, actions: seq<Action>, n: Id): seq<ApplyMsg> {
    if |actions| == 0 then []
    else
      var before, a := actions[..|actions| - 1], actions[|actions| - 1];
      var s, so := Session(config, before), Produced(config, before, n);
      if Ends(s, a, n) then []
      else if a == Take(n) && MayTake(s, n) then so + Report(NextEntry(s.cluster.nodes[n]))
      else if a == Restore(n) && MayRestore(s, n) then so + [SnapshotMsg]
      else so
  }

  /** What the store has drained since then. */
  ghost function Received(config: Config, actions: seq<Action>, n: Id): seq<ApplyMsg> {
    if |actions| == 0 then []
    else
      var before, a := actions[..|actions| - 1], actions[|actions| - 1];
      var s, so := Session(config, before), Received(config, before, n);
      if Ends(s, a, n) then []
      else if a == Drain(n) && |ApplierOf(s, n).channel| > 0 then so + [ApplierOf(s, n).channel[0]]
      else so
  }

  /** On the channel, or about to be. */
  ghost function UnderWay(a: Applier): seq<ApplyMsg> {
    a.channel + if a.hand.Holding? then Report(a.hand.entry) else []
  }

  /** What each action does to the messages under way. */
  lemma UnderWayMoves(s: System, a: Action, n: Id)
    ensures var x, x' := ApplierOf(s, n), ApplierOf(Step(s, a), n);
            UnderWay(x') ==
              if Ends(s, a, n) then []
              else if a == Take(n) && MayTake(s, n) then UnderWay(x) + Report(NextEntry(s.cluster.nodes[n]))
              else if a == Restore(n) && MayRestore(s, n) then UnderWay(x) + [SnapshotMsg]
              else if a == Drain(n) && |x.channel| > 0 then UnderWay(x)[1..]
              else UnderWay(x)
  {
    hide Next, Happen, OnProbe, Report, NextEntry, Dispatch, Ends, UnderWay;
    match a
    case Core(e) =>
      if !Reserved(e) { HappenUnderWay(s, e, n); }
      EndsByEvent(s, a, n);
    case Proceed(i) =>
      if i < |s.probes| && Succeeded(s.probes[i]) { HappenUnderWay(s, Stand(s.probes[i].n), n); }
      EndsByEvent(s, a, n);
    case Compact(x) =>
      CompactUnderWay(s, x, n);
      EndsByEvent(s, a, n);
    case CrashCompact(x) =>
      if ApplierOf(s, x).captured.Bytes? { HappenUnderWay(s, CrashSaving(x, ApplierOf(s, x).captured.data), n); }
      EndsByEvent(s, a, n);
    case Submit(x, op) =>
      HappenUnderWay(s, ClientSubmit(x, Encoded(op)), n);
      EndsByEvent(s, a, n);
    case Ask(_) => ProbesKeepAppliers(s, a, n);
    case Answer(_, _, _) => ProbesKeepAppliers(s, a, n);
    case Count(_, _) => ProbesKeepAppliers(s, a, n);
    case Wait(_) => EndsByEvent(s, a, n);
    case Expire(_) => EndsByEvent(s, a, n);
    case _ =>
      hide Step;
      LoopUnderWay(s, a, n);
  }

  lemma EndsByEvent(s: System, a: Action, n: Id)
    ensures Ends(s, a, n) ==> a.Core? || a.CrashCompact?
    ensures a.Core? ==> (Ends(s, a, n) <==> !Reserved(a.e) && Crashes(s.cluster, a.e) && Victim(a.e) == n)
    ensures a.CrashCompact? ==> (Ends(s, a, n) <==> a.n == n && Live(s.cluster, n) && ApplierOf(s, n).captured.Bytes?)
  {
  }

  lemma HappenUnderWay(s: System, e: Event, n: Id)
    ensures UnderWay(ApplierOf(Happen(s, e), n)) ==
            if Crashes(s.cluster, e) && Victim(e) == n then [] else UnderWay(ApplierOf(s, n))
  {
    hide Next, Report;
  }

  lemma CompactUnderWay(s: System, x: Id, n: Id)
    ensures UnderWay(ApplierOf(Step(s, Compact(x)), n)) == UnderWay(ApplierOf(s, n))
  {
    hide Next, Report;
  }

  lemma ProbesKeepAppliers(s: System, a: Action, n: Id)
    requires a.Ask? || a.Answer? || a.Count?
    ensures OnProbe(s, a).appliers == s.appliers && !Ends(s, a, n)
  {
    hide HandleRequestVote;
  }

  lemma LoopUnderWay(s: System, a: Action, n: Id)
    requires a.Wake? || a.Take? || a.Finish? || a.Rest? || a.Restore? || a.Drain? || a.Capture?
    ensures !Ends(s, a, n)
    ensures var x, x' := ApplierOf(s, n), ApplierOf(Step(s, a), n);
            UnderWay(x') ==
              if a == Take(n) && MayTake(s, n) then UnderWay(x) + Report(NextEntry(s.cluster.nodes[n]))
              else if a == Restore(n) && MayRestore(s, n) then UnderWay(x) + [SnapshotMsg]
              else if a == Drain(n) && |x.channel| > 0 then UnderWay(x)[1..]
              else UnderWay(x)
  {
    hide Next, NextEntry, Dispatch, ApplyEntry, Happen, Report, UnderWay;
    if a.Take? {
      hide Step;
      TakeUnderWay(s, a.n, n);
    } else {
      hide Step;
      if a.n == n {
        OwnUnderWay(s, a);
      } else {
        ElsewhereUnderWay(s, a, n);
      }
    }
  }

  lemma ElsewhereUnderWay(s: System, a: Action, n: Id)
    requires (a.Wake? || a.Finish? || a.Rest? || a.Restore? || a.Drain? || a.Capture?) && a.n != n
    ensures ApplierOf(Step(s, a), n) == ApplierOf(s, n)
  {
    hide Next, Dispatch, ApplyEntry, ResultOf, CanApply;
  }

  lemma OwnUnderWay(s: System, a: Action)
    requires a.Wake? || a.Finish? || a.Rest? || a.Restore? || a.Drain? || a.Capture?
    ensures var x, x' := ApplierOf(s, a.n), ApplierOf(Step(s, a), a.n);
            UnderWay(x') ==
              if a.Restore? && MayRestore(s, a.n) then UnderWay(x) + [SnapshotMsg]
              else if a.Drain? && |x.channel| > 0 then UnderWay(x)[1..]
              else UnderWay(x)
  {
    hide Next, Dispatch, ApplyEntry, ResultOf, CanApply;
    var x := ApplierOf(s, a.n);
    if a.Drain? && |x.channel| > 0 {
      var rest := if x.hand.Holding? then Report(x.hand.entry) else [];
      assert (x.channel + rest)[1..] == x.channel[1..] + rest;
    }
  }

  lemma TakeUnderWay(s: System, x: Id, n: Id)
    ensures UnderWay(ApplierOf(Step(s, Take(x)), n)) ==
            UnderWay(ApplierOf(s, n)) + if x == n && MayTake(s, n) then Report(NextEntry(s.cluster.nodes[n])) else []
  {
    hide Next, NextEntry, Happen, Report;
    TakeKeepsOthers(s, x, n);
  }

  lemma TakeKeepsOthers(s: System, x: Id, n: Id)
    ensures Happen(s, Apply(x)).appliers == s.appliers
  {
    hide Next;
  }

  /** In every session: drained, on the channel and in hand make up what was produced, in order. */
  lemma {:induction false} NothingLostOrInvented(config: Config, actions: seq<Action>, n: Id)
    ensures Received(config, actions, n) + UnderWay(ApplierOf(Session(config, actions), n)) == Produced(config, actions, n)
  {
    hide Step, UnderWay, Ends, Report, NextEntry;
    if |actions| == 0 {
      NothingYet(config, n);
    } else {
      var before, a := actions[..|actions| - 1], actions[|actions| - 1];
      var s := Session(config, before);
      NothingLostOrInvented(config, before, n);
      UnderWayMoves(s, a, n);
      if a == Drain(n) && |ApplierOf(s, n).channel| > 0 {
        ChannelFirst(ApplierOf(s, n));
      }
    }
  }

  lemma NothingYet(config: Config, n: Id)
    ensures UnderWay(ApplierOf(Begin(config), n)) == []
  {
  }

  lemma ChannelFirst(a: Applier)
    requires |a.channel| > 0
    ensures |UnderWay(a)| > 0 && UnderWay(a) == [a.channel[0]] + UnderWay(a)[1..]
  {
    hide Report;
  }
}
