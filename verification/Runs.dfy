/** Every run of the cluster keeps the invariant, and what that invariant promises stays. */
module Runs {
  import opened Entries
  import opened Machine
  import opened Nodes
  import opened Cluster
  import opened ClusterInv
  import ClusterElections
  import ClusterAppends
  import ClusterLeaders
  import ClusterSnapshots
  import P = Protocol

  // ---------------------------------------------------------------- conditions on runs

  /** The event is a quorum check that steps a leader down and so erases its vote. */
  ghost predicate ErasesVote(c: Cluster, e: Event) {
    e.QuorumCheck? && Live(c, e.n) && StepsDown(c, e.n, e.heard)
  }

  /** The node's own quorum check failed in the term. */
  ghost predicate Erased(config: Config, events: seq<Event>, n: Id, term: nat) {
    exists i ::
      && 0 <= i < |events| && ErasesVote(Run(config, events[..i]), events[i])
      && events[i].n == n && Run(config, events[..i]).nodes[n].term == term
  }

  /** The event makes a node grant its vote. */
  ghost predicate GrantsVote(c: Cluster, e: Event) {
    && e.Deliver? && e.m in c.messages && e.m.VoteRequest? && Live(c, e.m.to)
    && HandleRequestVote(c.nodes[e.m.to], e.m.args, false).1.granted
  }

  /** The event makes a node grant a vote that its failed quorum check had freed in that very term. */
  ghost predicate CastsAgain(config: Config, events: seq<Event>, e: Event) {
    GrantsVote(Run(config, events), e) && Erased(config, events, e.m.to, e.m.args.term)
  }

  /** An even membership, or a run in which no freed vote is cast again. */
  ghost predicate VotesKept(config: Config, events: seq<Event>) {
    |config.Keys| % 2 == 0 || forall i :: 0 <= i < |events| ==> !CastsAgain(config, events[..i], events[i])
  }

  /** The event takes a snapshot of something else than the state after the applied entries. */
  ghost predicate TakesSkewed(c: Cluster, e: Event) {
    (e.Snapshot? || e.CrashSaving?) && Live(c, e.n) && Skews(c, e.n, e.data)
  }

  ghost predicate NeverSkewed(config: Config, events: seq<Event>) {
    forall i :: 0 <= i < |events| ==> !TakesSkewed(Run(config, events[..i]), events[i])
  }

  // ---------------------------------------------------------------- one event

  lemma DeliverGood(c: Cluster, m: Message)
    requires Good(c) && P.VotesKept(c.history) && m in c.messages && Live(c, Receiver(m))
    ensures Good(OnDeliver(c, m)) && Grows(c.history, OnDeliver(c, m).history)
  {
    hide Good, Grows, OnVoteRequest, OnVoteAnswer, OnAppendRequest, OnAppendAnswer, OnSnapshotRequest, OnSnapshotAnswer;
    match m
    case VoteRequest(to, round, args) => ClusterElections.VoteRequestGood(c, to, round, args);
    case VoteAnswer(from, round, args, reply) => ClusterElections.VoteAnswerGood(c, from, round, args, reply);
    case AppendRequest(to, args) => ClusterAppends.AppendRequestGood(c, to, args);
    case AppendAnswer(from, args, reply) => ClusterLeaders.AppendAnswerGood(c, from, args, reply);
    case SnapshotRequest(to, args) => ClusterSnapshots.SnapshotRequestGood(c, to, args);
    case SnapshotAnswer(from, args, reply) => ClusterLeaders.SnapshotAnswerGood(c, from, args, reply);
  }

  lemma NextGood(c: Cluster, e: Event)
    requires Good(c) && P.VotesKept(c.history)
    ensures Good(Next(c, e)) && Grows(c.history, Next(c, e).history)
  {
    hide Good, Grows, OnStand, OnLaunch, OnDeliver, OnSubmit, OnSend, OnQuorumCheck, OnSnapshot, OnCrash;
    hide OnCrashFollowing, OnCrashSaving, OnCrashInstalling;
    ClusterElections.GrowsSame(c.history);
    match e
    case Stand(n) =>
      if Live(c, n) && MayStand(c.nodes[n]) { ClusterElections.StandGood(c, n); }
    case Launch(n) =>
      if Live(c, n) && n in c.launching { LaunchStep(c, n); }
    case Deliver(m) =>
      if m in c.messages && Live(c, Receiver(m)) { DeliverGood(c, m); }
    case ClientSubmit(n, command) =>
      if Live(c, n) && c.nodes[n].role == Leader { ClusterLeaders.SubmitGood(c, n, command); }
    case Send(n, p) =>
      if Live(c, n) && c.nodes[n].role == Leader && p in c.nodes[n].peers { ClusterLeaders.SendGood(c, n, p); }
    case QuorumCheck(n, heard) =>
      if Live(c, n) { ClusterElections.QuorumCheckGood(c, n, heard); }
    case Apply(n) =>
      if Live(c, n) && CanApply(c.nodes[n]) { ClusterSnapshots.ApplyGood(c, n); }
    case Snapshot(n, data) =>
      if Live(c, n) { ClusterSnapshots.SnapshotGood(c, n, data); }
    case Crash(n) =>
      if Live(c, n) { ClusterSnapshots.CrashGood(c, n); }
    case CrashFollowing(m) =>
      if m in c.messages && Live(c, Receiver(m)) && TermOf(m) > c.nodes[Receiver(m)].term {
        ClusterSnapshots.CrashFollowingGood(c, Receiver(m), TermOf(m));
      }
    case CrashSaving(n, data) =>
      if Live(c, n) { ClusterSnapshots.CrashSavingGood(c, n, data); }
    case CrashInstalling(m) =>
      if m in c.messages && m.SnapshotRequest? && Live(c, m.to) {
        ClusterSnapshots.CrashInstallingGood(c, m.to, m.snapshot);
      }
  }

  lemma LaunchStep(c: Cluster, n: Id)
    requires Good(c) && Live(c, n)
    ensures Good(OnLaunch(c, n)) && OnLaunch(c, n).history == c.history
  {
    hide Good;
    ClusterElections.LaunchGood(c, n);
  }

  /** The part of the history that only votes and failed quorum checks change. */
  ghost predicate SameVotes(h: P.History, h': P.History) {
    h'.members == h.members && h'.forgot == h.forgot && h'.votes == h.votes
  }

  lemma VotesEraseNothing(c: Cluster, n: Id, from: Id, round: nat, args: VoteArgs, reply: VoteReply)
    requires Live(c, n)
    ensures var h' := OnVoteRequest(c, n, round, args).history;
            if HandleRequestVote(c.nodes[n], args, false).1.granted
            then SameVotes(c.history.(votes := c.history.votes + {VoteFor(args, n)}), h') else SameVotes(c.history, h')
    ensures round < |c.rounds| ==> SameVotes(c.history, OnVoteAnswer(c, n, from, round, reply).history)
  {
    hide HandleRequestVote, ReceiveVote;
  }

  lemma AppendsEraseNothing(c: Cluster, n: Id, from: Id, args: AppendArgs, reply: AppendReply)
    requires Live(c, n)
    ensures SameVotes(c.history, OnAppendRequest(c, n, args).history)
    ensures SameVotes(c.history, OnAppendAnswer(c, n, from, args, reply).history)
  {
    hide HandleAppendEntries, ReceiveAppendReply, Holders;
  }

  lemma SnapshotsEraseNothing(c: Cluster, n: Id, from: Id, args: SnapshotArgs, reply: SnapshotReply)
    requires Live(c, n)
    ensures SameVotes(c.history, OnSnapshotRequest(c, n, args).history)
    ensures SameVotes(c.history, OnSnapshotAnswer(c, n, from, args, reply).history)
  {
    hide HandleInstallSnapshot, ReceiveSnapshotReply;
  }

  lemma DeliverErasesNothing(c: Cluster, m: Message)
    requires Live(c, Receiver(m)) && !m.VoteRequest?
    ensures SameVotes(c.history, OnDeliver(c, m).history)
  {
    hide OnVoteRequest, OnVoteAnswer, OnAppendRequest, OnAppendAnswer, OnSnapshotRequest, OnSnapshotAnswer;
    match m
    case VoteAnswer(from, round, args, reply) => VotesEraseNothing(c, args.candidate, from, round, args, reply);
    case AppendRequest(to, args) => AppendsEraseNothing(c, to, to, args, AppendReply(0, false, 0, 0));
    case AppendAnswer(from, args, reply) => AppendsEraseNothing(c, args.leader, from, args, reply);
    case SnapshotRequest(to, args) => SnapshotsEraseNothing(c, to, to, args, SnapshotReply(0));
    case SnapshotAnswer(from, args, reply) => SnapshotsEraseNothing(c, args.leader, from, args, reply);
  }

  lemma CrashErasesNothing(c: Cluster, n: Id, data: Store)
    requires Live(c, n)
    ensures SameVotes(c.history, OnCrash(c, n).history)
    ensures SameVotes(c.history, OnCrashSaving(c, n, data).history)
  {
    hide Reboot, TakeSnapshot;
  }

  lemma HandlerCrashErasesNothing(c: Cluster, n: Id, term: nat, args: SnapshotArgs)
    requires Live(c, n)
    ensures SameVotes(c.history, OnCrashFollowing(c, n, term).history)
    ensures SameVotes(c.history, OnCrashInstalling(c, n, args).history)
  {
    hide Reboot;
  }

  lemma StepErasesNothing(c: Cluster, n: Id, p: Id, data: Store)
    requires Live(c, n)
    ensures SameVotes(c.history.(votes := c.history.votes + {P.OwnVote(c.history, n)}), OnStand(c, n).history)
    ensures SameVotes(c.history, OnLaunch(c, n).history)
    ensures SameVotes(c.history, OnSend(c, n, p).history)
    ensures SameVotes(c.history, OnSnapshot(c, n, data).history)
  {
    hide TakeSnapshot, BuildArgs;
  }

  lemma SubmitErasesNothing(c: Cluster, n: Id, command: Command)
    requires Live(c, n) && c.nodes[n].role == Leader
    ensures SameVotes(c.history, OnSubmit(c, n, command).history)
  {
    hide Submit;
  }

  lemma CheckErases(c: Cluster, n: Id, heard: nat)
    requires Live(c, n)
    ensures var h' := OnQuorumCheck(c, n, heard).history;
            if StepsDown(c, n, heard)
            then SameVotes(c.history.(forgot := c.history.forgot + {(n, c.history.peers[n].term)}), h')
            else SameVotes(c.history, h')
  {
    hide CheckQuorum;
  }

  /** Votes and erasures after the event, given those before. */
  ghost function VotesAfter(c: Cluster, e: Event): P.History {
    if ErasesVote(c, e) then c.history.(forgot := c.history.forgot + {(e.n, c.history.peers[e.n].term)})
    else if e.Stand? && Live(c, e.n) && MayStand(c.nodes[e.n]) then
      c.history.(votes := c.history.votes + {P.OwnVote(c.history, e.n)})
    else if GrantsVote(c, e) then c.history.(votes := c.history.votes + {VoteFor(e.m.args, e.m.to)})
    else c.history
  }

  /** Only candidacies and grants record votes, only a failed quorum check erases one. */
  lemma VotesChange(c: Cluster, e: Event)
    ensures SameVotes(VotesAfter(c, e), Next(c, e).history)
  {
    if e.Crash? || e.CrashFollowing? || e.CrashSaving? || e.CrashInstalling? {
      hide Next;
      CrashesEraseNothing(c, e);
    } else if e.QuorumCheck? || e.Stand? || (e.Deliver? && e.m.VoteRequest?) {
      hide OnStand, OnVoteRequest, OnQuorumCheck, HandleRequestVote;
      VotersChange(c, e);
    } else {
      hide Next;
      OthersEraseNothing(c, e);
    }
  }

  lemma VotersChange(c: Cluster, e: Event)
    requires e.QuorumCheck? || e.Stand? || (e.Deliver? && e.m.VoteRequest?)
    ensures SameVotes(VotesAfter(c, e), Next(c, e).history)
  {
    hide OnStand, OnVoteRequest, OnQuorumCheck, HandleRequestVote;
    match e
    case QuorumCheck(n, heard) =>
      if Live(c, n) { CheckErases(c, n, heard); }
    case Stand(n) =>
      if Live(c, n) { StepErasesNothing(c, n, n, map[]); }
    case Deliver(m) =>
      if Live(c, m.to) { VotesEraseNothing(c, m.to, m.to, m.round, m.args, VoteReply(0, false)); }
  }

  lemma CrashesEraseNothing(c: Cluster, e: Event)
    requires e.Crash? || e.CrashFollowing? || e.CrashSaving? || e.CrashInstalling?
    ensures SameVotes(c.history, Next(c, e).history)
  {
    hide OnCrash, OnCrashFollowing, OnCrashSaving, OnCrashInstalling;
    match e
    case Crash(n) =>
      if Live(c, n) { CrashErasesNothing(c, n, map[]); }
    case CrashSaving(n, data) =>
      if Live(c, n) { CrashErasesNothing(c, n, data); }
    case CrashFollowing(m) =>
      if Live(c, Receiver(m)) { HandlerCrashErasesNothing(c, Receiver(m), TermOf(m), SnapshotArgs(0, "", 0, 0, map[])); }
    case CrashInstalling(m) =>
      if m.SnapshotRequest? && Live(c, m.to) { HandlerCrashErasesNothing(c, m.to, 0, m.snapshot); }
  }

  lemma OthersEraseNothing(c: Cluster, e: Event)
    requires !e.QuorumCheck? && !e.Crash? && !e.CrashFollowing? && !e.CrashSaving? && !e.CrashInstalling?
    requires !e.Stand? && (e.Deliver? ==> !e.m.VoteRequest?)
    ensures SameVotes(c.history, Next(c, e).history)
  {
    hide OnStand, OnLaunch, OnDeliver, OnSubmit, OnSend, OnSnapshot;
    match e
    case Launch(n) =>
      if Live(c, n) { StepErasesNothing(c, n, n, map[]); }
    case Deliver(m) =>
      if Live(c, Receiver(m)) { DeliverErasesNothing(c, m); }
    case ClientSubmit(n, command) =>
      if Live(c, n) && c.nodes[n].role == Leader { SubmitErasesNothing(c, n, command); }
    case Send(n, p) =>
      if Live(c, n) { StepErasesNothing(c, n, p, map[]); }
    case Apply(n) =>
    case Snapshot(n, data) =>
      if Live(c, n) { StepErasesNothing(c, n, n, data); }
  }

  /** Only such an event sets the mark. */
  lemma SkewedOnly(c: Cluster, e: Event)
    ensures !TakesSkewed(c, e) ==> Next(c, e).skewed == c.skewed
  {
    hide HandleAppendEntries, HandleRequestVote, HandleInstallSnapshot, ReceiveVote, ReceiveAppendReply,
         ReceiveSnapshotReply;
    hide Reboot, TakeSnapshot, Submit, TakeNext, CheckQuorum, BuildArgs, Holders;
  }

  // ---------------------------------------------------------------- whole runs

  /** Every erased vote on record was erased by an event of the run. */
  ghost predicate ErasuresKnown(config: Config, events: seq<Event>, h: P.History) {
    forall f :: f in h.forgot ==> Erased(config, events, f.0, f.1)
  }

  lemma {:induction false} RunGood(config: Config, events: seq<Event>)
    requires ValidConfig(config) && VotesKept(config, events)
    ensures Good(Run(config, events)) && P.VotesKept(Run(config, events).history)
    ensures Run(config, events).history.members == config.Keys
    ensures ErasuresKnown(config, events, Run(config, events).history)
    ensures NeverSkewed(config, events) ==> !Run(config, events).skewed
  {
    hide Good, Next, ErasuresKnown, CastsAgain, P.VotesKept, TakesSkewed, NeverSkewed, ValidConfig;
    if |events| == 0 {
      InitGood(config);
      InitVotes(config, events);
    } else {
      var before := events[..|events| - 1];
      var e := events[|events| - 1];
      KeptBefore(config, events);
      RunGood(config, before);
      var c := Run(config, before);
      NextGood(c, e);
      SkewedOnly(c, e);
      VotesChange(c, e);
      assert |config.Keys| % 2 != 0 ==> !CastsAgain(config, events[..|events| - 1], events[|events| - 1]);
      KeptStays(config, before, e);
      ErasuresStay(config, before, e);
      assert before + [e] == events;
    }
  }

  lemma InitVotes(config: Config, events: seq<Event>)
    requires events == []
    ensures P.VotesKept(Init(config).history) && ErasuresKnown(config, events, Init(config).history)
    ensures Init(config).history.members == config.Keys && !Init(config).skewed
  {
  }

  lemma KeptBefore(config: Config, events: seq<Event>)
    requires |events| > 0
    ensures VotesKept(config, events) ==> VotesKept(config, events[..|events| - 1])
    ensures NeverSkewed(config, events) ==>
              NeverSkewed(config, events[..|events| - 1]) && !TakesSkewed(Run(config, events[..|events| - 1]), events[|events| - 1])
  {
    hide CastsAgain, TakesSkewed;
    var before := events[..|events| - 1];
    assert forall i :: 0 <= i < |before| ==> before[..i] == events[..i] && before[i] == events[i];
    assert NeverSkewed(config, events) ==> !TakesSkewed(Run(config, events[..|events| - 1]), events[|events| - 1]);
  }

  /** A run in which no freed vote is cast again records one choice per voter and term. */
  lemma KeptStays(config: Config, events: seq<Event>, e: Event)
    requires Good(Run(config, events)) && Good(Next(Run(config, events), e))
    requires P.VotesKept(Run(config, events).history) && Run(config, events).history.members == config.Keys
    requires ErasuresKnown(config, events, Run(config, events).history)
    requires |config.Keys| % 2 == 0 || !CastsAgain(config, events, e)
    ensures P.VotesKept(Next(Run(config, events), e).history)
  {
    hide Run, Next, Good, GrantsVote, Erased;
    var c := Run(config, events);
    VotesChange(c, e);
    VoteFacts(c);
    VoteFacts(Next(c, e));
    if |config.Keys| % 2 != 0 {
      if e.Stand? && Live(c, e.n) && MayStand(c.nodes[e.n]) {
        OwnVoteIsNew(c.history, e.n);
        ChoicesStay(Next(c, e).history, c.history.votes, P.OwnVote(c.history, e.n));
      } else if GrantsVote(c, e) {
        GrantShape(c, e);
        assert (e.m.to, e.m.args.term) !in c.history.forgot;
        ChoicesStay(Next(c, e).history, c.history.votes, VoteFor(e.m.args, e.m.to));
      }
    }
  }

  lemma GrantShape(c: Cluster, e: Event)
    requires GrantsVote(c, e)
    ensures e.Deliver? && e.m.VoteRequest?
  {
  }

  lemma VoteFacts(c: Cluster)
    requires Good(c)
    ensures P.VotesOk(c.history.peers, c.history.votes, c.history.forgot)
    ensures P.ForgotOk(c.history.elected, c.history.forgot)
    ensures P.ElectionsOk(c.history.members, c.history.peers, c.history.elected, c.history.votes)
  {
    hide P.ElectionsOk, P.VotesOk, P.ForgotOk, P.RolesOk, P.LeaderLogsOk, P.PeerLogsOk, P.AcksOk, P.MatchesOk,
         P.VotesForce, P.CommitsOk, NodesOk, MessagesOk, RoundsOk;
  }

  /** No vote was ever cast, let alone erased, in the term a candidate opens. */
  lemma OwnVoteIsNew(h: P.History, n: Id)
    requires P.ForgotOk(h.elected, h.forgot) && P.ElectionsOk(h.members, h.peers, h.elected, h.votes) && n in h.peers
    ensures (n, P.OwnVote(h, n).term) !in h.forgot
  {
    var t := P.OwnVote(h, n).term;
    if t in h.elected {
      assert P.ElectionOk(h.members, h.peers, h.votes, t, h.elected[t]);
    }
  }

  lemma ChoicesStay(h: P.History, votes: set<P.Vote>, vote: P.Vote)
    requires P.VotesOk(h.peers, h.votes, h.forgot) && P.OneChoice(votes)
    requires h.votes == votes + {vote} && (vote.voter, vote.term) !in h.forgot
    ensures P.OneChoice(h.votes)
  {
    forall v, w | v in h.votes && w in h.votes && v.voter == w.voter && v.term == w.term
      ensures v.candidate == w.candidate
    {
      assert P.SameChoice(h.forgot, v, w);
    }
  }

  lemma {:induction false} ErasuresStay(config: Config, events: seq<Event>, e: Event)
    requires Good(Run(config, events)) && ErasuresKnown(config, events, Run(config, events).history)
    ensures ErasuresKnown(config, events + [e], Next(Run(config, events), e).history)
  {
    hide Next, Good, Run, StepsDown;
    var c := Run(config, events);
    var all := events + [e];
    VotesChange(c, e);
    forall f | f in Next(c, e).history.forgot
      ensures Erased(config, all, f.0, f.1)
    {
      if f in c.history.forgot {
        var i :| 0 <= i < |events| && ErasesVote(Run(config, events[..i]), events[i])
                 && events[i].n == f.0 && Run(config, events[..i]).nodes[f.0].term == f.1;
        assert all[..i] == events[..i] && all[i] == events[i];
      } else {
        ErasedNow(c, e, f);
        assert all[..|events|] == events && all[|events|] == e;
      }
    }
  }

  lemma ErasedNow(c: Cluster, e: Event, f: (Id, nat))
    requires Good(c) && f in VotesAfter(c, e).forgot && f !in c.history.forgot
    ensures ErasesVote(c, e) && e.n == f.0 && c.nodes[e.n].term == f.1
  {
    hide Good;
    ClusterElections.TermMirrors(c, e.n);
  }

  lemma RunNext(config: Config, events: seq<Event>, e: Event)
    ensures Run(config, events + [e]) == Next(Run(config, events), e)
  {
    assert (events + [e])[..|events + [e]| - 1] == events;
  }
}
