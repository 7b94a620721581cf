/**
 Whom a node names as leader. The name is what clients are redirected by; it is
 cleared with every new term, and in runs that keep votes it never names anybody
 but the leader of the node's own term.
 */
module KnownLeaders {
  import opened Entries
  import opened Logs
  import opened Machine
  import opened Nodes
  import opened Cluster
  import opened ClusterInv
  import opened Runs
  import opened Safety
  import opened Program
  import ClusterElections
  import Recovery
  import Terms
  import P = Protocol

  // ---------------------------------------------------------------- one node

  /** The name is gone, or still stands for the same term; and whoever leads names itself as it did. */
  ghost predicate NameKept(x: Node, x': Node) {
    && (x'.leaderId == "" || (x'.leaderId == x.leaderId && x'.term == x.term))
    && (x'.role == Leader ==> x.role == Leader && x'.leaderId == x.leaderId)
  }

  lemma VotingNames(x: Node, args: VoteArgs, asked: nat, votes: nat, reply: VoteReply)
    requires |x.log| > 0
    ensures NameKept(x, HandleRequestVote(x, args, false).0)
    ensures var x' := ReceiveVote(x, asked, votes, reply).0;
            NameKept(x, x') || (x'.role == Leader && x'.leaderId == x.id)
  {
    hide UpToDate;
  }

  lemma RepliesName(x: Node, p: Id, asked: nat, append: AppendArgs, appended: AppendReply, snapshot: SnapshotArgs,
        installed: SnapshotReply)
    requires |x.log| > 0
    ensures NameKept(x, ReceiveAppendReply(x, p, asked, append, appended))
    ensures NameKept(x, ReceiveSnapshotReply(x, p, asked, snapshot, installed))
  {
    hide BackUp, QuorumIndex;
  }

  lemma LeadersName(x: Node, append: AppendArgs, snapshot: SnapshotArgs)
    requires |x.log| > 0
    ensures var x' := HandleAppendEntries(x, append).0;
            NameKept(x, x') || (x'.term == append.term && x'.leaderId == append.leader)
    ensures var x' := HandleInstallSnapshot(x, snapshot).0;
            NameKept(x, x') || (x'.term == snapshot.term && x'.leaderId == snapshot.leader)
  {
    hide HandleAppendEntries, HandleInstallSnapshot;
    Terms.AppendRule(x, append);
    Terms.InstallRule(x, snapshot);
  }

  // ---------------------------------------------------------------- one event

  /** The message comes from this leader of this term. */
  predicate SentBy(m: Message, term: nat, leader: Id) {
    || (m.AppendRequest? && m.append.term == term && m.append.leader == leader)
    || (m.SnapshotRequest? && m.snapshot.term == term && m.snapshot.leader == leader)
  }

  /** Where a new name comes from: the node itself won, or a leader of its new term wrote. */
  ghost predicate NameFrom(c: Cluster, e: Event, x: Node, x': Node) {
    || NameKept(x, x')
    || (x'.role == Leader && x'.leaderId == x.id)
    || (e.Deliver? && e.m in c.messages && SentBy(e.m, x'.term, x'.leaderId))
  }

  lemma DeliveryNames(c: Cluster, m: Message, n: Id)
    requires m in c.messages && Live(c, Receiver(m)) && n in c.nodes
    ensures n in OnDeliver(c, m).nodes && NameFrom(c, Deliver(m), c.nodes[n], OnDeliver(c, m).nodes[n])
  {
    hide HandleRequestVote, ReceiveVote, HandleAppendEntries, ReceiveAppendReply, HandleInstallSnapshot,
         ReceiveSnapshotReply, Holders;
    var x := c.nodes[Receiver(m)];
    var noAppend, noSnapshot := AppendArgs(0, "", 0, 0, [], 0), SnapshotArgs(0, "", 0, 0, map[]);
    match m
    case VoteRequest(_, _, args) => VotingNames(x, args, 0, 0, VoteReply(0, false));
    case VoteAnswer(_, i, args, reply) =>
      if i < |c.rounds| {
        VotingNames(x, args, c.rounds[i].args.term, 1 + |c.rounds[i].granted|, reply);
      }
    case AppendRequest(_, args) => LeadersName(x, args, noSnapshot);
    case SnapshotRequest(_, args) => LeadersName(x, noAppend, args);
    case AppendAnswer(from, args, reply) => RepliesName(x, from, args.term, args, reply, noSnapshot, SnapshotReply(0));
    case SnapshotAnswer(from, args, reply) => RepliesName(x, from, args.term, noAppend, AppendReply(0, false, 0, 0), args, reply);
  }

  lemma WorkNames(c: Cluster, e: Event, n: Id)
    requires n in c.nodes && !e.Deliver? && !e.Crash? && !e.CrashFollowing? && !e.CrashSaving? && !e.CrashInstalling?
    ensures n in Next(c, e).nodes && NameKept(c.nodes[n], Next(c, e).nodes[n])
  {
    hide Skews, BuildVoteArgs, BuildArgs, BuildSnapshotArgs, P.Compact, P.Stand, P.LeaderAppend, P.Forget, BecomeCandidate,
         Nodes.CheckQuorum, TakeSnapshot, Nodes.Submit, NameKept;
    var x := c.nodes[n];
    match e
    case Stand(_) => StandingNames(x);
    case ClientSubmit(_, command) =>
      if Live(c, n) && x.role == Leader { SubmittingNames(x, command); }
      SameName(x);
    case QuorumCheck(_, heard) => CheckingNames(x, heard);
    case Snapshot(_, data) =>
      if Live(c, n) { SnapshottingNames(x, data); }
      SameName(x);
    case _ => SameName(x);
  }

  lemma StandingNames(x: Node)
    ensures NameKept(x, BecomeCandidate(x)) && NameKept(x, x)
  {
  }

  lemma CheckingNames(x: Node, heard: nat)
    ensures NameKept(x, Nodes.CheckQuorum(x, heard)) && NameKept(x, x)
  {
  }

  lemma SubmittingNames(x: Node, command: Command)
    requires |x.log| > 0 && x.role == Leader
    ensures NameKept(x, Nodes.Submit(x, command).0)
  {
  }

  lemma SnapshottingNames(x: Node, data: Store)
    requires |x.log| > 0
    ensures NameKept(x, TakeSnapshot(x, data))
  {
    hide CompactTo, Get;
  }

  lemma SameName(x: Node)
    ensures NameKept(x, x) && NameKept(x, TakeNext(x))
  {
  }

  lemma NextNames(c: Cluster, e: Event, n: Id)
    requires n in c.nodes
    ensures n in Next(c, e).nodes && NameFrom(c, e, c.nodes[n], Next(c, e).nodes[n])
  {
    if e.Deliver? {
      hide OnDeliver;
      if e.m in c.messages && Live(c, Receiver(e.m)) {
        DeliveryNames(c, e.m, n);
      }
    } else {
      hide Next;
      if e.Crash? || e.CrashFollowing? || e.CrashSaving? || e.CrashInstalling? {
        CrashOutcome(c, e, n);
      } else {
        WorkNames(c, e, n);
      }
    }
  }

  // ---------------------------------------------------------------- every run

  /** A node names nobody, or the winner of its term; a leader names itself. */
  ghost predicate NamesWinner(h: P.History, x: Node) {
    && (x.leaderId != "" ==> x.term in h.elected && h.elected[x.term].leader == x.leaderId)
    && (x.role == Leader ==> x.leaderId == x.id)
  }

  lemma StillNamesWinner(c: Cluster, e: Event, n: Id)
    requires Good(c) && Good(Next(c, e)) && Grows(c.history, Next(c, e).history)
    requires n in c.nodes && NamesWinner(c.history, c.nodes[n])
    ensures n in Next(c, e).nodes && NamesWinner(Next(c, e).history, Next(c, e).nodes[n])
  {
    hide Good, Next, Durable, P.PeerLogOk, Replayed, Applied, LeaderSlice, P.Covered;
    var c' := Next(c, e);
    NextNames(c, e, n);
    NodeFacts(c', n);
    OwnName(c, n);
    OwnName(c', n);
    if e.Deliver? && e.m in c.messages {
      MessageFact(c, e.m);
    }
  }

  lemma OwnName(c: Cluster, n: Id)
    requires Good(c) && n in c.nodes
    ensures c.nodes[n].id == n && n != ""
  {
    hide Good, Mirrors, Stored, Applied, Replayed, Tracking;
    ClusterElections.MemberFacts(c, n);
  }

  lemma {:induction false} RunNamesWinners(config: Config, events: seq<Event>, n: Id)
    requires ValidConfig(config) && VotesKept(config, events) && n in config
    ensures n in Run(config, events).nodes && NamesWinner(Run(config, events).history, Run(config, events).nodes[n])
  {
    hide Good, Next, ValidConfig, Runs.VotesKept, Grows, NamesWinner;
    if |events| == 0 {
      StartNames(config, n);
    } else {
      var before, e := events[..|events| - 1], events[|events| - 1];
      assert before + [e] == events;
      KeptEarlier(config, before, [e]);
      RunNamesWinners(config, before, n);
      RunGood(config, before);
      RunGood(config, events);
      RunGrows(config, before, [e]);
      StillNamesWinner(Run(config, before), e, n);
    }
  }

  lemma StartNames(config: Config, n: Id)
    requires n in config
    ensures n in Init(config).nodes && NamesWinner(Init(config).history, Init(config).nodes[n])
  {
  }

  /** Whoever leads a node's term, then or later, is the only leader the node can name. */
  lemma NamesTheLeader(config: Config, events: seq<Event>, more: seq<Event>, n: Id, b: Id)
    requires ValidConfig(config) && VotesKept(config, events + more)
    requires n in Run(config, events).nodes && b in Run(config, events + more).nodes
    requires Run(config, events + more).nodes[b].role == Leader
    requires Run(config, events + more).nodes[b].term == Run(config, events).nodes[n].term
    ensures Run(config, events).nodes[n].leaderId in ["", b]
    ensures Run(config, events + more).nodes[b].leaderId == b
  {
    hide Run, Good, ValidConfig, Runs.VotesKept, Durable, P.PeerLogOk, Replayed, Applied;
    KeptEarlier(config, events, more);
    Recovery.RunNodes(config, events);
    Recovery.RunNodes(config, events + more);
    RunNamesWinners(config, events, n);
    RunNamesWinners(config, events + more, b);
    RunGrows(config, events, more);
    NodeFacts(Run(config, events + more), b);
    OwnName(Run(config, events + more), b);
  }
}
