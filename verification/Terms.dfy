/**
 How terms travel. Every answer carries the term of the node that gave it, every
 message that reaches a node raises its term to the message's, and a raised term
 makes a follower. So a node left behind learns of it from any reply.
 */
module Terms {
  import opened Entries
  import opened Logs
  import opened Machine
  import opened Nodes
  import opened Cluster
  import Recovery
  import P = Protocol

  // ---------------------------------------------------------------- the three handlers

  /** The node has given no vote in the request's term, or gave it to the same candidate. */
  predicate VoteFree(n: Node, args: VoteArgs) {
    args.term > n.term || (args.term == n.term && n.votedFor in ["", args.candidate])
  }

  /** RequestVote of Figure 2: granted exactly to an up-to-date candidate whose term leaves the vote free. */
  lemma VoteRule(n: Node, args: VoteArgs, heardLeader: bool)
    requires |n.log| > 0 && !args.isPreVote
    ensures var (n', reply) := HandleRequestVote(n, args, heardLeader);
            && reply.term == n'.term == Max(n.term, args.term)
            && (reply.granted <==> VoteFree(n, args) && UpToDate(args, n.log))
            && n'.votedFor == (if reply.granted then args.candidate else if args.term > n.term then "" else n.votedFor)
            && n'.role == (if args.term > n.term then Follower else n.role)
            && n'.log == n.log && n'.commitIndex == n.commitIndex
  {
    hide UpToDate;
  }

  /** Asking again gets the same answer and changes nothing more. */
  lemma VoteRepeats(n: Node, args: VoteArgs, heardLeader: bool, again: bool)
    requires |n.log| > 0 && !args.isPreVote && args.candidate != ""
    ensures var (n', reply) := HandleRequestVote(n, args, heardLeader);
            && |n'.log| > 0 && HandleRequestVote(n', args, again).1 == reply
            && HandleRequestVote(n', args, again).0.votedFor == n'.votedFor
  {
    hide UpToDate;
  }

  /** A probe asks for the vote its sender would request as a candidate, and commits nobody to anything. */
  lemma ProbeRule(candidate: Node, n: Node, heardLeader: bool)
    requires |candidate.log| > 0 && |n.log| > 0
    ensures var probe := BuildPreVoteArgs(candidate);
            var request := BuildVoteArgs(BecomeCandidate(candidate));
            var (n', reply) := HandleRequestVote(n, probe, heardLeader);
            && probe == request.(isPreVote := true) && n' == n && reply.term == n.term
            && (reply.granted <==> !heardLeader && UpToDate(request, n.log))
            && (reply.granted && VoteFree(n, request) ==> HandleRequestVote(n, request, heardLeader).1.granted)
  {
    VoteRule(n, BuildVoteArgs(BecomeCandidate(candidate)), heardLeader);
  }

  /** Appending and installing: the answer's term, the step down, and whom the node follows from then on. */
  lemma AppendRule(n: Node, args: AppendArgs)
    requires |n.log| > 0
    ensures var (n', reply) := HandleAppendEntries(n, args);
            && reply.term == n'.term == Max(n.term, args.term)
            && (reply.success ==> args.term >= n.term)
            && n'.votedFor == (if args.term > n.term then "" else n.votedFor)
            && n'.role == (if args.term > n.term || (args.term == n.term && n.role == Candidate) then Follower else n.role)
            && n'.leaderId == if args.term >= n.term then args.leader else n.leaderId
  {
    hide AppendLoop, Get, FirstIndexForTerm, LastIndex;
  }

  lemma InstallRule(n: Node, args: SnapshotArgs)
    requires |n.log| > 0
    ensures var (n', reply) := HandleInstallSnapshot(n, args);
            && reply.term == n'.term == Max(n.term, args.term)
            && n'.votedFor == (if args.term > n.term then "" else n.votedFor)
            && n'.role == (if args.term > n.term then Follower else n.role)
            && n'.leaderId == if args.term >= n.term then args.leader else n.leaderId
  {
    hide CompactTo;
  }

  /** Every kind of reply with a higher term makes a follower of that term. */
  lemma RepliesRule(n: Node, p: Id, asked: nat, votes: nat, vote: VoteReply, append: AppendArgs, appended: AppendReply,
        snapshot: SnapshotArgs, installed: SnapshotReply)
    requires |n.log| > 0
    ensures var n' := ReceiveVote(n, asked, votes, vote).0;
            n'.term == Max(n.term, vote.term) && (vote.term > n.term ==> n'.role == Follower && n'.votedFor == "")
    ensures var n' := ReceiveAppendReply(n, p, asked, append, appended);
            n'.term == Max(n.term, appended.term) && (appended.term > n.term ==> n'.role == Follower && n'.votedFor == "")
    ensures var n' := ReceiveSnapshotReply(n, p, asked, snapshot, installed);
            n'.term == Max(n.term, installed.term) && (installed.term > n.term ==> n'.role == Follower && n'.votedFor == "")
  {
    hide BackUp, QuorumIndex;
  }

  // ---------------------------------------------------------------- what holds in every run

  ghost predicate VoteMessage(m: Message, rounds: nat) {
    (m.VoteRequest? || m.VoteAnswer?) ==> m.round < rounds && !m.args.isPreVote
  }

  /** Members keep their place in the history, and vote messages belong to a round that was launched. */
  ghost predicate Placed(c: Cluster) {
    && c.nodes.Keys == c.history.peers.Keys
    && forall m :: m in c.messages ==> VoteMessage(m, |c.rounds|)
  }

  lemma MessagesPlaced(c: Cluster, c': Cluster, sent: set<Message>)
    requires Placed(c) && c'.messages <= c.messages + sent && |c.rounds| <= |c'.rounds|
    requires c'.nodes.Keys == c'.history.peers.Keys && forall m :: m in sent ==> VoteMessage(m, |c'.rounds|)
    ensures Placed(c')
  {
  }

  lemma DeliveryPlaced(c: Cluster, m: Message)
    requires Placed(c) && m in c.messages && Live(c, Receiver(m))
    ensures Placed(OnDeliver(c, m))
  {
    hide Placed, OnVoteRequest, OnVoteAnswer, OnAppendRequest, OnAppendAnswer, OnSnapshotRequest, OnSnapshotAnswer;
    match m
    case VoteRequest(_, _, _) => VotePlaced(c, m);
    case VoteAnswer(_, _, _, _) => VotePlaced(c, m);
    case AppendRequest(_, _) => AppendPlaced(c, m);
    case AppendAnswer(_, _, _) => AppendPlaced(c, m);
    case SnapshotRequest(_, _) => SnapshotPlaced(c, m);
    case SnapshotAnswer(_, _, _) => SnapshotPlaced(c, m);
  }

  lemma VotePlaced(c: Cluster, m: Message)
    requires Placed(c) && m in c.messages && Live(c, Receiver(m)) && (m.VoteRequest? || m.VoteAnswer?)
    ensures Placed(OnDeliver(c, m))
  {
    hide HandleRequestVote, ReceiveVote, VoteMessage;
    assert VoteMessage(m, |c.rounds|);
    if m.VoteRequest? {
      var reply := HandleRequestVote(c.nodes[m.to], m.args, false).1;
      AnswerPlaced(m.to, m.round, m.args, reply, |c.rounds|);
      MessagesPlaced(c, OnDeliver(c, m), {VoteAnswer(m.to, m.round, m.args, reply)});
    } else {
      MessagesPlaced(c, OnDeliver(c, m), {});
    }
  }

  lemma AppendPlaced(c: Cluster, m: Message)
    requires Placed(c) && m in c.messages && Live(c, Receiver(m)) && (m.AppendRequest? || m.AppendAnswer?)
    ensures Placed(OnDeliver(c, m))
  {
    hide HandleAppendEntries, ReceiveAppendReply, Holders, VoteMessage;
    if m.AppendRequest? {
      OthersPlaced(|c.rounds|);
      MessagesPlaced(c, OnDeliver(c, m), {AppendAnswer(m.to, m.append, HandleAppendEntries(c.nodes[m.to], m.append).1)});
    } else {
      MessagesPlaced(c, OnDeliver(c, m), {});
    }
  }

  lemma SnapshotPlaced(c: Cluster, m: Message)
    requires Placed(c) && m in c.messages && Live(c, Receiver(m)) && (m.SnapshotRequest? || m.SnapshotAnswer?)
    ensures Placed(OnDeliver(c, m))
  {
    hide HandleInstallSnapshot, ReceiveSnapshotReply, VoteMessage;
    if m.SnapshotRequest? {
      OthersPlaced(|c.rounds|);
      MessagesPlaced(c, OnDeliver(c, m), {SnapshotAnswer(m.to, m.snapshot, HandleInstallSnapshot(c.nodes[m.to], m.snapshot).1)});
    } else {
      MessagesPlaced(c, OnDeliver(c, m), {});
    }
  }

  lemma AnswerPlaced(to: Id, round: nat, args: VoteArgs, reply: VoteReply, rounds: nat)
    requires VoteMessage(VoteRequest(to, round, args), rounds)
    ensures VoteMessage(VoteAnswer(to, round, args, reply), rounds)
  {
  }

  lemma OthersPlaced(rounds: nat)
    ensures forall m: Message :: !m.VoteRequest? && !m.VoteAnswer? ==> VoteMessage(m, rounds)
  {
  }

  lemma LaunchPlaced(c: Cluster, n: Id)
    requires Placed(c) && n in c.nodes && |c.nodes[n].log| > 0
    ensures Placed(OnLaunch(c, n))
  {
    var args := BuildVoteArgs(c.nodes[n]);
    MessagesPlaced(c, OnLaunch(c, n), set p | p in c.nodes[n].peers :: VoteRequest(p, |c.rounds|, args));
  }

  lemma SendPlaced(c: Cluster, n: Id, p: Id)
    requires Placed(c) && n in c.nodes && |c.nodes[n].log| > 0
    ensures Placed(OnSend(c, n, p))
  {
    hide BuildArgs, BuildSnapshotArgs, NeedsSnapshot;
    OthersPlaced(|c.rounds|);
  }

  lemma RestartPlaced(c: Cluster, n: Id)
    requires Placed(c) && n in c.nodes && n in c.history.peers && Usable(c.nodes[n])
    ensures Placed(OnCrash(c, n))
  {
    hide Reboot, VoteMessage;
  }

  /** The same members and messages. */
  lemma RecordedPlaced(c: Cluster, n: Id, node: Node, h: P.History)
    requires Placed(c) && n in c.nodes && h.peers.Keys == c.history.peers.Keys
    ensures Placed(Record(WithNode(c, n, node), h))
  {
    hide VoteMessage;
  }

  lemma CrashPlaced(c: Cluster, e: Event)
    requires Placed(c) && (e.Crash? || e.CrashFollowing? || e.CrashSaving? || e.CrashInstalling?)
    ensures Placed(Next(c, e))
  {
    hide Placed, OnCrash, OnCrashFollowing, OnCrashSaving, OnCrashInstalling;
    match e
    case Crash(n) =>
      if Live(c, n) { RestartPlaced(c, n); }
    case CrashFollowing(m) =>
      if Live(c, Receiver(m)) { FollowingPlaced(c, Receiver(m), TermOf(m)); }
    case CrashSaving(n, data) =>
      if Live(c, n) { SavingPlaced(c, n, data); }
    case CrashInstalling(m) =>
      if m.SnapshotRequest? && Live(c, m.to) { InstallingPlaced(c, m.to, m.snapshot); }
  }

  lemma FollowingPlaced(c: Cluster, n: Id, term: nat)
    requires Placed(c) && Live(c, n)
    ensures Placed(OnCrashFollowing(c, n, term))
  {
    hide Placed, OnCrash;
    var node, h := BecomeFollower(c.nodes[n], term), P.Follow(c.history, n, term);
    RecordedPlaced(c, n, node, h);
    RestartPlaced(Record(WithNode(c, n, node), h), n);
  }

  lemma SavingPlaced(c: Cluster, n: Id, data: Store)
    requires Placed(c) && Live(c, n)
    ensures Placed(OnCrashSaving(c, n, data))
  {
    hide OnCrash, CompactTo, Get, Skews, VoteMessage;
    var node := c.nodes[n];
    var saved :=
      if node.lastApplied == 0 || node.lastApplied <= SnapshotIndex(node.log) then node
      else SaveSnapshot(node, node.lastApplied, Get(node.log, node.lastApplied).term, data);
    var h := P.Compact(c.history, n, SnapshotIndex(TakeSnapshot(node, data).log));
    RecordedPlaced(c, n, saved, h);
    RestartPlaced(Record(WithNode(c, n, saved), h), n);
  }

  lemma InstallingPlaced(c: Cluster, n: Id, args: SnapshotArgs)
    requires Placed(c) && Live(c, n)
    ensures Placed(OnCrashInstalling(c, n, args))
  {
    hide Placed, OnCrash;
    var node := if args.term > c.nodes[n].term then BecomeFollower(c.nodes[n], args.term) else c.nodes[n];
    var h := Followed(c.history, n, args.term);
    var saved := SaveSnapshot(node, args.lastIndex, args.lastTerm, args.data);
    RecordedPlaced(c, n, node, h);
    RestartPlaced(Record(WithNode(c, n, node), h), n);
    RecordedPlaced(c, n, saved, Installed(h, n, args));
    RestartPlaced(Record(WithNode(c, n, saved), Installed(h, n, args)), n);
  }

  lemma NextPlaced(c: Cluster, e: Event)
    requires Placed(c)
    ensures Placed(Next(c, e))
  {
    hide OnDeliver, OnLaunch, OnSend, CompactTo, Get, Skews, VoteMessage;
    if e.Crash? || e.CrashFollowing? || e.CrashSaving? || e.CrashInstalling? {
      hide Next;
      CrashPlaced(c, e);
    } else {
      match e
      case Deliver(m) =>
        if m in c.messages && Live(c, Receiver(m)) { DeliveryPlaced(c, m); }
      case Launch(n) =>
        if Live(c, n) { LaunchPlaced(c, n); }
      case Send(n, p) =>
        if Live(c, n) { SendPlaced(c, n, p); }
      case _ => MessagesPlaced(c, Next(c, e), {});
    }
  }

  lemma {:induction false} RunPlaced(config: Config, events: seq<Event>)
    ensures Placed(Run(config, events))
    ensures forall n :: n in Run(config, events).nodes ==> Live(Run(config, events), n)
  {
    hide Next, Placed;
    if |events| > 0 {
      RunPlaced(config, events[..|events| - 1]);
      NextPlaced(Run(config, events[..|events| - 1]), events[|events| - 1]);
    } else {
      StartPlaced(config);
    }
    AllLive(config, events);
  }

  lemma StartPlaced(config: Config)
    ensures Placed(Init(config))
  {
  }

  lemma AllLive(config: Config, events: seq<Event>)
    requires Placed(Run(config, events))
    ensures forall n :: n in Run(config, events).nodes ==> Live(Run(config, events), n)
  {
    hide Run;
    Recovery.RunAllDurable(config, events);
    var c := Run(config, events);
    forall n | n in c.nodes
      ensures Live(c, n)
    {
      assert n in c.history.peers.Keys;
      assert Recovery.Durable(c.nodes[n]);
    }
  }

  // ---------------------------------------------------------------- deliveries

  /** A vote answer the round has counted already: the call it would return to is over. */
  predicate Counted(c: Cluster, m: Message) {
    m.VoteAnswer? && m.round < |c.rounds| && m.from in c.rounds[m.round].granted
  }

  lemma DeliveredTo(c: Cluster, m: Message)
    requires Placed(c) && m in c.messages && Live(c, Receiver(m)) && !Counted(c, m)
    ensures var x, r := c.nodes[Receiver(m)], Receiver(m);
            && r in OnDeliver(c, m).nodes
            && var x' := OnDeliver(c, m).nodes[r];
               x'.term == Max(x.term, TermOf(m)) && (TermOf(m) > x.term ==> x'.role == Follower)
  {
    hide HandleRequestVote, ReceiveVote, HandleAppendEntries, ReceiveAppendReply, HandleInstallSnapshot,
         ReceiveSnapshotReply, Holders;
    assert VoteMessage(m, |c.rounds|);
    var x := c.nodes[Receiver(m)];
    var noAppend, noSnapshot := AppendArgs(0, "", 0, 0, [], 0), SnapshotArgs(0, "", 0, 0, map[]);
    match m
    case VoteRequest(_, _, args) => VoteRule(x, args, false);
    case AppendRequest(_, args) => AppendRule(x, args);
    case SnapshotRequest(_, args) => InstallRule(x, args);
    case VoteAnswer(_, i, _, reply) =>
      RepliesRule(x, "", c.rounds[i].args.term, 1 + |c.rounds[i].granted|, reply, noAppend, AppendReply(0, false, 0, 0),
                  noSnapshot, SnapshotReply(0));
    case AppendAnswer(from, args, reply) =>
      RepliesRule(x, from, args.term, 0, VoteReply(0, false), args, reply, noSnapshot, SnapshotReply(0));
    case SnapshotAnswer(from, args, reply) =>
      RepliesRule(x, from, args.term, 0, VoteReply(0, false), noAppend, AppendReply(0, false, 0, 0), args, reply);
  }

  /** The golden rule: whatever reaches a node raises its term to its own, and a raised term makes a follower. */
  lemma GoldenRule(config: Config, events: seq<Event>, m: Message)
    requires m in Run(config, events).messages && Receiver(m) in Run(config, events).nodes
    requires !Counted(Run(config, events), m)
    ensures var x, r := Run(config, events).nodes[Receiver(m)], Receiver(m);
            var c' := Run(config, events + [Deliver(m)]);
            && r in c'.nodes && c'.nodes[r].term == Max(x.term, TermOf(m))
            && (TermOf(m) > x.term ==> c'.nodes[r].role == Follower)
  {
    hide Run, OnDeliver, Placed;
    RunPlaced(config, events);
    RunDelivers(config, events, m);
    DeliveredTo(Run(config, events), m);
  }

  lemma RunDelivers(config: Config, events: seq<Event>, m: Message)
    requires m in Run(config, events).messages && Live(Run(config, events), Receiver(m))
    ensures Run(config, events + [Deliver(m)]) == OnDeliver(Run(config, events), m)
  {
    hide OnDeliver;
    assert (events + [Deliver(m)])[..|events|] == events;
  }

  /** The answer a request gets. */
  ghost function AnswerTo(c: Cluster, m: Message): Message
    requires (m.VoteRequest? || m.AppendRequest? || m.SnapshotRequest?) && m.to in c.nodes && |c.nodes[m.to].log| > 0
  {
    match m
    case VoteRequest(to, round, args) => VoteAnswer(to, round, args, HandleRequestVote(c.nodes[to], args, false).1)
    case AppendRequest(to, args) => AppendAnswer(to, args, HandleAppendEntries(c.nodes[to], args).1)
    case SnapshotRequest(to, args) => SnapshotAnswer(to, args, HandleInstallSnapshot(c.nodes[to], args).1)
  }

  lemma AnswerCarriesTerm(c: Cluster, m: Message)
    requires Placed(c) && m in c.messages && Live(c, Receiver(m)) && (m.VoteRequest? || m.AppendRequest? || m.SnapshotRequest?)
    ensures var c' := OnDeliver(c, m);
            && AnswerTo(c, m) in c'.messages && m.to in c'.nodes && TermOf(AnswerTo(c, m)) == c'.nodes[m.to].term
  {
    hide HandleRequestVote, HandleAppendEntries, HandleInstallSnapshot;
    assert VoteMessage(m, |c.rounds|);
    var x := c.nodes[m.to];
    match m
    case VoteRequest(_, _, args) => VoteRule(x, args, false);
    case AppendRequest(_, args) => AppendRule(x, args);
    case SnapshotRequest(_, args) => InstallRule(x, args);
  }

  /**
   A sender left behind steps down: the answer to its request carries the answering node's term, and
   whenever it arrives at a sender still below that term, the sender is a follower of that term.
   */
  lemma StaleSenderStepsDown(config: Config, events: seq<Event>, m: Message, more: seq<Event>) returns (answer: Message)
    requires m in Run(config, events).messages && (m.VoteRequest? || m.AppendRequest? || m.SnapshotRequest?)
    requires m.to in Run(config, events).nodes
    ensures var c := Run(config, events + [Deliver(m)]);
            answer in c.messages && m.to in c.nodes && TermOf(answer) == c.nodes[m.to].term >= TermOf(m)
    ensures var c, d, r := Run(config, events + [Deliver(m)]), Run(config, events + [Deliver(m)] + more), Receiver(answer);
            r in d.nodes && d.nodes[r].term < c.nodes[m.to].term && !Counted(d, answer) ==>
              && answer in d.messages
              && var d' := Run(config, events + [Deliver(m)] + more + [Deliver(answer)]);
                 r in d'.nodes && d'.nodes[r].role == Follower && d'.nodes[r].term == c.nodes[m.to].term
  {
    hide Run, OnDeliver, Placed, TermOf;
    RunPlaced(config, events);
    var c := Run(config, events);
    answer := AnswerTo(c, m);
    RunDelivers(config, events, m);
    AnswerCarriesTerm(c, m);
    GoldenRule(config, events, m) by {
      assert !Counted(c, m);
    }
    var known := events + [Deliver(m)];
    MessagesStay(config, known, more, answer);
    var d, r := Run(config, known + more), Receiver(answer);
    if r in d.nodes && !Counted(d, answer) {
      GoldenRule(config, known + more, answer);
    }
  }

  lemma {:induction false} MessagesStay(config: Config, events: seq<Event>, more: seq<Event>, m: Message)
    requires m in Run(config, events).messages
    ensures m in Run(config, events + more).messages
  {
    hide Next;
    if |more| == 0 {
      assert events + more == events;
    } else {
      var less, e := more[..|more| - 1], more[|more| - 1];
      MessagesStay(config, events, less, m);
      assert (events + more)[..|events + more| - 1] == events + less;
      NothingLost(Run(config, events + less), e);
    }
  }

  lemma NothingLost(c: Cluster, e: Event)
    ensures c.messages <= Next(c, e).messages
  {
    hide HandleRequestVote, ReceiveVote, HandleAppendEntries, ReceiveAppendReply, HandleInstallSnapshot, ReceiveSnapshotReply,
         Holders, Reboot, CompactTo, Get, Skews, BuildArgs, BuildSnapshotArgs, TakeSnapshot, BecomeFollower, SaveSnapshot;
  }
}
