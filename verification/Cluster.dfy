/**
 A cluster with fixed membership. The network is a set of messages that only
 grows: any message may be delivered at any time, any number of times, or never.
 An event that is not possible changes nothing, so every sequence of events is a
 run. The history beside the nodes records what happened and steers nothing.
 */
module Cluster {
  import opened Entries
  import opened Logs
  import opened Machine
  import opened Nodes
  import P = Protocol

  /** One startElection goroutine: the arguments it sends and the peers that granted it a vote. */
  datatype Round = Round(args: VoteArgs, granted: set<Id>)

  datatype Message =
    | VoteRequest(to: Id, round: nat, args: VoteArgs)
    | VoteAnswer(from: Id, round: nat, args: VoteArgs, voteReply: VoteReply)
    | AppendRequest(to: Id, append: AppendArgs)
    | AppendAnswer(from: Id, append: AppendArgs, appendReply: AppendReply)
    | SnapshotRequest(to: Id, snapshot: SnapshotArgs)
    | SnapshotAnswer(from: Id, snapshot: SnapshotArgs, snapshotReply: SnapshotReply)

  datatype Cluster = Cluster(
    nodes: map<Id, Node>,
    messages: set<Message>,
    rounds: seq<Round>,
    launching: multiset<Id>,   // startElection goroutines that have not read their arguments yet
    skewed: bool,              // a snapshot was taken of something else than the applied entries
    history: P.History)

  datatype Event =
    | Stand(n: Id)                       // election timeout, candidacy
    | Launch(n: Id)                      // startElection reads its arguments and sends
    | Deliver(m: Message)
    | ClientSubmit(n: Id, command: Command)
    | Send(n: Id, p: Id)                 // a leader sends to one peer
    | QuorumCheck(n: Id, heard: nat)
    | Apply(n: Id)                       // the apply loop takes the next committed entry
    | Snapshot(n: Id, data: Store)       // the application hands over its state
    | Crash(n: Id)
    | CrashFollowing(m: Message)         // crash between becomeFollower and the rest of a handler
    | CrashSaving(n: Id, data: Store)    // crash inside TakeSnapshot, after the snapshot file
    | CrashInstalling(m: Message)        // crash inside HandleInstallSnapshot, after the snapshot file

  // ---------------------------------------------------------------- start

  type Config = map<Id, seq<Id>>

  ghost predicate Distinct(s: seq<Id>) {
    forall i, j :: 0 <= i < j < |s| ==> s[i] != s[j]
  }

  function PeerSet(peers: seq<Id>): set<Id> {
    set p | p in peers
  }

  /** Every node's peer list names each other member once. */
  ghost predicate ValidConfig(config: Config) {
    && "" !in config
    && forall n :: n in config ==> Distinct(config[n]) && PeerSet(config[n]) == config.Keys - {n}
  }

  ghost function Init(config: Config): Cluster {
    Cluster(map n | n in config :: NewNode(n, config[n], EMPTY_DISK),
            {}, [], multiset{}, false, P.Start(config.Keys))
  }

  // ---------------------------------------------------------------- steps

  ghost function WithNode(c: Cluster, n: Id, node: Node): Cluster {
    c.(nodes := c.nodes[n := node])
  }

  ghost function Reply(c: Cluster, m: Message): Cluster {
    c.(messages := c.messages + {m})
  }

  ghost function Record(c: Cluster, h: P.History): Cluster {
    c.(history := h)
  }

  /** The term a message can teach its receiver, and who that receiver is. */
  function TermOf(m: Message): nat {
    match m
    case VoteRequest(_, _, args) => args.term
    case VoteAnswer(_, _, _, reply) => reply.term
    case AppendRequest(_, args) => args.term
    case AppendAnswer(_, _, reply) => reply.term
    case SnapshotRequest(_, args) => args.term
    case SnapshotAnswer(_, _, reply) => reply.term
  }

  function Receiver(m: Message): Id {
    match m
    case VoteRequest(to, _, _) => to
    case VoteAnswer(_, _, args, _) => args.candidate
    case AppendRequest(to, _) => to
    case AppendAnswer(_, args, _) => args.leader
    case SnapshotRequest(to, _) => to
    case SnapshotAnswer(_, args, _) => args.leader
  }

  /** History of becomeFollower when a higher term is seen. */
  ghost function Followed(h: P.History, n: Id, term: nat): P.History
    requires n in h.peers
  {
    if term > h.peers[n].term then P.Follow(h, n, term) else h
  }

  ghost function OnStand(c: Cluster, n: Id): Cluster
    requires n in c.nodes && n in c.history.peers
  {
    Record(WithNode(c, n, BecomeCandidate(c.nodes[n])), P.Stand(c.history, n))
    .(launching := c.launching + multiset{n})
  }

  ghost function OnLaunch(c: Cluster, n: Id): Cluster
    requires n in c.nodes && |c.nodes[n].log| > 0
  {
    var args := BuildVoteArgs(c.nodes[n]);
    c.(launching := c.launching - multiset{n},
       rounds := c.rounds + [Round(args, {})],
       messages := c.messages + set p | p in c.nodes[n].peers :: VoteRequest(p, |c.rounds|, args))
  }

  ghost function OnVoteRequest(c: Cluster, n: Id, round: nat, args: VoteArgs): Cluster
    requires n in c.nodes && n in c.history.peers && |c.nodes[n].log| > 0
  {
    var (node, reply) := HandleRequestVote(c.nodes[n], args, false);
    var h := Followed(c.history, n, args.term);
    Record(Reply(WithNode(c, n, node), VoteAnswer(n, round, args, reply)),
           if reply.granted then
             P.Grant(h, n, P.Vote(args.term, n, args.candidate, args.lastTerm, args.lastIndex))
           else h)
  }

  ghost function OnVoteAnswer(c: Cluster, n: Id, from: Id, round: nat, reply: VoteReply): Cluster
    requires n in c.nodes && n in c.history.peers && |c.nodes[n].log| > 0 && round < |c.rounds|
  {
    var r := c.rounds[round];
    if from in r.granted then c
    else
      var (node, votes) := ReceiveVote(c.nodes[n], r.args.term, 1 + |r.granted|, reply);
      var granted := if votes > 1 + |r.granted| then r.granted + {from} else r.granted;
      var h := Followed(c.history, n, reply.term);
      Record(WithNode(c, n, node).(rounds := c.rounds[round := r.(granted := granted)]),
             if node.role == Leader && c.nodes[n].role != Leader then P.Win(h, n, granted + {n}) else h)
  }

  ghost function OnSubmit(c: Cluster, n: Id, command: Command): Cluster
    requires n in c.nodes && n in c.history.peers && |c.nodes[n].log| > 0 && c.nodes[n].role == Leader
  {
    var (node, index, term) := Submit(c.nodes[n], command);
    Record(WithNode(c, n, node), P.LeaderAppend(c.history, n, CommandEntry(term, index, command)))
  }

  ghost function OnSend(c: Cluster, n: Id, p: Id): Cluster
    requires n in c.nodes && |c.nodes[n].log| > 0
  {
    var node := c.nodes[n];
    Reply(c, if NeedsSnapshot(node, p) then SnapshotRequest(p, BuildSnapshotArgs(node))
             else AppendRequest(p, BuildArgs(node, p)))
  }

  ghost function OnQuorumCheck(c: Cluster, n: Id, heard: nat): Cluster
    requires n in c.nodes && n in c.history.peers
  {
    Record(WithNode(c, n, CheckQuorum(c.nodes[n], heard)),
           if StepsDown(c, n, heard) then P.Forget(c.history, n) else c.history)
  }

  /** The branch of checkQuorum that clears votedFor within the term. */
  predicate StepsDown(c: Cluster, n: Id, heard: nat)
    requires n in c.nodes
  {
    c.nodes[n].role == Leader && heard < Majority(c.nodes[n])
  }

  ghost function Accepted(h: P.History, n: Id, index: nat, commit: nat): P.History
    requires n in h.peers
  {
    if h.peers[n].term in h.leaderLog && index <= |h.leaderLog[h.peers[n].term]|
    then P.Accept(h, n, index, commit) else h
  }

  ghost function Heard(h: P.History, n: Id, term: nat): P.History
    requires n in h.peers
  {
    if term > h.peers[n].term then P.Follow(h, n, term)
    else if term == h.peers[n].term && h.peers[n].role == Candidate then P.StepBack(h, n)
    else h
  }

  ghost function OnAppendRequest(c: Cluster, n: Id, args: AppendArgs): Cluster
    requires n in c.nodes && n in c.history.peers && |c.nodes[n].log| > 0
  {
    var (node, reply) := HandleAppendEntries(c.nodes[n], args);
    var h := Heard(c.history, n, args.term);
    Record(Reply(WithNode(c, n, node), AppendAnswer(n, args, reply)),
           if reply.success then Accepted(h, n, args.prevIndex + |args.entries|, node.commitIndex) else h)
  }

  /** The nodes whose progress reaches an index, the leader itself included. */
  ghost function Holders(node: Node, index: nat): set<Id> {
    {node.id} + set p | p in node.peers && Index(node.matchIndex, p) >= index
  }

  ghost function OnAppendAnswer(c: Cluster, n: Id, from: Id, args: AppendArgs, reply: AppendReply): Cluster
    requires n in c.nodes && n in c.history.peers && |c.nodes[n].log| > 0
  {
    var node := ReceiveAppendReply(c.nodes[n], from, args.term, args, reply);
    var h := Followed(c.history, n, reply.term);
    Record(WithNode(c, n, node),
           if node.commitIndex > c.nodes[n].commitIndex
           then P.Advance(h, n, node.commitIndex, Holders(node, node.commitIndex)) else h)
  }

  ghost function Installed(h: P.History, n: Id, args: SnapshotArgs): P.History
    requires n in h.peers
  {
    var p := h.peers[n];
    if args.term != p.term || p.term !in h.leaderLog || args.lastIndex > |h.leaderLog[p.term]| then h
    else P.Confirm(if args.lastIndex > p.base then P.Install(h, n, args.lastIndex) else h, n, args.lastIndex)
  }

  ghost function OnSnapshotRequest(c: Cluster, n: Id, args: SnapshotArgs): Cluster
    requires n in c.nodes && n in c.history.peers && |c.nodes[n].log| > 0
  {
    var (node, reply) := HandleInstallSnapshot(c.nodes[n], args);
    Record(Reply(WithNode(c, n, node), SnapshotAnswer(n, args, reply)),
           Installed(Followed(c.history, n, args.term), n, args))
  }

  ghost function OnSnapshotAnswer(c: Cluster, n: Id, from: Id, args: SnapshotArgs, reply: SnapshotReply): Cluster
    requires n in c.nodes && n in c.history.peers
  {
    Record(WithNode(c, n, ReceiveSnapshotReply(c.nodes[n], from, args.term, args, reply)),
           Followed(c.history, n, reply.term))
  }

  /** The bytes are not the state after the entries the snapshot is taken to cover. */
  ghost predicate Skews(c: Cluster, n: Id, data: Store)
    requires n in c.nodes && n in c.history.peers && |c.nodes[n].log| > 0
  {
    var node, log := c.nodes[n], c.history.peers[n].log;
    SnapshotIndex(node.log) < node.lastApplied <= |log| && data != Replay(log[..node.lastApplied])
  }

  ghost function OnSnapshot(c: Cluster, n: Id, data: Store): Cluster
    requires n in c.nodes && n in c.history.peers && |c.nodes[n].log| > 0
  {
    var node := TakeSnapshot(c.nodes[n], data);
    Record(WithNode(c, n, node), P.Compact(c.history, n, SnapshotIndex(node.log)))
    .(skewed := c.skewed || Skews(c, n, data))
  }

  /** The node comes back from whatever its disk holds; its goroutines are gone. */
  ghost function OnCrash(c: Cluster, n: Id): Cluster
    requires n in c.nodes && n in c.history.peers && Usable(c.nodes[n])
  {
    Record(WithNode(c, n, Reboot(c.nodes[n])), P.Restart(c.history, n))
    .(launching := c.launching[n := 0])
  }

  /** A crash after becomeFollower persisted the higher term and before anything else did. */
  ghost function OnCrashFollowing(c: Cluster, n: Id, term: nat): Cluster
    requires n in c.nodes && n in c.history.peers && Usable(c.nodes[n])
  {
    OnCrash(Record(WithNode(c, n, BecomeFollower(c.nodes[n], term)), P.Follow(c.history, n, term)), n)
  }

  /** A crash after saveSnapshot and before persist: the two files disagree. */
  ghost function OnCrashSaving(c: Cluster, n: Id, data: Store): Cluster
    requires n in c.nodes && n in c.history.peers && Usable(c.nodes[n])
  {
    var node := c.nodes[n];
    var saved :=
      if node.lastApplied == 0 || node.lastApplied <= SnapshotIndex(node.log) then node
      else SaveSnapshot(node, node.lastApplied, Get(node.log, node.lastApplied).term, data);
    var h := P.Compact(c.history, n, SnapshotIndex(TakeSnapshot(node, data).log));
    OnCrash(Record(WithNode(c, n, saved), h), n).(skewed := c.skewed || Skews(c, n, data))
  }

  ghost function OnCrashInstalling(c: Cluster, n: Id, args: SnapshotArgs): Cluster
    requires n in c.nodes && n in c.history.peers && Usable(c.nodes[n])
  {
    var node := if args.term > c.nodes[n].term then BecomeFollower(c.nodes[n], args.term) else c.nodes[n];
    var h := Followed(c.history, n, args.term);
    if args.term < node.term || args.lastIndex <= SnapshotIndex(node.log) then OnCrash(Record(WithNode(c, n, node), h), n)
    else
      OnCrash(Record(WithNode(c, n, SaveSnapshot(node, args.lastIndex, args.lastTerm, args.data)), Installed(h, n, args)), n)
  }

  ghost function OnDeliver(c: Cluster, m: Message): Cluster
    requires Receiver(m) in c.nodes && Receiver(m) in c.history.peers && |c.nodes[Receiver(m)].log| > 0
  {
    match m
    case VoteRequest(to, round, args) => OnVoteRequest(c, to, round, args)
    case VoteAnswer(from, round, args, reply) =>
      if round < |c.rounds| then OnVoteAnswer(c, args.candidate, from, round, reply) else c
    case AppendRequest(to, args) => OnAppendRequest(c, to, args)
    case AppendAnswer(from, args, reply) => OnAppendAnswer(c, args.leader, from, args, reply)
    case SnapshotRequest(to, args) => OnSnapshotRequest(c, to, args)
    case SnapshotAnswer(from, args, reply) => OnSnapshotAnswer(c, args.leader, from, args, reply)
  }

  /** Is n a running node? Always so for members; the history mirrors the nodes. */
  ghost predicate Live(c: Cluster, n: Id) {
    n in c.nodes && n in c.history.peers && Usable(c.nodes[n])
  }

  /** One event. An event that cannot happen leaves the cluster as it is. */
  ghost function Next(c: Cluster, e: Event): Cluster {
    match e
    case Stand(n) => if Live(c, n) && MayStand(c.nodes[n]) then OnStand(c, n) else c
    case Launch(n) => if Live(c, n) && n in c.launching then OnLaunch(c, n) else c
    case Deliver(m) => if m in c.messages && Live(c, Receiver(m)) then OnDeliver(c, m) else c
    case ClientSubmit(n, command) => if Live(c, n) && c.nodes[n].role == Leader then OnSubmit(c, n, command) else c
    case Send(n, p) =>
      if Live(c, n) && c.nodes[n].role == Leader && p in c.nodes[n].peers then OnSend(c, n, p) else c
    case QuorumCheck(n, heard) => if Live(c, n) then OnQuorumCheck(c, n, heard) else c
    case Apply(n) => if Live(c, n) && CanApply(c.nodes[n]) then WithNode(c, n, TakeNext(c.nodes[n])) else c
    case Snapshot(n, data) => if Live(c, n) then OnSnapshot(c, n, data) else c
    case Crash(n) => if Live(c, n) then OnCrash(c, n) else c
    case CrashFollowing(m) =>
      if m in c.messages && Live(c, Receiver(m)) && TermOf(m) > c.nodes[Receiver(m)].term
      then OnCrashFollowing(c, Receiver(m), TermOf(m)) else c
    case CrashSaving(n, data) => if Live(c, n) then OnCrashSaving(c, n, data) else c
    case CrashInstalling(m) =>
      if m in c.messages && m.SnapshotRequest? && Live(c, m.to) then OnCrashInstalling(c, m.to, m.snapshot) else c
  }

  /** The cluster after a sequence of events. */
  ghost function Run(config: Config, events: seq<Event>): Cluster {
    if |events| == 0 then Init(config)
    else Next(Run(config, events[..|events| - 1]), events[|events| - 1])
  }
}
