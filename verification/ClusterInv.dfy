/** What ties the nodes and messages of a cluster to the history of the protocol. */
module ClusterInv {
  import opened Entries
  import opened Logs
  import opened Machine
  import opened Nodes
  import opened Cluster
  import P = Protocol

  // ---------------------------------------------------------------- nodes

  ghost predicate PeerList(members: set<Id>, n: Id, peers: seq<Id>) {
    n in members && Distinct(peers) && PeerSet(peers) == members - {n}
  }

  /** The node is the protocol's peer with its log compacted. */
  ghost predicate Mirrors(node: Node, p: P.Peer) {
    && node.term == p.term
    && node.votedFor == p.vote
    && node.role == p.role
    && node.commitIndex == p.commit
    && p.base <= |p.log|
    && node.log == Compacted(p.log, p.base)
  }

  /** The disk alone suffices to rebuild term, vote, log and boundary. */
  ghost predicate Stored(node: Node, p: P.Peer) {
    && p.base <= |p.log|
    && node.disk.term == p.term
    && node.disk.votedFor == p.vote
    && |node.disk.entries| > 0
    && node.disk.snapshot.index == p.base
    && node.disk.snapshot.term == TermAt(p.log, p.base)
    && (if p.base == 0 then node.disk.entries
        else CompactTo(node.disk.entries, p.base, TermAt(p.log, p.base))) == Compacted(p.log, p.base)
  }

  ghost predicate Applied(node: Node, p: P.Peer) {
    p.base <= node.lastApplied <= p.commit && p.commit <= |p.log|
  }

  /** The snapshots kept are the state after the entries they cover. */
  ghost predicate Replayed(node: Node, p: P.Peer)
    requires Applied(node, p)
  {
    && (p.base > 0 ==> node.snapshotData == Replay(p.log[..p.base]))
    && (p.base > 0 ==> node.disk.snapshot.data == Replay(p.log[..p.base]))
  }

  /** A count may rely on this progress: it was confirmed, or it is committed already. */
  ghost predicate Sound(h: P.History, q: Id, term: nat, index: nat) {
    index == 0
    || (P.Ack(q, term, index) in h.matched
        && (P.Ack(q, term, index) in h.acks || exists cm :: cm in h.commits && Reaches(cm, term, index)))
  }

  predicate Reaches(cm: P.Commit, term: nat, index: nat) {
    cm.term <= term && index <= cm.index
  }

  ghost predicate Tracking(h: P.History, node: Node) {
    node.role == Leader ==> forall q :: q in node.peers ==>
      Sound(h, q, node.term, Index(node.matchIndex, q)) && Index(node.nextIndex, q) >= 1
  }

  ghost predicate NodeOk(h: P.History, n: Id, node: Node, intact: bool) {
    && n in h.peers
    && node.id == n
    && PeerList(h.members, n, node.peers)
    && Mirrors(node, h.peers[n])
    && Stored(node, h.peers[n])
    && Applied(node, h.peers[n])
    && (intact ==> Replayed(node, h.peers[n]))
    && Tracking(h, node)
  }

  // ---------------------------------------------------------------- messages

  ghost predicate FromLeader(h: P.History, term: nat, leader: Id, to: Id) {
    && term in h.elected
    && term in h.leaderLog
    && h.elected[term].leader == leader
    && leader in h.members
    && to in h.members
    && to != leader
  }

  /** Such a message is always rejected: its previous index lies past the leader's own log. */
  predicate Hopeless(args: AppendArgs) {
    args.prevIndex > 0 && args.prevTerm == 0 && args.entries == []
  }

  /** The message is a slice of the leader's log, and its commit index lies within that slice. */
  ghost predicate LeaderSlice(ll: P.LeaderLogs, commits: set<P.Commit>, args: AppendArgs)
    requires args.term in ll
  {
    var lead := ll[args.term];
    var last := args.prevIndex + |args.entries|;
    && last <= |lead|
    && args.prevTerm == TermAt(lead, args.prevIndex)
    && args.entries == lead[args.prevIndex..last]
    && args.leaderCommit <= last
    && P.Covered(ll, commits, lead, args.leaderCommit, args.term)
  }

  ghost predicate AppendOk(h: P.History, args: AppendArgs, to: Id) {
    && FromLeader(h, args.term, args.leader, to)
    && (Hopeless(args) || LeaderSlice(h.leaderLog, h.commits, args))
  }

  ghost predicate SnapshotOk(h: P.History, args: SnapshotArgs, to: Id, intact: bool) {
    && FromLeader(h, args.term, args.leader, to)
    && args.lastIndex <= |h.leaderLog[args.term]|
    && args.lastTerm == TermAt(h.leaderLog[args.term], args.lastIndex)
    && P.Covered(h.leaderLog, h.commits, h.leaderLog[args.term], args.lastIndex, args.term)
    && (intact && args.lastIndex > 0 ==> args.data == Replay(h.leaderLog[args.term][..args.lastIndex]))
  }

  function VoteFor(args: VoteArgs, voter: Id): P.Vote {
    P.Vote(args.term, voter, args.candidate, args.lastTerm, args.lastIndex)
  }

  ghost predicate Requested(h: P.History, rounds: seq<Round>, round: nat, args: VoteArgs, to: Id) {
    round < |rounds| && rounds[round].args == args && to in h.members && to != args.candidate
  }

  ghost predicate MessageOk(h: P.History, rounds: seq<Round>, m: Message, intact: bool) {
    match m
    case VoteRequest(to, round, args) => Requested(h, rounds, round, args, to)
    case VoteAnswer(from, round, args, reply) =>
      && Requested(h, rounds, round, args, from)
      && (reply.granted ==> reply.term == args.term && VoteFor(args, from) in h.votes)
    case AppendRequest(to, args) => AppendOk(h, args, to)
    case AppendAnswer(from, args, reply) =>
      && AppendOk(h, args, from)
      && args.term <= reply.term
      && (reply.success ==>
            && reply.term == args.term
            && LeaderSlice(h.leaderLog, h.commits, args)
            && Sound(h, from, args.term, args.prevIndex + |args.entries|))
    case SnapshotRequest(to, args) => SnapshotOk(h, args, to, intact)
    case SnapshotAnswer(from, args, reply) =>
      && SnapshotOk(h, args, from, intact)
      && args.term <= reply.term
      && (reply.term == args.term ==> Sound(h, from, args.term, args.lastIndex))
  }

  // ---------------------------------------------------------------- rounds

  ghost predicate RoundOk(h: P.History, r: Round) {
    && !r.args.isPreVote
    && r.args.candidate in h.peers
    && r.args.term <= h.peers[r.args.candidate].term
    && (forall g :: g in r.granted ==> g in h.members && g != r.args.candidate && VoteFor(r.args, g) in h.votes)
    && (var p := h.peers[r.args.candidate];
        p.role == Candidate && p.term == r.args.term && p.term !in h.elected ==>
          r.args.lastTerm == LastTermOf(p.log) && r.args.lastIndex == |p.log|)
  }

  // ---------------------------------------------------------------- everything

  ghost predicate NodesOk(c: Cluster) {
    && c.nodes.Keys == c.history.members
    && forall n :: n in c.nodes ==> NodeOk(c.history, n, c.nodes[n], !c.skewed)
  }

  ghost predicate MessagesOk(h: P.History, rounds: seq<Round>, messages: set<Message>, intact: bool) {
    forall m :: m in messages ==> MessageOk(h, rounds, m, intact)
  }

  ghost predicate RoundsOk(h: P.History, rounds: seq<Round>) {
    forall i :: 0 <= i < |rounds| ==> RoundOk(h, rounds[i])
  }

  ghost predicate Good(c: Cluster) {
    && P.Inv(c.history)
    && NodesOk(c)
    && MessagesOk(c.history, c.rounds, c.messages, !c.skewed)
    && RoundsOk(c.history, c.rounds)
  }

  lemma InitGood(config: Config)
    requires ValidConfig(config)
    ensures Good(Init(config))
  {
    P.StartInv(config.Keys);
    var c := Init(config);
    forall n | n in c.nodes
      ensures NodeOk(c.history, n, c.nodes[n], true)
    {
      assert c.nodes[n].peers == config[n];
    }
  }

  // ---------------------------------------------------------------- what never shrinks

  /** Histories only grow: terms rise, leader logs extend, records accumulate. */
  ghost predicate Grows(h: P.History, h': P.History) {
    && h'.members == h.members
    && h'.peers.Keys == h.peers.Keys
    && (forall n :: n in h.peers ==> h.peers[n].term <= h'.peers[n].term)
    && (forall t :: t in h.elected ==> t in h'.elected && h'.elected[t] == h.elected[t])
    && (forall t :: t in h.leaderLog ==> t in h'.leaderLog && h.leaderLog[t] <= h'.leaderLog[t])
    && h.votes <= h'.votes
    && h.acks <= h'.acks
    && h.matched <= h'.matched
    && h.commits <= h'.commits
    && h.forgot <= h'.forgot
    && (forall n :: n in h.peers ==> Durable(h, h', n))
  }

  /** What a commit covers stays in the node's log. */
  ghost predicate Durable(h: P.History, h': P.History, n: Id)
    requires n in h.peers && n in h'.peers
  {
    var p := h.peers[n];
    forall k :: 0 <= k <= |p.log| && P.Covered(h.leaderLog, h.commits, p.log, k, p.term) ==> p.log[..k] <= h'.peers[n].log
  }

  lemma GrowsFurther(a: P.History, b: P.History, c: P.History)
    requires Grows(a, b) && Grows(b, c)
    ensures Grows(a, c)
  {
    forall n | n in a.peers
      ensures Durable(a, c, n)
    {
      DurableFurther(a, b, c, n);
    }
  }

  lemma DurableFurther(a: P.History, b: P.History, c: P.History, n: Id)
    requires Grows(a, b) && Grows(b, c) && n in a.peers
    ensures Durable(a, c, n)
  {
    var p := a.peers[n];
    forall k | 0 <= k <= |p.log| && P.Covered(a.leaderLog, a.commits, p.log, k, p.term)
      ensures p.log[..k] <= c.peers[n].log
    {
      assert Durable(a, b, n) && Durable(b, c, n);
      var q := b.peers[n];
      assert q.log[..k] == p.log[..k];
      CoveredCarries(a, b, p.log, q.log, k, p.term, q.term);
      assert p.log[..k] <= c.peers[n].log;
    }
  }

  /** A covered prefix stays covered as histories grow and terms rise. */
  lemma CoveredCarries(h: P.History, h': P.History, log: seq<LogEntry>, log': seq<LogEntry>, k: nat, t: nat, t': nat)
    requires forall u :: u in h.leaderLog ==> u in h'.leaderLog && h.leaderLog[u] <= h'.leaderLog[u]
    requires h.commits <= h'.commits && t <= t' && k <= |log| && k <= |log'| && log[..k] == log'[..k]
    requires P.Covered(h.leaderLog, h.commits, log, k, t)
    ensures P.Covered(h'.leaderLog, h'.commits, log', k, t')
  {
    if k > 0 {
      var cm :| cm in h.commits && P.Covers(h.leaderLog, cm, log, k, t);
      assert h'.leaderLog[cm.term][..k] == h.leaderLog[cm.term][..k];
      assert P.Covers(h'.leaderLog, cm, log', k, t');
    }
  }

  lemma CoveredGrows(h: P.History, h': P.History, t: nat, k: nat)
    requires Grows(h, h') && t in h.leaderLog && P.Covered(h.leaderLog, h.commits, h.leaderLog[t], k, t)
    ensures P.Covered(h'.leaderLog, h'.commits, h'.leaderLog[t], k, t)
  {
    if k > 0 {
      var cm :| cm in h.commits && P.Covers(h.leaderLog, cm, h.leaderLog[t], k, t);
      assert h'.leaderLog[cm.term][..k] == h.leaderLog[cm.term][..k];
      assert h'.leaderLog[t][..k] == h.leaderLog[t][..k];
      assert P.Covers(h'.leaderLog, cm, h'.leaderLog[t], k, t);
    }
  }

  lemma SliceGrows(h: P.History, h': P.History, args: AppendArgs)
    requires Grows(h, h') && args.term in h.leaderLog && LeaderSlice(h.leaderLog, h.commits, args)
    ensures args.term in h'.leaderLog && LeaderSlice(h'.leaderLog, h'.commits, args)
  {
    CoveredGrows(h, h', args.term, args.leaderCommit);
    var last := args.prevIndex + |args.entries|;
    assert h'.leaderLog[args.term][args.prevIndex..last] == h.leaderLog[args.term][args.prevIndex..last];
  }

  lemma AppendGrows(h: P.History, h': P.History, args: AppendArgs, to: Id)
    requires Grows(h, h') && AppendOk(h, args, to)
    ensures AppendOk(h', args, to)
  {
    if !Hopeless(args) {
      SliceGrows(h, h', args);
    }
  }

  lemma SnapshotGrows(h: P.History, h': P.History, args: SnapshotArgs, to: Id, intact: bool, intact': bool)
    requires Grows(h, h') && SnapshotOk(h, args, to, intact) && (intact' ==> intact)
    ensures SnapshotOk(h', args, to, intact')
  {
    CoveredGrows(h, h', args.term, args.lastIndex);
    assert h'.leaderLog[args.term][..args.lastIndex] == h.leaderLog[args.term][..args.lastIndex];
  }

  lemma SoundGrows(h: P.History, h': P.History, q: Id, term: nat, index: nat)
    requires Grows(h, h') && Sound(h, q, term, index)
    ensures Sound(h', q, term, index)
  {
  }

  /** The rounds only gained entries or votes. */
  ghost predicate RoundsGrow(rounds: seq<Round>, rounds': seq<Round>) {
    |rounds| <= |rounds'| && forall i :: 0 <= i < |rounds| ==> rounds'[i].args == rounds[i].args
  }

  lemma MessageGrows(h: P.History, h': P.History, rounds: seq<Round>, rounds': seq<Round>, m: Message,
        intact: bool, intact': bool)
    requires Grows(h, h') && RoundsGrow(rounds, rounds') && (intact' ==> intact)
    requires MessageOk(h, rounds, m, intact)
    ensures MessageOk(h', rounds', m, intact')
  {
    match m
    case VoteRequest(_, _, _) =>
    case VoteAnswer(_, _, _, _) =>
    case AppendRequest(to, args) => AppendGrows(h, h', args, to);
    case AppendAnswer(from, args, reply) =>
      AppendGrows(h, h', args, from);
      if reply.success {
        SliceGrows(h, h', args);
        SoundGrows(h, h', from, args.term, args.prevIndex + |args.entries|);
      }
    case SnapshotRequest(to, args) => SnapshotGrows(h, h', args, to, intact, intact');
    case SnapshotAnswer(from, args, reply) =>
      SnapshotGrows(h, h', args, from, intact, intact');
      if reply.term == args.term {
        SoundGrows(h, h', from, args.term, args.lastIndex);
      }
  }

  lemma MessagesGrow(c: Cluster, h': P.History, rounds': seq<Round>, intact': bool)
    requires MessagesOk(c.history, c.rounds, c.messages, !c.skewed)
    requires Grows(c.history, h') && RoundsGrow(c.rounds, rounds') && (intact' ==> !c.skewed)
    ensures MessagesOk(h', rounds', c.messages, intact')
  {
    hide Grows, MessageOk;
    forall m | m in c.messages
      ensures MessageOk(h', rounds', m, intact')
    {
      MessageGrows(c.history, h', c.rounds, rounds', m, !c.skewed, intact');
    }
  }

  lemma TrackingGrows(h: P.History, h': P.History, node: Node)
    requires Grows(h, h') && Tracking(h, node)
    ensures Tracking(h', node)
  {
    hide Grows, Sound;
    if node.role == Leader {
      forall q | q in node.peers
        ensures Sound(h', q, node.term, Index(node.matchIndex, q))
      {
        SoundGrows(h, h', q, node.term, Index(node.matchIndex, q));
      }
    }
  }

  /** The nodes an event does not touch stay as they are. */
  lemma OthersStay(c: Cluster, h': P.History, n: Id, intact': bool)
    requires NodesOk(c) && Grows(c.history, h') && (intact' ==> !c.skewed)
    requires forall x :: x in c.history.peers && x != n ==> h'.peers[x] == c.history.peers[x]
    ensures forall x :: x in c.nodes && x != n ==> NodeOk(h', x, c.nodes[x], intact')
  {
    hide Mirrors, Stored, Applied, Replayed, Tracking, PeerList;
    forall x | x in c.nodes && x != n
      ensures NodeOk(h', x, c.nodes[x], intact')
    {
      assert NodeOk(c.history, x, c.nodes[x], !c.skewed);
      TrackingGrows(c.history, h', c.nodes[x]);
    }
  }

  /** A round keeps its meaning while its candidate keeps its log or leaves the election. */
  ghost predicate StillStanding(h: P.History, h': P.History, n: Id)
    requires n in h.peers && n in h'.peers
  {
    var p := h.peers[n];
    var q := h'.peers[n];
    q.role == Candidate && q.term !in h'.elected ==>
      (p.role == Candidate && q.term == p.term && q.log == p.log) || q.term > p.term
  }

  lemma RoundsStay(h: P.History, h': P.History, rounds: seq<Round>, n: Id)
    requires RoundsOk(h, rounds) && Grows(h, h') && n in h.peers
    requires forall x :: x in h.peers && x != n ==> h'.peers[x] == h.peers[x]
    requires StillStanding(h, h', n)
    ensures RoundsOk(h', rounds)
  {
    forall i | 0 <= i < |rounds|
      ensures RoundOk(h', rounds[i])
    {
      assert RoundOk(h, rounds[i]);
    }
  }

  /** Putting an event together: one node moved, the history grew, at most one message was sent. */
  lemma Assemble(c: Cluster, c': Cluster, n: Id, sent: set<Message>)
    requires Good(c) && n in c.nodes && n in c.history.peers && P.Inv(c'.history)
    requires Grows(c.history, c'.history)
    requires forall x :: x in c.history.peers && x != n ==> c'.history.peers[x] == c.history.peers[x]
    requires c'.nodes.Keys == c.nodes.Keys && forall x :: x in c.nodes && x != n ==> c'.nodes[x] == c.nodes[x]
    requires c.skewed ==> c'.skewed
    requires c'.rounds == c.rounds && StillStanding(c.history, c'.history, n)
    requires c'.messages == c.messages + sent
    requires NodeOk(c'.history, n, c'.nodes[n], !c'.skewed)
    requires MessagesOk(c'.history, c'.rounds, sent, !c'.skewed)
    ensures Good(c')
  {
    hide P.Inv, NodeOk, MessageOk, Grows, RoundsOk, StillStanding;
    OthersStay(c, c'.history, n, !c'.skewed);
    MessagesGrow(c, c'.history, c'.rounds, !c'.skewed);
    RoundsStay(c.history, c'.history, c.rounds, n);
    MembersStay(c.history, c'.history);
  }

  lemma MembersStay(h: P.History, h': P.History)
    requires Grows(h, h')
    ensures h'.members == h.members && h'.peers.Keys == h.peers.Keys
  {
  }
}
