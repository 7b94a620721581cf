/** Replication events keep the cluster good. */
module ClusterAppends {
  import opened Entries
  import opened Logs
  import opened Machine
  import opened Nodes
  import opened Cluster
  import opened ClusterInv
  import opened ClusterElections
  import P = Protocol
  import ProtocolFacts
  import ProtocolSteps
  import ProtocolFollowers

  // ---------------------------------------------------------------- the append loop

  /** Above the boundary, equal terms at an index mean equal logs up to it. */
  ghost predicate TermsDecide(log: seq<LogEntry>, base: nat, lead: seq<LogEntry>) {
    forall i :: base < i <= |log| && i <= |lead| && log[i - 1].term == lead[i - 1].term ==> log[..i] == lead[..i]
  }

  ghost predicate RealEntries(log: seq<LogEntry>) {
    WellIndexed(log) && forall i :: 0 <= i < |log| ==> log[i].term > 0
  }

  lemma LoopMissing(log: seq<LogEntry>, base: nat, lead: seq<LogEntry>, last: nat)
    requires base <= |log| < last <= |lead| && log == lead[..|log|] && WellIndexed(lead)
    ensures AppendLoop(Compacted(log, base), lead[|log|..last]) == Compacted(lead[..last], base)
  {
    var entries := lead[|log|..last];
    GetCompacted(log, base, |log| + 1);
    assert entries[0].index == |log| + 1;
    assert log + entries == lead[..last];
    AppendCompacted(log, base, entries);
  }

  lemma LoopConflict(log: seq<LogEntry>, base: nat, lead: seq<LogEntry>, prev: nat, last: nat)
    requires base <= prev < |log| && prev < last <= |lead| && log[..prev] == lead[..prev] && WellIndexed(lead)
    requires log[prev].term != lead[prev].term && log[prev].term > 0
    ensures AppendLoop(Compacted(log, base), lead[prev..last]) == Compacted(lead[..last], base)
  {
    var entries := lead[prev..last];
    GetCompacted(log, base, prev + 1);
    assert entries[0].index == prev + 1;
    assert log[..prev] + entries == lead[..last];
    TruncateCompacted(log, base, prev + 1);
    AppendCompacted(log[..prev], base, entries);
  }

  lemma LoopSkip(log: seq<LogEntry>, base: nat, lead: seq<LogEntry>, prev: nat, last: nat)
    requires base <= |log| && prev < last <= |lead| && WellIndexed(lead)
    requires prev + 1 <= base || (prev < |log| && log[prev].term == lead[prev].term > 0)
    ensures AppendLoop(Compacted(log, base), lead[prev..last]) == AppendLoop(Compacted(log, base), lead[prev + 1..last])
  {
    var entries := lead[prev..last];
    assert entries[0].index == prev + 1;
    assert entries[1..] == lead[prev + 1..last];
    GetCompacted(log, base, prev + 1);
  }

  /** The append loop refines the simple rule: adopt the leader's prefix unless already held. */
  lemma {:induction false} AppendLoopAdopts(log: seq<LogEntry>, base: nat, lead: seq<LogEntry>, prev: nat, last: nat)
    requires base <= |log| && base <= |lead| && log[..base] == lead[..base]
    requires RealEntries(log) && RealEntries(lead) && TermsDecide(log, base, lead)
    requires prev <= last <= |lead| && prev <= |log| && log[..prev] == lead[..prev]
    ensures base <= |Adopt(log, lead[..last])|
    ensures AppendLoop(Compacted(log, base), lead[prev..last]) == Compacted(Adopt(log, lead[..last]), base)
    decreases last - prev
  {
    hide AppendLoop, Compacted;
    AdoptKeeps(log, lead, last, base);
    if prev == last {
      LoopEnd(Compacted(log, base), lead, last);
    } else if prev + 1 <= base {
      LoopSkip(log, base, lead, prev, last);
      ProtocolFacts.ShorterAgrees(log, lead, base, prev + 1);
      AppendLoopAdopts(log, base, lead, prev + 1, last);
    } else if prev == |log| {
      LoopMissing(log, base, lead, last);
    } else if log[prev].term == lead[prev].term {
      LoopSkip(log, base, lead, prev, last);
      assert log[..prev + 1] == lead[..prev + 1];
      AppendLoopAdopts(log, base, lead, prev + 1, last);
    } else {
      LoopConflict(log, base, lead, prev, last);
      assert lead[..last][prev] == lead[prev];
    }
  }

  lemma LoopEnd(es: seq<LogEntry>, lead: seq<LogEntry>, last: nat)
    requires |es| > 0 && last <= |lead|
    ensures AppendLoop(es, lead[last..last]) == es
  {
  }

  /** Adopting keeps whatever the log already shares with the leader. */
  lemma AdoptKeeps(log: seq<LogEntry>, lead: seq<LogEntry>, last: nat, k: nat)
    requires k <= |log| && k <= |lead| && last <= |lead| && log[..k] == lead[..k]
    ensures k <= |Adopt(log, lead[..last])| && Adopt(log, lead[..last])[..k] == log[..k]
  {
    ProtocolFacts.ShorterAgrees(log, lead, k, last);
  }

  // ---------------------------------------------------------------- follower and leader logs

  /** For a follower of the leader of its term, terms decide above the boundary. */
  lemma FollowerTermsDecide(elected: map<nat, P.Election>, ll: P.LeaderLogs, commits: set<P.Commit>, p: P.Peer, n: Id)
    requires ProtocolFollowers.Led(elected, ll, p, n) && P.PeerLogOk(ll, commits, p)
    ensures TermsDecide(p.log, p.base, ll[p.term]) && RealEntries(p.log) && RealEntries(ll[p.term])
    ensures p.base <= |ll[p.term]| && p.log[..p.base] == ll[p.term][..p.base]
  {
    hide P.Covered, P.LeaderLogsOk;
    var lead := ll[p.term];
    ProtocolFollowers.LeaderLogFact(elected, ll, p.term);
    assert lead[..|lead|] == lead;
    ProtocolFacts.ShorterAgrees(p.log, lead, p.commit, p.base);
    forall i | p.base < i <= |p.log| && i <= |lead| && p.log[i - 1].term == lead[i - 1].term
      ensures p.log[..i] == lead[..i]
    {
      if P.Clean(ll, p.log) {
        ProtocolFacts.AgreeAt(elected, ll, p.log, lead, i);
      } else {
        ProtocolFacts.StaleNeverMatches(elected, ll, p, p.term, i);
      }
    }
  }

  /** What the consistency check of the handler establishes. */
  lemma CheckPassed(elected: map<nat, P.Election>, ll: P.LeaderLogs, commits: set<P.Commit>, p: P.Peer, n: Id,
        node: Node, args: AppendArgs)
    requires ProtocolFollowers.Led(elected, ll, p, n) && P.PeerLogOk(ll, commits, p) && Mirrors(node, p)
    requires args.term == p.term && (Hopeless(args) || LeaderSlice(ll, commits, args))
    requires args.prevIndex == 0 || (Get(node.log, args.prevIndex).term != 0
             && Get(node.log, args.prevIndex).term == args.prevTerm)
    ensures LeaderSlice(ll, commits, args)
    ensures args.prevIndex <= |p.log| && p.log[..args.prevIndex] == ll[p.term][..args.prevIndex]
  {
    hide P.Covered, P.LeaderLogsOk, P.Clean, P.Dirty;
    GetCompacted(p.log, p.base, args.prevIndex);
    FollowerTermsDecide(elected, ll, commits, p, n);
  }

  // ---------------------------------------------------------------- accepting entries

  lemma NotTheLeader(h: P.History, n: Id, term: nat, leader: Id)
    requires P.Inv(h) && n in h.peers && FromLeader(h, term, leader, n) && h.peers[n].term == term
    ensures !h.peers[n].role.Leader? && h.elected[term].leader != n
  {
    hide P.ElectionsOk, P.VotesOk, P.ForgotOk, P.LeaderLogsOk, P.AcksOk, P.MatchesOk, P.VotesForce, P.CommitsOk,
         P.PeerLogsOk;
    assert P.RoleOk(h.elected, h.leaderLog, h.votes, n, h.peers[n]);
  }

  /** The commit index the handler computes from an accepted message. */
  function CommitAfter(commit: nat, leaderCommit: nat, lastIndex: nat): nat {
    if leaderCommit > commit then (if leaderCommit < lastIndex then leaderCommit else lastIndex) else commit
  }

  /** What the handler returns when it accepts. */
  lemma AcceptingHandler(node: Node, args: AppendArgs)
    requires |node.log| > 0 && args.term == node.term && node.role == Follower
    requires HandleAppendEntries(node, args).1.success
    ensures args.prevIndex == 0
            || (Get(node.log, args.prevIndex).term != 0 && Get(node.log, args.prevIndex).term == args.prevTerm)
    ensures var log := AppendLoop(node.log, args.entries);
            HandleAppendEntries(node, args).0 ==
            Persist(node.(leaderId := args.leader, log := log,
                          commitIndex := CommitAfter(node.commitIndex, args.leaderCommit, LastIndex(log))))
    ensures HandleAppendEntries(node, args).1.term == args.term
  {
  }

  /** The log after an accepted message, stated on the whole logs. */
  lemma AcceptedLog(h: P.History, n: Id, node: Node, args: AppendArgs)
    requires P.Inv(h) && n in h.peers && Mirrors(node, h.peers[n]) && AppendOk(h, args, n)
    requires args.term == node.term && HandleAppendEntries(node, args).1.success && node.role == Follower
    ensures LeaderSlice(h.leaderLog, h.commits, args)
    ensures var p := h.peers[n];
            var log' := Adopt(p.log, h.leaderLog[p.term][..args.prevIndex + |args.entries|]);
            && p.commit <= |h.leaderLog[p.term]|
            && p.commit <= |p.log|
            && p.log[..p.commit] == h.leaderLog[p.term][..p.commit]
            && p.base <= |log'|
            && AppendLoop(node.log, args.entries) == Compacted(log', p.base)
  {
    hide P.Inv, P.PeerLogOk, ProtocolFollowers.Led, HandleAppendEntries, AppendLoop, TermsDecide, RealEntries, Compacted;
    hide LeaderSlice, Adopt, Get;
    var p := h.peers[n];
    AcceptingHandler(node, args);
    NotTheLeader(h, n, args.term, args.leader);
    ProtocolFollowers.LedFact(h, n);
    InvPeerLog(h, n);
    CheckPassed(h.elected, h.leaderLog, h.commits, p, n, node, args);
    FollowerTermsDecide(h.elected, h.leaderLog, h.commits, p, n);
    ProtocolFollowers.LedParts(h.elected, h.leaderLog, p, n);
    SliceAdopts(h.leaderLog, h.commits, p, node, args);
  }

  lemma SliceAdopts(ll: P.LeaderLogs, commits: set<P.Commit>, p: P.Peer, node: Node, args: AppendArgs)
    requires args.term in ll && args.term == p.term && LeaderSlice(ll, commits, args) && Mirrors(node, p)
    requires TermsDecide(p.log, p.base, ll[p.term]) && RealEntries(p.log) && RealEntries(ll[p.term])
    requires p.base <= |ll[p.term]| && p.log[..p.base] == ll[p.term][..p.base]
    requires args.prevIndex <= |p.log| && p.log[..args.prevIndex] == ll[p.term][..args.prevIndex]
    ensures var log' := Adopt(p.log, ll[p.term][..args.prevIndex + |args.entries|]);
            p.base <= |log'| && AppendLoop(node.log, args.entries) == Compacted(log', p.base)
  {
    hide AppendLoop, TermsDecide, RealEntries, Compacted, Adopt, P.Covered;
    AppendLoopAdopts(p.log, p.base, ll[p.term], args.prevIndex, args.prevIndex + |args.entries|);
  }

  lemma AcceptedNode(h: P.History, n: Id, node: Node, intact: bool, args: AppendArgs)
    requires P.Inv(h) && NodeOk(h, n, node, intact) && AppendOk(h, args, n)
    requires args.term == node.term && HandleAppendEntries(node, args).1.success && node.role == Follower
    ensures LeaderSlice(h.leaderLog, h.commits, args)
    ensures var p := h.peers[n];
            var node' := HandleAppendEntries(node, args).0;
            var last := args.prevIndex + |args.entries|;
            && ProtocolFollowers.NewCommit(h.leaderLog, h.commits, p, last, node'.commitIndex)
            && NodeOk(P.Accept(h, n, last, node'.commitIndex), n, node', intact)
  {
    hide P.Inv, HandleAppendEntries, AppendLoop, Stored, Replayed, Tracking, PeerList, Compacted, Adopt;
    hide P.Accept, ProtocolFollowers.NewCommit;
    AcceptedLog(h, n, node, args);
    var p := h.peers[n];
    AdoptedNode(h, n, node, intact, args, Adopt(p.log, h.leaderLog[p.term][..args.prevIndex + |args.entries|]));
  }

  lemma InvPeerLog(h: P.History, n: Id)
    requires P.Inv(h) && n in h.peers
    ensures P.PeerLogOk(h.leaderLog, h.commits, h.peers[n])
  {
    hide P.ElectionsOk, P.VotesOk, P.ForgotOk, P.RolesOk, P.LeaderLogsOk, P.AcksOk, P.MatchesOk, P.VotesForce,
         P.CommitsOk, P.PeerLogOk;
  }

  lemma AdoptedNode(h: P.History, n: Id, node: Node, intact: bool, args: AppendArgs, log': seq<LogEntry>)
    requires NodeOk(h, n, node, intact) && args.term in h.leaderLog && LeaderSlice(h.leaderLog, h.commits, args)
    requires args.term == node.term && node.role == Follower && HandleAppendEntries(node, args).1.success
    requires var p := h.peers[n];
             && p.commit <= |h.leaderLog[p.term]|
             && p.log[..p.commit] == h.leaderLog[p.term][..p.commit]
             && log' == Adopt(p.log, h.leaderLog[p.term][..args.prevIndex + |args.entries|])
             && p.base <= |log'|
             && AppendLoop(node.log, args.entries) == Compacted(log', p.base)
    ensures var p := h.peers[n];
            var node' := HandleAppendEntries(node, args).0;
            var last := args.prevIndex + |args.entries|;
            && ProtocolFollowers.NewCommit(h.leaderLog, h.commits, p, last, node'.commitIndex)
            && NodeOk(P.Accept(h, n, last, node'.commitIndex), n, node', intact)
  {
    hide P.Covered, PeerList, HandleAppendEntries, AppendLoop, Compacted, Replay, LeaderSlice, Adopt, Replayed;
    var p := h.peers[n];
    var last := args.prevIndex + |args.entries|;
    AcceptingHandler(node, args);
    LastCompacted(log', p.base);
    var commit := CommitAfter(p.commit, args.leaderCommit, |log'|);
    AdoptedCommit(h.leaderLog, h.commits, p, args, log', commit);
    var q := p.(log := log', commit := commit);
    KeepsApplied(node, p, q, intact);
    PersistStores(node.(leaderId := args.leader, log := Compacted(log', p.base), commitIndex := commit), q);
    AppliedFields(node, HandleAppendEntries(node, args).0, q, intact);
  }

  lemma AdoptedCommit(ll: P.LeaderLogs, commits: set<P.Commit>, p: P.Peer, args: AppendArgs, log': seq<LogEntry>, commit: nat)
    requires args.term in ll && LeaderSlice(ll, commits, args) && p.term == args.term
    requires p.commit <= |ll[p.term]| && p.commit <= |p.log| && p.log[..p.commit] == ll[p.term][..p.commit]
    requires log' == Adopt(p.log, ll[p.term][..args.prevIndex + |args.entries|])
    requires commit == CommitAfter(p.commit, args.leaderCommit, |log'|)
    ensures ProtocolFollowers.NewCommit(ll, commits, p, args.prevIndex + |args.entries|, commit)
    ensures p.commit <= commit <= |log'| && log'[..p.commit] == p.log[..p.commit]
  {
    hide P.Covered;
    var last := args.prevIndex + |args.entries|;
    AdoptKeeps(p.log, ll[p.term], last, p.commit);
    assert |log'| >= last;
  }

  /** Only lastApplied and the snapshots count. */
  lemma AppliedFields(x: Node, x': Node, q: P.Peer, intact: bool)
    requires Applied(x, q) && (intact ==> Replayed(x, q))
    requires x'.lastApplied == x.lastApplied && x'.snapshotData == x.snapshotData && x'.disk.snapshot == x.disk.snapshot
    ensures Applied(x', q) && (intact ==> Replayed(x', q))
  {
    hide Replay;
  }

  /** A log that agrees up to the commit index replays to the same state. */
  lemma KeepsApplied(node: Node, p: P.Peer, q: P.Peer, intact: bool)
    requires Applied(node, p) && (intact ==> Replayed(node, p)) && Stored(node, p)
    requires q.base == p.base && p.commit <= q.commit <= |q.log| && q.log[..p.commit] == p.log[..p.commit]
    ensures Applied(node, q) && (intact ==> Replayed(node, q))
    ensures node.disk.snapshot.term == TermAt(q.log, q.base)
  {
    ProtocolFacts.ShorterAgrees(q.log, p.log, p.commit, p.base);
    ProtocolFacts.ShorterAgrees(q.log, p.log, p.commit, node.lastApplied);
    assert p.base > 0 ==> q.log[p.base - 1] == q.log[..p.base][p.base - 1] == p.log[..p.base][p.base - 1];
  }

  lemma AcceptedAnswer(h: P.History, n: Id, args: AppendArgs, commit: nat)
    requires n in h.peers && args.term == h.peers[n].term && AppendOk(h, args, n)
    requires args.prevIndex + |args.entries| <= |h.leaderLog[args.term]|
    requires P.PeerLogOk(h.leaderLog, h.commits, h.peers[n])
    ensures var last := args.prevIndex + |args.entries|;
            Sound(P.Accept(h, n, last, commit), n, args.term, last)
  {
    var p := h.peers[n];
    var last := args.prevIndex + |args.entries|;
    if 0 < last <= p.base {
      var cm :| cm in h.commits && P.Covers(h.leaderLog, cm, p.log, p.commit, p.term);
      assert Reaches(cm, args.term, last);
    }
  }

  /** A leader's log has everything a commit of its term or an earlier one covers. */
  lemma LeaderHolds(h: P.History, n: Id, k: nat)
    requires P.Inv(h) && n in h.peers && h.peers[n].term in h.leaderLog
    requires P.Covered(h.leaderLog, h.commits, h.peers[n].log, k, h.peers[n].term)
    ensures var lead := h.leaderLog[h.peers[n].term];
            k <= |lead| && k <= |h.peers[n].log| && h.peers[n].log[..k] == lead[..k]
  {
    hide P.ElectionsOk, P.VotesOk, P.ForgotOk, P.RolesOk, P.LeaderLogsOk, P.AcksOk, P.MatchesOk, P.VotesForce,
         P.CommitsOk, P.PeerLogsOk, P.Covered;
    ProtocolFacts.CoveredIsHeld(h.members, h.leaderLog, h.acks, h.commits, h.peers[n].log, k, h.peers[n].term);
  }

  lemma AcceptGrows(h: P.History, n: Id, index: nat, commit: nat)
    requires P.Inv(h) && n in h.peers && h.peers[n].term in h.leaderLog && index <= |h.leaderLog[h.peers[n].term]|
    ensures Grows(h, P.Accept(h, n, index, commit))
  {
    hide P.Inv, P.Covered;
    var p := h.peers[n];
    var h' := P.Accept(h, n, index, commit);
    forall k | 0 <= k <= |p.log| && P.Covered(h.leaderLog, h.commits, p.log, k, p.term)
      ensures p.log[..k] <= h'.peers[n].log
    {
      LeaderHolds(h, n, k);
      AdoptKeeps(p.log, h.leaderLog[p.term], index, k);
    }
  }

  /** The message finds a node that has caught up with its term and is no candidate in it. */
  ghost predicate Facing(c: Cluster, n: Id, args: AppendArgs) {
    && n in c.nodes && n in c.history.peers && |c.nodes[n].log| > 0
    && AppendOk(c.history, args, n)
    && c.nodes[n].term == c.history.peers[n].term && c.nodes[n].role == c.history.peers[n].role
    && args.term <= c.nodes[n].term
    && (args.term == c.nodes[n].term ==> c.nodes[n].role == Follower)
  }

  lemma AcceptGood(c: Cluster, n: Id, args: AppendArgs)
    requires Good(c) && Facing(c, n, args) && HandleAppendEntries(c.nodes[n], args).1.success
    ensures Good(OnAppendRequest(c, n, args)) && Grows(c.history, OnAppendRequest(c, n, args).history)
  {
    hide P.Inv, NodeOk, MessageOk, RoundsOk, AppendLoop, LeaderSlice, Sound, ProtocolFollowers.NewCommit, Grows;
    MemberFacts(c, n);
    var h := c.history;
    var node := c.nodes[n];
    var (node', reply) := HandleAppendEntries(node, args);
    var last := args.prevIndex + |args.entries|;
    assert args.term == node.term;
    AcceptingHandler(node, args);
    AcceptedNode(h, n, node, !c.skewed, args);
    SliceInRange(h, args);
    NotTheLeader(h, n, args.term, args.leader);
    ProtocolFollowers.AcceptInv(h, n, last, node'.commitIndex);
    var c' := OnAppendRequest(c, n, args);
    assert c'.history == P.Accept(h, n, last, node'.commitIndex);
    AcceptGrows(h, n, last, node'.commitIndex);
    InvPeerLog(h, n);
    AcceptedAnswer(h, n, args, node'.commitIndex);
    AppendGrows(h, c'.history, args, n);
    SliceGrows(h, c'.history, args);
    var answer := AppendAnswer(n, args, reply);
    AppendAnswerOk(c'.history, c.rounds, n, args, reply, !c.skewed);
    StandingStill(h, c'.history, n);
    Assemble(c, c', n, {answer});
  }

  lemma StandingStill(h: P.History, h': P.History, n: Id)
    requires n in h.peers && n in h'.peers && h'.peers[n].role != Candidate
    ensures StillStanding(h, h', n)
  {
  }

  lemma SliceInRange(h: P.History, args: AppendArgs)
    requires args.term in h.leaderLog && LeaderSlice(h.leaderLog, h.commits, args)
    ensures args.prevIndex + |args.entries| <= |h.leaderLog[args.term]|
  {
  }

  lemma AppendAnswerOk(h: P.History, rounds: seq<Round>, n: Id, args: AppendArgs, reply: AppendReply, intact: bool)
    requires AppendOk(h, args, n) && args.term <= reply.term
    requires reply.success ==> reply.term == args.term && LeaderSlice(h.leaderLog, h.commits, args)
                               && Sound(h, n, args.term, args.prevIndex + |args.entries|)
    ensures MessageOk(h, rounds, AppendAnswer(n, args, reply), intact)
  {
  }

  lemma RejectNode(h: P.History, n: Id, node: Node, intact: bool, leader: Id)
    requires NodeOk(h, n, node, intact)
    ensures NodeOk(h, n, node.(leaderId := leader), intact)
  {
  }

  lemma RejectGood(c: Cluster, n: Id, args: AppendArgs)
    requires Good(c) && Facing(c, n, args) && !HandleAppendEntries(c.nodes[n], args).1.success
    ensures Good(OnAppendRequest(c, n, args)) && OnAppendRequest(c, n, args).history == c.history
  {
    hide P.Inv, NodeOk, MessageOk, RoundsOk, AppendLoop, AppendOk, Sound;
    MemberFacts(c, n);
    var node := c.nodes[n];
    var c' := OnAppendRequest(c, n, args);
    var (node', reply) := HandleAppendEntries(node, args);
    RejectNode(c.history, n, node, !c.skewed, args.leader);
    assert node' == node || node' == node.(leaderId := args.leader);
    AppendAnswerOk(c.history, c.rounds, n, args, reply, !c.skewed);
    Assemble(c, c', n, {AppendAnswer(n, args, reply)});
  }

  /** A candidate that hears from a leader of its own term. */
  ghost function Yielded(c: Cluster, n: Id, term: nat): Cluster
    requires n in c.nodes && n in c.history.peers
  {
    if term == c.nodes[n].term && c.nodes[n].role == Candidate
    then Record(WithNode(c, n, c.nodes[n].(role := Follower)), P.StepBack(c.history, n)) else c
  }

  lemma YieldNode(h: P.History, n: Id, node: Node, intact: bool)
    requires NodeOk(h, n, node, intact)
    ensures NodeOk(P.StepBack(h, n), n, node.(role := Follower), intact)
  {
  }

  lemma YieldGrows(h: P.History, n: Id)
    requires n in h.peers
    ensures Grows(h, P.StepBack(h, n)) && StillStanding(h, P.StepBack(h, n), n)
  {
  }

  lemma YieldedGood(c: Cluster, n: Id, term: nat)
    requires Good(c) && n in c.nodes
    ensures n in c.history.peers && Good(Yielded(c, n, term)) && Grows(c.history, Yielded(c, n, term).history)
    ensures Yielded(c, n, term).nodes[n].term == c.nodes[n].term
    ensures Yielded(c, n, term).nodes[n].term == term ==> Yielded(c, n, term).nodes[n].role != Candidate
  {
    hide P.Inv, NodeOk, MessageOk, RoundsOk, Grows;
    MemberFacts(c, n);
    TermMirrors(c, n);
    GrowsSame(c.history);
    if term == c.nodes[n].term && c.nodes[n].role == Candidate {
      ProtocolSteps.StepBackInv(c.history, n);
      YieldNode(c.history, n, c.nodes[n], !c.skewed);
      YieldGrows(c.history, n);
      Assemble(c, Yielded(c, n, term), n, {});
    }
  }

  /** The handler's first statements alone, and the handler run after them. */
  lemma HandleAfterHearing(node: Node, args: AppendArgs)
    requires |node.log| > 0
    ensures args.term > node.term ==>
              HandleAppendEntries(node, args) == HandleAppendEntries(BecomeFollower(node, args.term), args)
    ensures args.term == node.term && node.role == Candidate ==>
              HandleAppendEntries(node, args) == HandleAppendEntries(node.(role := Follower), args)
  {
    hide AppendLoop, FirstIndexForTerm, Get, LastIndex;
  }

  lemma CatchThenAppend(c: Cluster, n: Id, args: AppendArgs)
    requires n in c.nodes && n in c.history.peers && |c.nodes[n].log| > 0
    requires c.nodes[n].term == c.history.peers[n].term && c.nodes[n].role == c.history.peers[n].role
    ensures OnAppendRequest(c, n, args) == OnAppendRequest(Yielded(Caught(c, n, args.term), n, args.term), n, args)
  {
    hide HandleAppendEntries;
    var node := c.nodes[n];
    var c1 := Yielded(Caught(c, n, args.term), n, args.term);
    HandleAfterHearing(node, args);
    var (node', _) := HandleAppendEntries(node, args);
    assert c1.nodes[n := node'] == c.nodes[n := node'];
    assert Heard(c.history, n, args.term) == Heard(c1.history, n, args.term);
  }

  lemma AppendFacts(c: Cluster, n: Id, args: AppendArgs)
    requires Good(c) && AppendRequest(n, args) in c.messages
    ensures AppendOk(c.history, args, n)
  {
    assert MessageOk(c.history, c.rounds, AppendRequest(n, args), !c.skewed);
  }

  lemma AppendRequestGood(c: Cluster, n: Id, args: AppendArgs)
    requires Good(c) && n in c.nodes && AppendRequest(n, args) in c.messages
    ensures n in c.history.peers && |c.nodes[n].log| > 0
    ensures Good(OnAppendRequest(c, n, args)) && Grows(c.history, OnAppendRequest(c, n, args).history)
  {
    hide P.Inv, Good, Grows, OnAppendRequest, AppendOk;
    TermMirrors(c, n);
    CaughtGood(c, n, args.term);
    var c1 := Caught(c, n, args.term);
    YieldedGood(c1, n, args.term);
    var c2 := Yielded(c1, n, args.term);
    GrowsFurther(c.history, c1.history, c2.history);
    TermMirrors(c2, n);
    AppendFacts(c2, n, args);
    NotLeading(c2, n, args);
    CatchThenAppend(c, n, args);
    if HandleAppendEntries(c2.nodes[n], args).1.success {
      AcceptGood(c2, n, args);
    } else {
      RejectGood(c2, n, args);
      GrowsSame(c2.history);
    }
    GrowsFurther(c.history, c2.history, OnAppendRequest(c, n, args).history);
  }

  lemma NotLeading(c: Cluster, n: Id, args: AppendArgs)
    requires Good(c) && n in c.nodes && n in c.history.peers && AppendOk(c.history, args, n)
    requires c.nodes[n].term == c.history.peers[n].term && c.nodes[n].role == c.history.peers[n].role
    ensures args.term == c.nodes[n].term ==> c.nodes[n].role != Leader
  {
    hide P.Inv, NodesOk, MessagesOk, RoundsOk;
    if args.term == c.nodes[n].term {
      NotTheLeader(c.history, n, args.term, args.leader);
    }
  }
}
