/** What a leader does: submit, send, take replies, commit. */
module ClusterLeaders {
  import opened Entries
  import opened Logs
  import opened Machine
  import opened Quorums
  import opened Nodes
  import opened Cluster
  import opened ClusterInv
  import opened ClusterElections
  import opened ClusterAppends
  import CommitRule
  import P = Protocol
  import ProtocolSteps
  import ProtocolReplication
  import ProtocolCommits

  lemma LeaderFacts(h: P.History, n: Id)
    requires P.Inv(h) && n in h.peers && h.peers[n].role.Leader?
    ensures var p := h.peers[n];
            && p.term in h.elected && p.term in h.leaderLog
            && h.elected[p.term].leader == n && h.leaderLog[p.term] == p.log
            && P.PeerLogOk(h.leaderLog, h.commits, p)
            && P.LeaderLogOk(h.leaderLog, p.term, h.elected[p.term], p.log)
            && p.term >= 1
  {
    hide P.VotesOk, P.ForgotOk, P.AcksOk, P.MatchesOk, P.VotesForce, P.CommitsOk, P.PeerLogOk, P.LeaderLogOk;
    assert P.RoleOk(h.elected, h.leaderLog, h.votes, n, h.peers[n]);
    assert P.ElectionOk(h.members, h.peers, h.votes, h.peers[n].term, h.elected[h.peers[n].term]);
  }

  // ---------------------------------------------------------------- submitting

  lemma SubmitResult(node: Node, p: P.Peer, command: Command)
    requires Mirrors(node, p) && node.role == Leader
    ensures var (node', index, term) := Submit(node, command);
            var entry := CommandEntry(p.term, |p.log| + 1, command);
            && index == |p.log| + 1
            && term == p.term
            && node' == Persist(node.(log := Compacted(p.log + [entry], p.base)))
  {
    LastCompacted(p.log, p.base);
    AppendCompacted(p.log, p.base, [CommandEntry(p.term, |p.log| + 1, command)]);
  }

  lemma SubmitNode(h: P.History, n: Id, node: Node, intact: bool, command: Command)
    requires NodeOk(h, n, node, intact) && node.role == Leader
    requires h.peers[n].term in h.leaderLog && h.leaderLog[h.peers[n].term] == h.peers[n].log
    ensures var (node', index, term) := Submit(node, command);
            && index == |h.peers[n].log| + 1
            && term == h.peers[n].term
            && NodeOk(P.LeaderAppend(h, n, CommandEntry(term, index, command)), n, node', intact)
            && Grows(h, P.LeaderAppend(h, n, CommandEntry(term, index, command)))
  {
    hide PeerList, Replay, Sound, Submit, Grows;
    var p := h.peers[n];
    SubmitResult(node, p, command);
    var entry := CommandEntry(p.term, |p.log| + 1, command);
    var h' := P.LeaderAppend(h, n, entry);
    var q := p.(log := p.log + [entry]);
    assert q.log[..p.commit] == p.log[..p.commit];
    KeepsApplied(node, p, q, intact);
    PersistStores(node.(log := Compacted(q.log, p.base)), q);
    SubmitGrows(h, n, entry);
    TrackingGrows(h, h', node);
  }

  lemma SubmitGrows(h: P.History, n: Id, entry: LogEntry)
    requires n in h.peers && h.peers[n].term in h.leaderLog && h.leaderLog[h.peers[n].term] == h.peers[n].log
    ensures Grows(h, P.LeaderAppend(h, n, entry))
  {
  }

  lemma SubmitGood(c: Cluster, n: Id, command: Command)
    requires Good(c) && n in c.nodes && c.nodes[n].role == Leader
    ensures n in c.history.peers && |c.nodes[n].log| > 0
    ensures Good(OnSubmit(c, n, command)) && Grows(c.history, OnSubmit(c, n, command).history)
  {
    hide P.Inv, NodeOk, MessageOk, RoundsOk, P.PeerLogOk, P.LeaderLogOk, Grows;
    MemberFacts(c, n);
    TermMirrors(c, n);
    LeaderFacts(c.history, n);
    SubmitNode(c.history, n, c.nodes[n], !c.skewed, command);
    var (node', index, term) := Submit(c.nodes[n], command);
    ProtocolReplication.LeaderAppendInv(c.history, n, CommandEntry(term, index, command));
    var c' := OnSubmit(c, n, command);
    StandingStill(c.history, c'.history, n);
    Assemble(c, c', n, {});
  }

  // ---------------------------------------------------------------- sending

  /** The slice of a compacted log that buildArgsLocked cuts out. */
  lemma BuiltSlice(node: Node, p: P.Peer, to: Id)
    requires Mirrors(node, p) && !NeedsSnapshot(node, to)
    ensures var args := BuildArgs(node, to);
            && args.term == p.term && args.leader == node.id && args.leaderCommit == p.commit
            && if args.prevIndex <= |p.log| then
                 && args.prevIndex + |args.entries| == |p.log|
                 && args.entries == p.log[args.prevIndex..]
                 && args.prevTerm == TermAt(p.log, args.prevIndex)
               else Hopeless(args)
  {
    var next := Index(node.nextIndex, to);
    LastCompacted(p.log, p.base);
    GetCompacted(p.log, p.base, next - 1);
    SliceCompacted(p.log, p.base, next);
  }

  /** Every message a leader can build is a slice of its log, or is bound to be rejected. */
  lemma BuildArgsOk(h: P.History, n: Id, node: Node, intact: bool, to: Id)
    requires P.Inv(h) && NodeOk(h, n, node, intact) && node.role == Leader && to in node.peers
    requires !NeedsSnapshot(node, to)
    ensures AppendOk(h, BuildArgs(node, to), to)
  {
    hide P.Inv, Stored, Replayed, Tracking, P.LeaderLogOk, P.Dirty, P.Clean, P.Covered, BuildArgs;
    LeaderFacts(h, n);
    assert to in PeerSet(node.peers);
    BuiltSlice(node, h.peers[n], to);
    assert h.peers[n].log[..|h.peers[n].log|] == h.peers[n].log;
  }

  lemma BuildSnapshotOk(h: P.History, n: Id, node: Node, intact: bool, to: Id)
    requires P.Inv(h) && NodeOk(h, n, node, intact) && node.role == Leader && to in node.peers
    ensures SnapshotOk(h, BuildSnapshotArgs(node), to, intact)
  {
    hide P.Inv, Stored, Tracking, P.LeaderLogOk, P.Dirty, P.Clean, P.Covered, Replay;
    LeaderFacts(h, n);
    var p := h.peers[n];
    assert to in PeerSet(node.peers);
    LastCompacted(p.log, p.base);
    ProtocolSteps.CoveredLess(h.leaderLog, h.commits, p.log, p.commit, p.base, p.term);
  }

  lemma SendGood(c: Cluster, n: Id, to: Id)
    requires Good(c) && n in c.nodes && c.nodes[n].role == Leader && to in c.nodes[n].peers
    ensures |c.nodes[n].log| > 0 && Good(OnSend(c, n, to)) && OnSend(c, n, to).history == c.history
  {
    hide P.Inv, NodeOk, RoundsOk, AppendOk, SnapshotOk;
    MemberFacts(c, n);
    TermMirrors(c, n);
    var node := c.nodes[n];
    if NeedsSnapshot(node, to) {
      BuildSnapshotOk(c.history, n, node, !c.skewed, to);
    } else {
      BuildArgsOk(c.history, n, node, !c.skewed, to);
    }
  }

  // ---------------------------------------------------------------- counting replicas

  /** A commit that reaches an uncommitted index is older than the leader's own entries. */
  lemma ReachesIsOld(h: P.History, n: Id, cm: P.Commit, index: nat)
    requires P.Inv(h) && n in h.peers && h.peers[n].role.Leader? && cm in h.commits
    requires 1 <= index <= |h.peers[n].log|
    ensures var p := h.peers[n];
            cm.term <= p.term && p.commit < index <= cm.index ==> p.log[index - 1].term < p.term
  {
    hide P.ElectionsOk, P.VotesOk, P.ForgotOk, P.AcksOk, P.MatchesOk, P.VotesForce, P.PeerLogsOk;
    var p := h.peers[n];
    assert P.RoleOk(h.elected, h.leaderLog, h.votes, n, p);
    assert P.CommitOk(h.members, h.leaderLog, h.acks, cm);
    assert P.Informed(p, h.commits);
    if cm.term < p.term && index <= cm.index {
      assert P.Has(h.leaderLog, p.term, cm.term, cm.index);
      assert P.LeaderLogOk(h.leaderLog, cm.term, h.elected[cm.term], h.leaderLog[cm.term]);
      assert p.log[index - 1] == p.log[..cm.index][index - 1] == h.leaderLog[cm.term][..cm.index][index - 1];
    }
  }

  lemma SoundIsConfirmed(h: P.History, n: Id, q: Id, match': nat, index: nat)
    requires P.Inv(h) && n in h.peers && h.peers[n].role.Leader?
    requires Sound(h, q, h.peers[n].term, match') && index <= match'
    requires h.peers[n].commit < index <= |h.peers[n].log| && h.peers[n].log[index - 1].term == h.peers[n].term
    ensures ProtocolCommits.Confirmed(h.acks, q, h.peers[n].term, index)
  {
    hide P.Inv;
    var p := h.peers[n];
    if P.Ack(q, p.term, match') !in h.acks {
      var cm :| cm in h.commits && Reaches(cm, p.term, match');
      ReachesIsOld(h, n, cm, index);
    }
  }

  /** The holders that maybeCommit counts form a majority. */
  lemma HoldersAreMajority(members: set<Id>, n: Id, node: Node, index: nat)
    requires PeerList(members, n, node.peers) && node.id == n && |node.log| > 0
    requires index <= QuorumIndex(node)
    ensures IsMajority(Holders(node, index), members)
  {
    CommitRule.QuorumIndexIsGreatest(node, index);
    CommitRule.CountProgress(node, index);
    MajorityOfMembers(members, n, node);
    var reached := CommitRule.Reached(node.peers, node.matchIndex, index);
    assert Holders(node, index) == reached + {n};
    assert forall q :: q in reached ==> q in PeerSet(node.peers);
    assert n !in reached;
  }

  lemma CountableHolders(h: P.History, n: Id, node: Node, intact: bool)
    requires P.Inv(h) && NodeOk(h, n, node, intact) && node.role == Leader
    requires MaybeCommit(node).commitIndex > node.commitIndex
    ensures var index := MaybeCommit(node).commitIndex;
            ProtocolCommits.Countable(h, n, index, Holders(node, index))
  {
    hide P.Inv, Stored, Replayed, QuorumIndex, Sound, P.PeerLogOk, P.LeaderLogOk;
    var p := h.peers[n];
    var index := QuorumIndex(node);
    LeaderFacts(h, n);
    GetCompacted(p.log, p.base, index);
    HoldersAreMajority(h.members, n, node, index);
    forall x | x in Holders(node, index)
      ensures x == n || ProtocolCommits.Confirmed(h.acks, x, p.term, index)
    {
      if x != n {
        SoundIsConfirmed(h, n, x, Index(node.matchIndex, x), index);
      }
    }
  }

  // ---------------------------------------------------------------- replies

  lemma AdvanceNode(h: P.History, n: Id, node: Node, intact: bool, index: nat, holders: set<Id>)
    requires NodeOk(h, n, node, intact) && h.peers[n].commit <= index <= |h.peers[n].log|
    ensures NodeOk(P.Advance(h, n, index, holders), n, node.(commitIndex := index), intact)
    ensures Grows(h, P.Advance(h, n, index, holders))
  {
    TrackingGrows(h, P.Advance(h, n, index, holders), node);
  }

  /** The leader's bookkeeping after one more peer's progress is known. */
  lemma MatchedNode(h: P.History, n: Id, node: Node, intact: bool, q: Id, match': nat, next: nat)
    requires NodeOk(h, n, node, intact) && Sound(h, q, node.term, match') && next >= 1
    ensures NodeOk(h, n, node.(matchIndex := node.matchIndex[q := match'], nextIndex := node.nextIndex[q := next]), intact)
  {
  }

  lemma NextNode(h: P.History, n: Id, node: Node, intact: bool, q: Id, next: nat)
    requires NodeOk(h, n, node, intact) && next >= 1
    ensures NodeOk(h, n, node.(nextIndex := node.nextIndex[q := next]), intact)
  {
  }

  lemma BacksUpToOne(log: seq<LogEntry>, reply: AppendReply)
    requires |log| > 0
    ensures BackUp(log, reply) >= 1
  {
    hide LastIndexForTerm;
  }

  lemma ReplaceGood(c: Cluster, n: Id, node: Node)
    requires Good(c) && n in c.nodes && NodeOk(c.history, n, node, !c.skewed)
    ensures Good(WithNode(c, n, node))
  {
    hide P.Inv, MessageOk, RoundsOk, NodeOk;
    MemberFacts(c, n);
    GrowsSame(c.history);
    Assemble(c, WithNode(c, n, node), n, {});
  }

  lemma CommitGood(c: Cluster, n: Id)
    requires Good(c) && n in c.nodes && c.nodes[n].role == Leader
    ensures n in c.history.peers && |c.nodes[n].log| > 0
    ensures var node := MaybeCommit(c.nodes[n]);
            var h := if node.commitIndex > c.nodes[n].commitIndex
                     then P.Advance(c.history, n, node.commitIndex, Holders(node, node.commitIndex)) else c.history;
            Good(Record(WithNode(c, n, node), h)) && Grows(c.history, h)
  {
    hide P.Inv, NodeOk, MessageOk, RoundsOk, QuorumIndex, Grows, ProtocolCommits.Countable;
    MemberFacts(c, n);
    TermMirrors(c, n);
    var node := MaybeCommit(c.nodes[n]);
    var index := node.commitIndex;
    if index > c.nodes[n].commitIndex {
      var holders := Holders(c.nodes[n], index);
      assert Holders(node, index) == holders;
      CountableHolders(c.history, n, c.nodes[n], !c.skewed);
      CountableRange(c.history, n, index, holders);
      ProtocolCommits.AdvanceInv(c.history, n, index, holders);
      AdvanceNode(c.history, n, c.nodes[n], !c.skewed, index, holders);
      var c' := Record(WithNode(c, n, node), P.Advance(c.history, n, index, holders));
      StandingStill(c.history, c'.history, n);
      Assemble(c, c', n, {});
    } else {
      GrowsSame(c.history);
      assert c.nodes[n := node] == c.nodes;
    }
  }

  lemma CountableRange(h: P.History, n: Id, index: nat, holders: set<Id>)
    requires n in h.peers && ProtocolCommits.Countable(h, n, index, holders)
    ensures h.peers[n].commit < index <= |h.peers[n].log|
  {
  }

  lemma AppendAnswerFacts(c: Cluster, from: Id, args: AppendArgs, reply: AppendReply)
    requires Good(c) && AppendAnswer(from, args, reply) in c.messages
    ensures args.term <= reply.term && args.leader in c.history.members
    ensures from in c.history.members && from != args.leader
    ensures reply.success ==> Sound(c.history, from, args.term, args.prevIndex + |args.entries|)
  {
    hide P.Inv, NodesOk, RoundsOk, Sound, LeaderSlice;
    assert MessageOk(c.history, c.rounds, AppendAnswer(from, args, reply), !c.skewed);
  }

  lemma TrackedSound(h: P.History, n: Id, node: Node, intact: bool, q: Id)
    requires NodeOk(h, n, node, intact) && node.role == Leader && q in node.peers
    ensures Sound(h, q, node.term, Index(node.matchIndex, q))
  {
  }

  lemma SuccessGood(c: Cluster, n: Id, from: Id, index: nat)
    requires Good(c) && n in c.nodes && c.nodes[n].role == Leader && from in c.nodes[n].peers
    requires Sound(c.history, from, c.nodes[n].term, index)
    ensures var node := c.nodes[n];
            var match' := if index > Index(node.matchIndex, from) then index else Index(node.matchIndex, from);
            Good(WithNode(c, n, node.(matchIndex := node.matchIndex[from := match'],
                                      nextIndex := node.nextIndex[from := match' + 1])))
  {
    hide P.Inv, NodeOk, MessageOk, RoundsOk, Sound, Good;
    MemberFacts(c, n);
    var node := c.nodes[n];
    TrackedSound(c.history, n, node, !c.skewed, from);
    var match' := if index > Index(node.matchIndex, from) then index else Index(node.matchIndex, from);
    MatchedNode(c.history, n, node, !c.skewed, from, match', match' + 1);
    ReplaceGood(c, n, node.(matchIndex := node.matchIndex[from := match'], nextIndex := node.nextIndex[from := match' + 1]));
  }

  lemma FromIsPeer(c: Cluster, n: Id, from: Id)
    requires Good(c) && n in c.nodes && from in c.history.members && from != n
    ensures from in c.nodes[n].peers
  {
    hide P.Inv, Mirrors, Stored, Applied, Replayed, Tracking, MessageOk, RoundsOk;
    assert NodeOk(c.history, n, c.nodes[n], !c.skewed);
    assert from in PeerSet(c.nodes[n].peers);
  }

  /** A confirmation moves the peer's indices, then the leader counts. */
  lemma ConfirmedGood(c: Cluster, n: Id, from: Id, args: AppendArgs, reply: AppendReply)
    requires Good(c) && Live(c, n) && from in c.nodes[n].peers && reply.success
    requires c.nodes[n].role == Leader && reply.term <= c.nodes[n].term == args.term == c.history.peers[n].term
    requires Sound(c.history, from, args.term, args.prevIndex + |args.entries|)
    ensures var c' := OnAppendAnswer(c, n, from, args, reply);
            Good(c') && Grows(c.history, c'.history)
  {
    hide Good, NodeOk, QuorumIndex, Grows, Sound;
    var node := c.nodes[n];
    var confirmed := args.prevIndex + |args.entries|;
    SuccessGood(c, n, from, confirmed);
    var match' := if confirmed > Index(node.matchIndex, from) then confirmed else Index(node.matchIndex, from);
    var c1 := WithNode(c, n, node.(matchIndex := node.matchIndex[from := match'],
                                   nextIndex := node.nextIndex[from := match' + 1]));
    CommitGood(c1, n);
    var node' := MaybeCommit(c1.nodes[n]);
    assert c.nodes[n := node'] == c1.nodes[n := node'];
  }

  lemma AppendAnswerGood(c: Cluster, from: Id, args: AppendArgs, reply: AppendReply)
    requires Good(c) && args.leader in c.nodes && AppendAnswer(from, args, reply) in c.messages
    ensures args.leader in c.history.peers && |c.nodes[args.leader].log| > 0
    ensures var c' := OnAppendAnswer(c, args.leader, from, args, reply);
            Good(c') && Grows(c.history, c'.history)
  {
    hide Good, NodeOk, QuorumIndex, Grows, Sound, BackUp;
    var n := args.leader;
    var node := c.nodes[n];
    TermMirrors(c, n);
    MemberFacts(c, n);
    GrowsSame(c.history);
    AppendAnswerFacts(c, from, args, reply);
    var c' := OnAppendAnswer(c, n, from, args, reply);
    if reply.term > node.term {
      CaughtGood(c, n, reply.term);
      assert c' == Caught(c, n, reply.term);
    } else if node.role != Leader || node.term != args.term {
      assert c.nodes[n := node] == c.nodes;
      assert c' == c;
    } else if reply.success {
      hide OnAppendAnswer, ReceiveAppendReply;
      FromIsPeer(c, n, from);
      ConfirmedGood(c, n, from, args, reply);
    } else {
      BacksUpToOne(node.log, reply);
      NextNode(c.history, n, node, !c.skewed, from, BackUp(node.log, reply));
      ReplaceGood(c, n, node.(nextIndex := node.nextIndex[from := BackUp(node.log, reply)]));
    }
  }

  lemma SnapshotAnswerFacts(c: Cluster, from: Id, args: SnapshotArgs, reply: SnapshotReply)
    requires Good(c) && SnapshotAnswer(from, args, reply) in c.messages
    ensures args.term <= reply.term && from in c.history.members && from != args.leader
    ensures reply.term == args.term ==> Sound(c.history, from, args.term, args.lastIndex)
  {
    hide P.Inv, NodesOk, RoundsOk, Sound;
    assert MessageOk(c.history, c.rounds, SnapshotAnswer(from, args, reply), !c.skewed);
  }

  lemma SnapshotAnswerGood(c: Cluster, from: Id, args: SnapshotArgs, reply: SnapshotReply)
    requires Good(c) && args.leader in c.nodes && SnapshotAnswer(from, args, reply) in c.messages
    ensures args.leader in c.history.peers
    ensures var c' := OnSnapshotAnswer(c, args.leader, from, args, reply);
            Good(c') && Grows(c.history, c'.history)
  {
    hide Good, NodeOk, Grows, Sound;
    var n := args.leader;
    var node := c.nodes[n];
    TermMirrors(c, n);
    MemberFacts(c, n);
    GrowsSame(c.history);
    SnapshotAnswerFacts(c, from, args, reply);
    var c' := OnSnapshotAnswer(c, n, from, args, reply);
    if reply.term > node.term {
      CaughtGood(c, n, reply.term);
      assert c' == Caught(c, n, reply.term);
    } else if node.role != Leader || node.term != args.term {
      assert c.nodes[n := node] == c.nodes;
      assert c' == c;
    } else {
      FromIsPeer(c, n, from);
      SuccessGood(c, n, from, args.lastIndex);
    }
  }
}
