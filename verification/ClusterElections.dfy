/** Events of an election keep the cluster good. */
module ClusterElections {
  import opened Entries
  import opened Logs
  import opened Quorums
  import opened Nodes
  import opened Cluster
  import opened ClusterInv
  import P = Protocol
  import ProtocolSteps
  import ProtocolElections

  // ---------------------------------------------------------------- shared

  /** Writing the state file makes the disk hold the node, whatever it held before. */
  lemma PersistStores(node: Node, p: P.Peer)
    requires Mirrors(node, p)
    requires node.disk.snapshot.index == p.base && node.disk.snapshot.term == TermAt(p.log, p.base)
    ensures Stored(Persist(node), p) && Mirrors(Persist(node), p)
  {
  }

  lemma GrowsSame(h: P.History)
    ensures Grows(h, h)
  {
  }

  lemma MemberFacts(c: Cluster, n: Id)
    requires Good(c) && n in c.nodes
    ensures n in c.history.peers && n in c.history.members && n != ""
    ensures NodeOk(c.history, n, c.nodes[n], !c.skewed)
    ensures c.nodes.Keys == c.history.members == c.history.peers.Keys
    ensures Live(c, n)
  {
  }

  /** A node after it has taken over a higher term, if there is one to take over. */
  ghost function Caught(c: Cluster, n: Id, term: nat): Cluster
    requires n in c.nodes && n in c.history.peers
  {
    if term > c.nodes[n].term
    then Record(WithNode(c, n, BecomeFollower(c.nodes[n], term)), P.Follow(c.history, n, term)) else c
  }

  lemma FollowNode(h: P.History, n: Id, node: Node, term: nat, intact: bool)
    requires NodeOk(h, n, node, intact) && term > node.term
    ensures NodeOk(P.Follow(h, n, term), n, BecomeFollower(node, term), intact)
  {
    var p := h.peers[n];
    PersistStores(node.(role := Follower, term := term, votedFor := "", leaderId := ""),
                  p.(term := term, vote := "", role := Follower));
  }

  lemma FollowGrows(h: P.History, n: Id, term: nat)
    requires n in h.peers && term >= h.peers[n].term
    ensures Grows(h, P.Follow(h, n, term)) && StillStanding(h, P.Follow(h, n, term), n)
  {
  }

  lemma CaughtGood(c: Cluster, n: Id, term: nat)
    requires Good(c) && n in c.nodes
    ensures n in c.history.peers && Good(Caught(c, n, term)) && Grows(c.history, Caught(c, n, term).history)
    ensures Caught(c, n, term).nodes.Keys == c.nodes.Keys
    ensures Caught(c, n, term).nodes[n].term >= term && n in Caught(c, n, term).history.peers
  {
    hide P.Inv, NodeOk, MessageOk, RoundsOk, Grows;
    MemberFacts(c, n);
    TermMirrors(c, n);
    GrowsSame(c.history);
    if term > c.nodes[n].term {
      ProtocolSteps.FollowInv(c.history, n, term);
      FollowNode(c.history, n, c.nodes[n], term, !c.skewed);
      FollowGrows(c.history, n, term);
      Assemble(c, Caught(c, n, term), n, {});
    }
  }

  lemma TermMirrors(c: Cluster, n: Id)
    requires Good(c) && n in c.nodes
    ensures n in c.history.peers && c.nodes[n].term == c.history.peers[n].term
    ensures c.nodes[n].role == c.history.peers[n].role
    ensures |c.nodes[n].log| > 0
  {
    assert NodeOk(c.history, n, c.nodes[n], !c.skewed);
  }

  // ---------------------------------------------------------------- standing

  lemma StandNode(h: P.History, n: Id, node: Node, intact: bool)
    requires NodeOk(h, n, node, intact)
    ensures NodeOk(P.Stand(h, n), n, BecomeCandidate(node), intact)
  {
    var p := h.peers[n];
    PersistStores(node.(role := Candidate, term := node.term + 1, votedFor := n, leaderId := ""),
                  p.(term := p.term + 1, vote := n, role := Candidate));
  }

  lemma StandGrows(h: P.History, n: Id)
    requires n in h.peers
    ensures Grows(h, P.Stand(h, n)) && StillStanding(h, P.Stand(h, n), n)
  {
  }

  lemma StandGood(c: Cluster, n: Id)
    requires Good(c) && n in c.nodes && MayStand(c.nodes[n])
    ensures n in c.history.peers && Good(OnStand(c, n)) && Grows(c.history, OnStand(c, n).history)
  {
    hide P.Inv, NodeOk, MessageOk, RoundsOk, Grows;
    MemberFacts(c, n);
    TermMirrors(c, n);
    ProtocolElections.StandInv(c.history, n);
    StandNode(c.history, n, c.nodes[n], !c.skewed);
    StandGrows(c.history, n);
    Assemble(c, OnStand(c, n).(launching := c.launching), n, {});
  }

  lemma LaunchRound(h: P.History, n: Id, node: Node, intact: bool)
    requires P.Inv(h) && NodeOk(h, n, node, intact)
    ensures RoundOk(h, Round(BuildVoteArgs(node), {}))
  {
    LastCompacted(h.peers[n].log, h.peers[n].base);
  }

  lemma LaunchGood(c: Cluster, n: Id)
    requires Good(c) && n in c.nodes
    ensures n in c.history.peers && |c.nodes[n].log| > 0 && Good(OnLaunch(c, n))
  {
    hide P.Inv, Mirrors, Stored, Applied, Replayed, Tracking, RoundOk;
    MemberFacts(c, n);
    TermMirrors(c, n);
    var c' := OnLaunch(c, n);
    LaunchRound(c.history, n, c.nodes[n], !c.skewed);
    MessagesGrow(c, c.history, c'.rounds, !c.skewed);
    forall m | m in c'.messages
      ensures MessageOk(c.history, c'.rounds, m, !c.skewed)
    {
      if m !in c.messages {
        var args := BuildVoteArgs(c.nodes[n]);
        var p :| p in c.nodes[n].peers && m == VoteRequest(p, |c.rounds|, args);
        assert p in PeerSet(c.nodes[n].peers);
        assert Requested(c.history, c'.rounds, |c.rounds|, args, p);
      }
    }
  }

  // ---------------------------------------------------------------- voting

  lemma GrantNode(h: P.History, n: Id, node: Node, intact: bool, vote: P.Vote)
    requires NodeOk(h, n, node, intact)
    ensures NodeOk(P.Grant(h, n, vote), n, Persist(node.(votedFor := vote.candidate)), intact)
  {
    var p := h.peers[n];
    PersistStores(node.(votedFor := vote.candidate), p.(vote := vote.candidate));
  }

  /** A request of a term the node has reached already. */
  lemma LateVoteRequestGood(c: Cluster, n: Id, round: nat, args: VoteArgs)
    requires Good(c) && n in c.nodes && n in c.history.peers && |c.nodes[n].log| > 0
    requires VoteRequest(n, round, args) in c.messages && args.term <= c.nodes[n].term
    ensures Good(OnVoteRequest(c, n, round, args)) && Grows(c.history, OnVoteRequest(c, n, round, args).history)
  {
    hide P.Inv, NodeOk, MessageOk, RoundOk, Grows, UpToDate;
    MemberFacts(c, n);
    TermMirrors(c, n);
    RequestFacts(c, n, round, args);
    GrowsSame(c.history);
    var node := c.nodes[n];
    var c' := OnVoteRequest(c, n, round, args);
    var (_, reply) := HandleRequestVote(node, args, false);
    var answer := VoteAnswer(n, round, args, reply);
    if reply.granted {
      GrantAllowed(c, n, args);
      ProtocolElections.GrantInv(c.history, n, VoteFor(args, n));
      GrantNode(c.history, n, node, !c.skewed, VoteFor(args, n));
      GrantGrows(c.history, n, VoteFor(args, n));
    }
    assert MessageOk(c'.history, c.rounds, answer, !c.skewed) by {
      AnswerOk(c'.history, c.rounds, n, round, args, reply, !c.skewed);
    }
    Assemble(c, c', n, {answer});
  }

  lemma GrantGrows(h: P.History, n: Id, vote: P.Vote)
    requires n in h.peers
    ensures Grows(h, P.Grant(h, n, vote)) && StillStanding(h, P.Grant(h, n, vote), n)
  {
  }

  lemma AnswerOk(h: P.History, rounds: seq<Round>, n: Id, round: nat, args: VoteArgs, reply: VoteReply, intact: bool)
    requires Requested(h, rounds, round, args, n)
    requires reply.granted ==> reply.term == args.term && VoteFor(args, n) in h.votes
    ensures MessageOk(h, rounds, VoteAnswer(n, round, args, reply), intact)
  {
  }

  lemma RequestFacts(c: Cluster, n: Id, round: nat, args: VoteArgs)
    requires Good(c) && VoteRequest(n, round, args) in c.messages
    ensures Requested(c.history, c.rounds, round, args, n)
    ensures RoundOk(c.history, c.rounds[round]) && !args.isPreVote && args.candidate in c.history.peers
  {
    assert MessageOk(c.history, c.rounds, VoteRequest(n, round, args), !c.skewed);
    assert RoundOk(c.history, c.rounds[round]);
  }

  /** What the handler checks is what the protocol asks of a vote. */
  lemma GrantAllowed(c: Cluster, n: Id, args: VoteArgs)
    requires Good(c) && n in c.nodes && n in c.history.peers && |c.nodes[n].log| > 0
    requires args.term <= c.nodes[n].term && !args.isPreVote && args.candidate in c.history.peers
    requires HandleRequestVote(c.nodes[n], args, false).1.granted
    ensures var p := c.history.peers[n];
            && args.term == p.term
            && (p.vote == "" || p.vote == args.candidate)
            && P.AtLeast(args.lastTerm, args.lastIndex, LastTermOf(p.log), |p.log|)
  {
    hide P.Inv;
    MemberFacts(c, n);
    LastCompacted(c.history.peers[n].log, c.history.peers[n].base);
  }

  lemma CatchThenVote(c: Cluster, n: Id, round: nat, args: VoteArgs)
    requires n in c.nodes && n in c.history.peers && |c.nodes[n].log| > 0
    requires !args.isPreVote && c.nodes[n].term == c.history.peers[n].term
    ensures OnVoteRequest(c, n, round, args) == OnVoteRequest(Caught(c, n, args.term), n, round, args)
  {
    if args.term > c.nodes[n].term {
      var c1 := Caught(c, n, args.term);
      assert HandleRequestVote(c.nodes[n], args, false) == HandleRequestVote(c1.nodes[n], args, false);
      var (node, _) := HandleRequestVote(c.nodes[n], args, false);
      assert c1.nodes[n := node] == c.nodes[n := node];
    }
  }

  lemma VoteRequestGood(c: Cluster, n: Id, round: nat, args: VoteArgs)
    requires Good(c) && n in c.nodes && VoteRequest(n, round, args) in c.messages
    ensures n in c.history.peers && |c.nodes[n].log| > 0
    ensures Good(OnVoteRequest(c, n, round, args)) && Grows(c.history, OnVoteRequest(c, n, round, args).history)
  {
    hide RoundOk, Good, Grows, OnVoteRequest;
    TermMirrors(c, n);
    RequestFacts(c, n, round, args);
    CaughtGood(c, n, args.term);
    var c1 := Caught(c, n, args.term);
    TermMirrors(c1, n);
    CatchThenVote(c, n, round, args);
    LateVoteRequestGood(c1, n, round, args);
    GrowsFurther(c.history, c1.history, OnVoteRequest(c, n, round, args).history);
  }

  // ---------------------------------------------------------------- counting votes

  lemma {:induction false} DistinctSize(s: seq<Id>)
    requires Distinct(s)
    ensures |PeerSet(s)| == |s|
  {
    if |s| > 0 {
      var rest := s[..|s| - 1];
      DistinctSize(rest);
      assert PeerSet(s) == PeerSet(rest) + {s[|s| - 1]};
    }
  }

  /** The code's majority of peers plus self is a majority of the members. */
  lemma MajorityOfMembers(members: set<Id>, n: Id, node: Node)
    requires PeerList(members, n, node.peers)
    ensures Majority(node) == MajoritySize(|members|)
  {
    DistinctSize(node.peers);
    assert members == PeerSet(node.peers) + {n};
  }

  /** The vote that completes a majority: the history records a legal election. */
  lemma WinningRound(h: P.History, n: Id, node: Node, r: Round, intact: bool)
    requires P.Inv(h) && P.VotesKept(h) && NodeOk(h, n, node, intact) && RoundOk(h, r)
    requires r.args.candidate == n && node.role == Candidate && node.term == r.args.term
    requires 1 + |r.granted| >= Majority(node)
    ensures ProtocolElections.Backed(h, n, r.granted + {n})
  {
    hide P.ElectionsOk, P.VotesOk, P.ForgotOk, P.LeaderLogsOk, P.AcksOk, P.MatchesOk, P.VotesForce, P.CommitsOk,
         P.PeerLogsOk;
    MajorityOfMembers(h.members, n, node);
    assert |r.granted + {n}| == |r.granted| + 1;
    ProtocolElections.TermIsOpen(h, n, r.granted + {n}, r.args.lastTerm, r.args.lastIndex);
    assert P.RoleOk(h.elected, h.leaderLog, h.votes, n, h.peers[n]);
  }

  lemma WinNode(h: P.History, n: Id, node: Node, intact: bool, voters: set<Id>)
    requires NodeOk(h, n, node, intact)
    ensures NodeOk(P.Win(h, n, voters), n, BecomeLeader(node), intact)
  {
  }

  lemma WinGrows(h: P.History, n: Id, voters: set<Id>)
    requires P.Inv(h) && n in h.peers && h.peers[n].term !in h.elected
    ensures Grows(h, P.Win(h, n, voters))
  {
    hide P.ElectionsOk, P.VotesOk, P.ForgotOk, P.LeaderLogsOk, P.AcksOk, P.MatchesOk, P.VotesForce, P.CommitsOk;
    hide P.RolesOk, P.PeerLogsOk, P.LeadersInformed;
  }

  lemma WinStanding(h: P.History, n: Id, voters: set<Id>)
    requires n in h.peers
    ensures StillStanding(h, P.Win(h, n, voters), n)
  {
  }

  lemma CountedRound(h: P.History, r: Round, from: Id)
    requires RoundOk(h, r) && from in h.members && from != r.args.candidate && VoteFor(r.args, from) in h.votes
    ensures RoundOk(h, r.(granted := r.granted + {from}))
  {
  }

  /** One more counted vote, before the count is compared with the majority. */
  ghost function Counted(c: Cluster, round: nat, from: Id): Cluster
    requires round < |c.rounds|
  {
    c.(rounds := c.rounds[round := c.rounds[round].(granted := c.rounds[round].granted + {from})])
  }

  lemma CountedGood(c: Cluster, round: nat, from: Id)
    requires Good(c) && round < |c.rounds|
    requires from in c.history.members && from != c.rounds[round].args.candidate
    requires VoteFor(c.rounds[round].args, from) in c.history.votes
    ensures Good(Counted(c, round, from))
  {
    hide P.Inv, NodeOk, MessageOk, RoundOk;
    var c' := Counted(c, round, from);
    CountedRound(c.history, c.rounds[round], from);
    MessagesGrow(c, c.history, c'.rounds, !c.skewed);
  }

  lemma AnswerFacts(c: Cluster, from: Id, round: nat, args: VoteArgs, reply: VoteReply)
    requires Good(c) && VoteAnswer(from, round, args, reply) in c.messages
    ensures Requested(c.history, c.rounds, round, args, from)
    ensures RoundOk(c.history, c.rounds[round]) && args.candidate in c.history.peers
    ensures reply.granted ==> VoteFor(args, from) in c.history.votes
  {
    assert MessageOk(c.history, c.rounds, VoteAnswer(from, round, args, reply), !c.skewed);
    assert RoundOk(c.history, c.rounds[round]);
  }

  lemma BecomeLeaderGood(c: Cluster, n: Id, round: nat)
    requires Good(c) && P.VotesKept(c.history) && n in c.nodes && round < |c.rounds|
    requires c.rounds[round].args.candidate == n && c.nodes[n].role == Candidate
    requires c.nodes[n].term == c.rounds[round].args.term
    requires 1 + |c.rounds[round].granted| >= Majority(c.nodes[n])
    ensures n in c.history.peers && |c.nodes[n].log| > 0
    ensures var c' := Record(WithNode(c, n, BecomeLeader(c.nodes[n])), P.Win(c.history, n, c.rounds[round].granted + {n}));
            Good(c') && Grows(c.history, c'.history)
  {
    hide P.Inv, NodeOk, MessageOk, RoundOk, Grows;
    MemberFacts(c, n);
    TermMirrors(c, n);
    var voters := c.rounds[round].granted + {n};
    var c' := Record(WithNode(c, n, BecomeLeader(c.nodes[n])), P.Win(c.history, n, voters));
    WinningRound(c.history, n, c.nodes[n], c.rounds[round], !c.skewed);
    ProtocolElections.WinInv(c.history, n, voters);
    WinNode(c.history, n, c.nodes[n], !c.skewed, voters);
    WinGrows(c.history, n, voters);
    WinStanding(c.history, n, voters);
    Assemble(c, c', n, {});
  }

  lemma VoteAnswerGood(c: Cluster, from: Id, round: nat, args: VoteArgs, reply: VoteReply)
    requires Good(c) && P.VotesKept(c.history) && args.candidate in c.nodes
    requires VoteAnswer(from, round, args, reply) in c.messages
    ensures round < |c.rounds| && args.candidate in c.history.peers && |c.nodes[args.candidate].log| > 0
    ensures var c' := OnVoteAnswer(c, args.candidate, from, round, reply);
            Good(c') && Grows(c.history, c'.history)
  {
    hide P.Inv, NodeOk, MessageOk, RoundOk, Good;
    var n := args.candidate;
    TermMirrors(c, n);
    AnswerFacts(c, from, round, args, reply);
    var node := c.nodes[n];
    var r := c.rounds[round];
    var c' := OnVoteAnswer(c, n, from, round, reply);
    if from in r.granted {
    } else if reply.term > node.term {
      CaughtGood(c, n, reply.term);
      assert c.rounds[round := r] == c.rounds;
      assert c' == Caught(c, n, reply.term);
    } else if node.role != Candidate || node.term != args.term || !reply.granted {
      assert c.rounds[round := r] == c.rounds;
      assert c.nodes[n := node] == c.nodes;
      assert c' == c;
    } else {
      CountedGood(c, round, from);
      var c1 := Counted(c, round, from);
      assert |r.granted + {from}| == |r.granted| + 1;
      if 2 + |r.granted| >= Majority(node) {
        BecomeLeaderGood(c1, n, round);
      } else {
        assert c.nodes[n := node] == c.nodes;
        assert c' == c1;
      }
    }
  }

  // ---------------------------------------------------------------- quorum check

  lemma ForgetNode(h: P.History, n: Id, node: Node, intact: bool)
    requires NodeOk(h, n, node, intact)
    ensures NodeOk(P.Forget(h, n), n, BecomeFollower(node, node.term), intact)
  {
    var p := h.peers[n];
    PersistStores(node.(role := Follower, votedFor := "", leaderId := ""), p.(vote := "", role := Follower));
  }

  lemma ForgetGrows(h: P.History, n: Id)
    requires n in h.peers
    ensures Grows(h, P.Forget(h, n)) && StillStanding(h, P.Forget(h, n), n)
  {
  }

  lemma QuorumCheckGood(c: Cluster, n: Id, heard: nat)
    requires Good(c) && n in c.nodes
    ensures n in c.history.peers && Good(OnQuorumCheck(c, n, heard))
            && Grows(c.history, OnQuorumCheck(c, n, heard).history)
  {
    hide P.Inv, NodeOk, MessageOk, RoundsOk, Grows;
    MemberFacts(c, n);
    TermMirrors(c, n);
    GrowsSame(c.history);
    var c' := OnQuorumCheck(c, n, heard);
    if StepsDown(c, n, heard) {
      ProtocolSteps.ForgetInv(c.history, n);
      ForgetNode(c.history, n, c.nodes[n], !c.skewed);
      ForgetGrows(c.history, n);
      Assemble(c, c', n, {});
    } else {
      assert c.nodes[n := c.nodes[n]] == c.nodes;
      assert c' == c;
    }
  }
}
