/** Standing, voting and winning. */
module ProtocolElections {
  import opened Entries
  import opened Quorums
  import opened Protocol
  import opened ProtocolFacts
  import opened ProtocolSteps

  // ---------------------------------------------------------------- a new vote

  /** A new vote forces its candidate up to everything the voter has confirmed. */
  lemma NewVoteForces(h: History, n: Id, v: Vote)
    requires AcksOk(h.peers, h.leaderLog, h.acks)
    requires VotesForce(h.elected, h.leaderLog, h.votes, h.acks)
    requires n in h.peers && v.voter == n
    requires v.term == h.peers[n].term || v.term == h.peers[n].term + 1
    requires AtLeast(v.lastTerm, v.lastIndex, LastTermOf(h.peers[n].log), |h.peers[n].log|)
    requires h.elected.Keys == h.leaderLog.Keys
    ensures VotesForce(h.elected, h.leaderLog, h.votes + {v}, h.acks)
  {
    var ll := h.leaderLog;
    var p := h.peers[n];
    forall a | a in h.acks
      ensures OpenVoteForces(h.elected, ll, v, a)
    {
      if v.term !in h.elected && a.voter == n && a.term < v.term {
        assert AckOk(h.peers, ll, a);
        forall k | 1 <= k <= a.index
          ensures Forces(ll, a, k, v.lastTerm, v.lastIndex, v.term)
        {
          assert Retained(ll, a, k, p);
          if AllHave(ll, a.term, k, v.term) {
            assert AllHave(ll, a.term, k, p.term + 1);
            KeepsIsUpToDate(p.log, ll[a.term], k);
          }
        }
      }
    }
  }

  lemma MoreVotes(h: History, votes: set<Vote>)
    requires ElectionsOk(h.members, h.peers, h.elected, h.votes) && h.votes <= votes
    requires RolesOk(h.peers, h.elected, h.leaderLog, h.votes)
    ensures ElectionsOk(h.members, h.peers, h.elected, votes)
    ensures RolesOk(h.peers, h.elected, h.leaderLog, votes)
  {
    forall t | t in h.elected
      ensures ElectionOk(h.members, h.peers, votes, t, h.elected[t])
    {
      assert ElectionOk(h.members, h.peers, h.votes, t, h.elected[t]);
    }
    forall n | n in h.peers
      ensures RoleOk(h.elected, h.leaderLog, votes, n, h.peers[n])
    {
      assert RoleOk(h.elected, h.leaderLog, h.votes, n, h.peers[n]);
    }
  }

  lemma GrantVotesOk(h: History, n: Id, vote: Vote)
    requires VotesOk(h.peers, h.votes, h.forgot) && "" !in h.peers
    requires n in h.peers && vote.voter == n && vote.term == h.peers[n].term
    requires vote.candidate in h.peers
    requires h.peers[n].vote == "" || h.peers[n].vote == vote.candidate
    ensures VotesOk(h.peers[n := h.peers[n].(vote := vote.candidate)], h.votes + {vote}, h.forgot)
  {
    var peers' := h.peers[n := h.peers[n].(vote := vote.candidate)];
    forall v | v in h.votes + {vote}
      ensures VoteOk(peers', h.forgot, v)
      ensures SameChoice(h.forgot, v, vote) && SameChoice(h.forgot, vote, v)
    {
      if v in h.votes {
        assert VoteOk(h.peers, h.forgot, v);
      }
    }
  }

  lemma GrantInv(h: History, n: Id, vote: Vote)
    requires Inv(h) && n in h.peers
    requires vote.voter == n && vote.term == h.peers[n].term && vote.candidate in h.peers
    requires h.peers[n].vote == "" || h.peers[n].vote == vote.candidate
    requires AtLeast(vote.lastTerm, vote.lastIndex, LastTermOf(h.peers[n].log), |h.peers[n].log|)
    ensures Inv(Grant(h, n, vote))
  {
    hide ElectionsOk, VotesOk, ForgotOk, LeaderLogsOk, AcksOk, MatchesOk, VotesForce, CommitsOk, PeerLogOk, RoleOk;
    var p := h.peers[n];
    var q := p.(vote := vote.candidate);
    NewVoteForces(h, n, vote);
    GrantVotesOk(h, n, vote);
    MoreVotes(h, h.votes + {vote});
    UpdateElections(h.(votes := h.votes + {vote}), n, q);
    UpdateAcks(h, n, q);
    UpdateMatches(h, n, q);
    VoteFieldOnly(h, n, vote.candidate);
    assert RoleOk(h.elected, h.leaderLog, h.votes + {vote}, n, p);
    RoleIgnoresVote(h.elected, h.leaderLog, h.votes + {vote}, n, p, vote.candidate);
  }

  lemma RoleIgnoresVote(elected: map<nat, Election>, ll: LeaderLogs, votes: set<Vote>, n: Id, p: Peer, vote: Id)
    requires RoleOk(elected, ll, votes, n, p) && (p.vote == n ==> vote == n)
    ensures RoleOk(elected, ll, votes, n, p.(vote := vote))
  {
  }

  lemma VoteFieldOnly(h: History, n: Id, vote: Id)
    requires n in h.peers && PeerLogOk(h.leaderLog, h.commits, h.peers[n])
    ensures PeerLogOk(h.leaderLog, h.commits, h.peers[n].(vote := vote))
  {
  }

  // ---------------------------------------------------------------- standing

  lemma StandVotesOk(h: History, n: Id)
    requires VotesOk(h.peers, h.votes, h.forgot) && n in h.peers
    ensures VotesOk(Stand(h, n).peers, Stand(h, n).votes, h.forgot)
  {
    var vote := OwnVote(h, n);
    forall v | v in h.votes + {vote}
      ensures VoteOk(Stand(h, n).peers, h.forgot, v)
      ensures SameChoice(h.forgot, v, vote) && SameChoice(h.forgot, vote, v)
    {
      if v in h.votes {
        assert VoteOk(h.peers, h.forgot, v);
      }
    }
  }

  lemma StandRoleOk(h: History, n: Id)
    requires Shape(h) && ElectionsOk(h.members, h.peers, h.elected, h.votes) && n in h.peers
    ensures RoleOk(h.elected, h.leaderLog, Stand(h, n).votes, n, Stand(h, n).peers[n])
  {
    var term := h.peers[n].term + 1;
    if term in h.elected {
      assert ElectionOk(h.members, h.peers, h.votes, term, h.elected[term]);
    }
  }

  lemma StandInv(h: History, n: Id)
    requires Inv(h) && n in h.peers && !h.peers[n].role.Leader?
    ensures Inv(Stand(h, n))
  {
    hide ElectionsOk, VotesOk, ForgotOk, LeaderLogsOk, AcksOk, MatchesOk, VotesForce, CommitsOk, RoleOk, PeerLogOk;
    var vote := OwnVote(h, n);
    var q := Stand(h, n).peers[n];
    NewVoteForces(h, n, vote);
    StandVotesOk(h, n);
    StandRoleOk(h, n);
    MoreVotes(h, h.votes + {vote});
    UpdateElections(h.(votes := h.votes + {vote}), n, q);
    UpdateAcks(h, n, q);
    UpdateMatches(h, n, q);
    StandPeerLog(h.leaderLog, h.commits, h.peers[n], n);
  }

  lemma StandPeerLog(ll: LeaderLogs, commits: set<Commit>, p: Peer, n: Id)
    requires PeerLogOk(ll, commits, p)
    ensures PeerLogOk(ll, commits, p.(term := p.term + 1, vote := n, role := Candidate))
  {
  }

  // ---------------------------------------------------------------- winning

  ghost predicate Backed(h: History, n: Id, voters: set<Id>)
    requires n in h.peers
  {
    var p := h.peers[n];
    && IsMajority(voters, h.members)
    && forall x :: x in voters ==> Vote(p.term, x, n, LastTermOf(p.log), |p.log|) in h.votes
  }

  /** Each of the voters but the candidate itself granted it the vote of its term. */
  ghost predicate Supported(h: History, n: Id, voters: set<Id>, lastTerm: nat, lastIndex: nat)
    requires n in h.peers
  {
    && IsMajority(voters, h.members)
    && forall x :: x in voters && x != n ==> Vote(h.peers[n].term, x, n, lastTerm, lastIndex) in h.votes
  }

  /** Election Safety: a node supported by a majority is the only winner its term can have. */
  lemma OnlyWinner(h: History, n: Id, voters: set<Id>, lastTerm: nat, lastIndex: nat)
    requires ElectionsOk(h.members, h.peers, h.elected, h.votes)
    requires VotesOk(h.peers, h.votes, h.forgot) && ForgotOk(h.elected, h.forgot)
    requires VotesKept(h)
    requires n in h.peers && h.peers[n].vote == n && Supported(h, n, voters, lastTerm, lastIndex)
    ensures h.peers[n].term in h.elected ==> h.elected[h.peers[n].term].leader == n
  {
    var p := h.peers[n];
    if p.term in h.elected {
      var e := h.elected[p.term];
      assert ElectionOk(h.members, h.peers, h.votes, p.term, e);
      var x: Id;
      if |h.members| % 2 != 0 {
        x := MajoritiesMeet(e.voters, voters, h.members);
      } else {
        x := EvenMajoritiesMeetTwice(e.voters, voters, h.members, e.leader);
      }
      var v := Vote(p.term, x, e.leader, e.lastTerm, e.lastIndex);
      assert VoteOk(h.peers, h.forgot, v);
      if x != n {
        assert SameChoice(h.forgot, v, Vote(p.term, x, n, lastTerm, lastIndex));
      }
    }
  }

  lemma TermIsOpen(h: History, n: Id, voters: set<Id>, lastTerm: nat, lastIndex: nat)
    requires Inv(h) && VotesKept(h)
    requires n in h.peers && h.peers[n].role.Candidate? && Supported(h, n, voters, lastTerm, lastIndex)
    ensures h.peers[n].term !in h.elected && h.peers[n].term >= 1
  {
    hide ElectionsOk, VotesOk, ForgotOk, LeaderLogsOk, AcksOk, MatchesOk, VotesForce, CommitsOk, PeerLogOk, Informed;
    assert RoleOk(h.elected, h.leaderLog, h.votes, n, h.peers[n]);
    OnlyWinner(h, n, voters, lastTerm, lastIndex);
  }

  /** The overlap of the commit and vote majorities forces the candidate past a commit. */
  lemma CandidateReaches(h: History, n: Id, voters: set<Id>, cm: Commit)
    requires VotesForce(h.elected, h.leaderLog, h.votes, h.acks)
    requires n in h.peers && Backed(h, n, voters) && h.peers[n].term !in h.elected
    requires CommitOk(h.members, h.leaderLog, h.acks, cm) && cm.term < h.peers[n].term
    ensures AtLeast(LastTermOf(h.peers[n].log), |h.peers[n].log|, cm.term, cm.index)
  {
    var p := h.peers[n];
    var x := MajoritiesMeet(cm.holders, voters, h.members);
    var v := Vote(p.term, x, n, LastTermOf(p.log), |p.log|);
    var a := Ack(x, cm.term, cm.index);
    assert OpenVoteForces(h.elected, h.leaderLog, v, a);
    assert Forces(h.leaderLog, a, cm.index, v.lastTerm, v.lastIndex, v.term);
  }

  /** A stale suffix ends in a term older than the commit that covers the boundary. */
  lemma StaleIsOld(members: set<Id>, ll: LeaderLogs, acks: set<Ack>, p: Peer, cm: Commit)
    requires Dirty(ll, p) && CommitOk(members, ll, acks, cm)
    requires Covers(ll, cm, p.log, p.base, p.term)
    ensures |p.log| > p.base ==> LastTermOf(p.log) < cm.term
  {
    assert p.log[p.base - 1] == p.log[..p.base][p.base - 1] == ll[cm.term][..p.base][p.base - 1];
    forall t | t in ll && t >= cm.term
      ensures p.base <= |ll[t]| && ll[t][p.base - 1] == p.log[p.base - 1]
    {
      if t > cm.term {
        assert Has(ll, t, cm.term, cm.index);
        assert ll[t][p.base - 1] == ll[t][..cm.index][p.base - 1] == ll[cm.term][..cm.index][p.base - 1];
      }
    }
  }

  /** A node with a stale suffix cannot be backed by a majority. */
  lemma WinnerIsClean(h: History, n: Id, voters: set<Id>)
    requires Shape(h) && VotesForce(h.elected, h.leaderLog, h.votes, h.acks)
    requires CommitsOk(h.members, h.leaderLog, h.acks, h.commits)
    requires n in h.peers && Backed(h, n, voters) && h.peers[n].term !in h.elected
    requires PeerLogOk(h.leaderLog, h.commits, h.peers[n])
    ensures Clean(h.leaderLog, h.peers[n].log)
  {
    hide VotesForce, Stale, Clean, Backed;
    var p := h.peers[n];
    var ll := h.leaderLog;
    if Dirty(ll, p) {
      var cm :| cm in h.commits && Covers(ll, cm, p.log, p.commit, p.term);
      assert CommitOk(h.members, ll, h.acks, cm);
      CandidateReaches(h, n, voters, cm);
      StaleIsOld(h.members, ll, h.acks, p, cm);
      assert p.log == p.log[..p.base];
    }
  }

  /** Leader Completeness at the moment of election. */
  lemma WinnerHasCommits(h: History, n: Id, voters: set<Id>, cm: Commit)
    requires Shape(h) && VotesForce(h.elected, h.leaderLog, h.votes, h.acks)
    requires ElectionsOk(h.members, h.peers, h.elected, h.votes)
    requires LeaderLogsOk(h.elected, h.leaderLog)
    requires CommitsOk(h.members, h.leaderLog, h.acks, h.commits)
    requires n in h.peers && Backed(h, n, voters) && h.peers[n].term !in h.elected
    requires PeerLogOk(h.leaderLog, h.commits, h.peers[n])
    requires cm in h.commits && cm.term < h.peers[n].term
    ensures h.leaderLog[cm.term][..cm.index] <= h.peers[n].log
  {
    assert CommitOk(h.members, h.leaderLog, h.acks, cm);
    assert ElectionOk(h.members, h.peers, h.votes, cm.term, h.elected[cm.term]);
    WinnerIsClean(h, n, voters);
    CandidateReaches(h, n, voters, cm);
    UpToDateHolds(h.elected, h.leaderLog, cm.term, cm.index, h.peers[n].log);
  }

  // ---- adding the winner's log leaves everything known about the others intact

  lemma NewLeaderLogs(h: History, n: Id, voters: set<Id>)
    requires Shape(h) && LeaderLogsOk(h.elected, h.leaderLog)
    requires n in h.peers && h.peers[n].term !in h.elected
    requires PeerLogOk(h.leaderLog, h.commits, h.peers[n]) && Clean(h.leaderLog, h.peers[n].log)
    ensures LeaderLogsOk(Win(h, n, voters).elected, Win(h, n, voters).leaderLog)
  {
    hide Covered, LeaderLogOk;
    var p := h.peers[n];
    var h' := Win(h, n, voters);
    forall t | t in h'.elected
      ensures LeaderLogOk(h'.leaderLog, t, h'.elected[t], h'.leaderLog[t])
    {
      if t != p.term {
        LeaderLogStays(h.leaderLog, p.term, p.log, t, h.elected[t]);
      } else {
        WinnersLog(h.elected, h.leaderLog, p, h'.elected[t]);
      }
    }
  }

  lemma LeaderLogStays(ll: LeaderLogs, t: nat, log: seq<LogEntry>, u: nat, e: Election)
    requires t !in ll && u in ll && LeaderLogOk(ll, u, e, ll[u])
    ensures LeaderLogOk(ll[t := log], u, e, ll[u])
  {
  }

  lemma WinnersLog(elected: map<nat, Election>, ll: LeaderLogs, p: Peer, e: Election)
    requires elected.Keys == ll.Keys && LeaderLogsOk(elected, ll)
    requires p.term !in elected && Clean(ll, p.log) && WellIndexed(p.log)
    requires forall i :: 0 <= i < |p.log| ==> 1 <= p.log[i].term <= p.term
    requires e.lastIndex == |p.log| && e.lastTerm == LastTermOf(p.log)
    ensures LeaderLogOk(ll[p.term := p.log], p.term, e, p.log)
  {
    hide LeaderLogsOk;
    CleanPrefix(elected, ll, p.log, 0);
    forall i | 0 <= i <= |p.log|
      ensures Clean(ll[p.term := p.log], p.log[..i])
    {
      CleanPrefix(elected, ll, p.log, i);
    }
    forall i | 0 <= i < |p.log|
      ensures p.log[i].term < p.term
    {
      CleanPrefix(elected, ll, p.log, i + 1);
      assert LastTermOf(p.log[..i + 1]) == p.log[i].term;
    }
  }

  lemma NewLeaderAcks(h: History, n: Id, voters: set<Id>)
    requires Shape(h) && AcksOk(h.peers, h.leaderLog, h.acks)
    requires n in h.peers && h.peers[n].term !in h.elected
    ensures AcksOk(Win(h, n, voters).peers, Win(h, n, voters).leaderLog, h.acks)
  {
    var h' := Win(h, n, voters);
    forall a | a in h.acks
      ensures AckOk(h'.peers, h'.leaderLog, a)
    {
      assert AckOk(h.peers, h.leaderLog, a);
      forall k | 1 <= k <= a.index
        ensures Retained(h'.leaderLog, a, k, h'.peers[a.voter])
      {
        assert Retained(h.leaderLog, a, k, h.peers[a.voter]);
        FewerLeaders(h.leaderLog, h.peers[n].term, h.peers[n].log, a.term, k, h.peers[a.voter].term + 1);
      }
    }
  }

  lemma FewerLeaders(ll: LeaderLogs, t: nat, log: seq<LogEntry>, c: nat, k: nat, limit: nat)
    requires t !in ll && c in ll && k <= |ll[c]|
    ensures AllHave(ll[t := log], c, k, limit) ==> AllHave(ll, c, k, limit)
  {
    var ll' := ll[t := log];
    if AllHave(ll', c, k, limit) {
      forall u | u in ll && c < u < limit
        ensures Has(ll, u, c, k)
      {
        assert Has(ll', u, c, k);
      }
    }
  }

  lemma NewLeaderMatches(h: History, n: Id, voters: set<Id>)
    requires Shape(h) && MatchesOk(h.peers, h.leaderLog, h.matched)
    requires n in h.peers && h.peers[n].term !in h.elected
    ensures MatchesOk(Win(h, n, voters).peers, Win(h, n, voters).leaderLog, h.matched)
  {
    var h' := Win(h, n, voters);
    forall a | a in h.matched
      ensures MatchOk(h'.peers, h'.leaderLog, a)
    {
      assert MatchOk(h.peers, h.leaderLog, a);
    }
  }

  lemma NewLeaderForces(h: History, n: Id, voters: set<Id>)
    requires Shape(h) && AcksOk(h.peers, h.leaderLog, h.acks)
    requires VotesForce(h.elected, h.leaderLog, h.votes, h.acks)
    requires n in h.peers && h.peers[n].term !in h.elected && Backed(h, n, voters)
    ensures VotesForce(Win(h, n, voters).elected, Win(h, n, voters).leaderLog, h.votes, h.acks)
  {
    var p := h.peers[n];
    var ll := h.leaderLog;
    var h' := Win(h, n, voters);
    forall v, a | v in h.votes && a in h.acks
      ensures OpenVoteForces(h'.elected, h'.leaderLog, v, a)
    {
      assert OpenVoteForces(h.elected, ll, v, a);
      assert AckOk(h.peers, ll, a);
      forall k | 1 <= k <= a.index
        ensures Forces(ll, a, k, v.lastTerm, v.lastIndex, v.term) ==>
                  Forces(h'.leaderLog, a, k, v.lastTerm, v.lastIndex, v.term)
      {
        FewerLeaders(ll, p.term, p.log, a.term, k, v.term);
      }
    }
    forall t, a | t in h'.elected && a in h.acks
      ensures WonVoteForces(h'.leaderLog, t, h'.elected[t], a)
    {
      var e := h'.elected[t];
      assert AckOk(h.peers, ll, a);
      forall k | 1 <= k <= a.index
        ensures Forces(ll, a, k, e.lastTerm, e.lastIndex, t) ==>
                  Forces(h'.leaderLog, a, k, e.lastTerm, e.lastIndex, t)
      {
        FewerLeaders(ll, p.term, p.log, a.term, k, t);
      }
      if t != p.term {
        assert WonVoteForces(ll, t, h.elected[t], a);
      } else if a.voter in voters {
        assert OpenVoteForces(h.elected, ll, Vote(t, a.voter, n, e.lastTerm, e.lastIndex), a);
      }
    }
  }

  lemma NewLeaderPeerLogs(h: History, n: Id, voters: set<Id>)
    requires Shape(h) && PeerLogsOk(h.peers, h.leaderLog, h.commits)
    requires n in h.peers && h.peers[n].term !in h.elected && Clean(h.leaderLog, h.peers[n].log)
    requires CommitsOk(h.members, h.leaderLog, h.acks, h.commits)
    ensures PeerLogsOk(Win(h, n, voters).peers, Win(h, n, voters).leaderLog, h.commits)
  {
    var h' := Win(h, n, voters);
    forall m | m in h'.peers
      ensures PeerLogOk(h'.leaderLog, h.commits, h'.peers[m])
    {
      PeerLogStays(h.leaderLog, h.peers[n].term, h.peers[n].log, h.commits, h.peers[m]);
    }
  }

  lemma PeerLogStays(ll: LeaderLogs, t: nat, log: seq<LogEntry>, commits: set<Commit>, p: Peer)
    requires t !in ll && PeerLogOk(ll, commits, p)
    ensures PeerLogOk(ll[t := log], commits, p)
    ensures Clean(ll, p.log) ==> PeerLogOk(ll[t := log], commits, p.(role := Leader))
  {
    if p.commit > 0 {
      var cm :| cm in commits && Covers(ll, cm, p.log, p.commit, p.term);
      assert Covers(ll[t := log], cm, p.log, p.commit, p.term);
    }
  }

  lemma NewLeaderCommits(h: History, n: Id, voters: set<Id>)
    requires Shape(h) && CommitsOk(h.members, h.leaderLog, h.acks, h.commits)
    requires n in h.peers && h.peers[n].term !in h.elected
    requires forall cm :: cm in h.commits && cm.term < h.peers[n].term ==>
               cm.term in h.leaderLog && cm.index <= |h.leaderLog[cm.term]|
               && h.leaderLog[cm.term][..cm.index] <= h.peers[n].log
    ensures CommitsOk(h.members, Win(h, n, voters).leaderLog, h.acks, h.commits)
  {
    var h' := Win(h, n, voters);
    forall cm | cm in h.commits
      ensures CommitOk(h.members, h'.leaderLog, h.acks, cm)
    {
      assert CommitOk(h.members, h.leaderLog, h.acks, cm);
      forall t | t in h'.leaderLog && t > cm.term
        ensures Has(h'.leaderLog, t, cm.term, cm.index)
      {
        if t != h.peers[n].term {
          assert Has(h.leaderLog, t, cm.term, cm.index);
        }
      }
    }
  }

  lemma NewLeaderElections(h: History, n: Id, voters: set<Id>)
    requires ElectionsOk(h.members, h.peers, h.elected, h.votes)
    requires n in h.peers && Backed(h, n, voters) && h.peers[n].term !in h.elected && h.peers[n].term >= 1
    ensures ElectionsOk(h.members, Win(h, n, voters).peers, Win(h, n, voters).elected, h.votes)
  {
    var h' := Win(h, n, voters);
    forall t | t in h'.elected
      ensures ElectionOk(h.members, h'.peers, h.votes, t, h'.elected[t])
    {
      if t != h.peers[n].term {
        assert ElectionOk(h.members, h.peers, h.votes, t, h.elected[t]);
      }
    }
  }

  lemma NewLeaderVotes(h: History, n: Id, voters: set<Id>)
    requires VotesOk(h.peers, h.votes, h.forgot) && n in h.peers
    ensures VotesOk(Win(h, n, voters).peers, h.votes, h.forgot)
  {
    forall v | v in h.votes
      ensures VoteOk(Win(h, n, voters).peers, h.forgot, v)
    {
      assert VoteOk(h.peers, h.forgot, v);
    }
  }

  lemma NewLeaderRoles(h: History, n: Id, voters: set<Id>)
    requires Shape(h) && RolesOk(h.peers, h.elected, h.leaderLog, h.votes)
    requires n in h.peers && h.peers[n].term !in h.elected
    ensures RolesOk(Win(h, n, voters).peers, Win(h, n, voters).elected, Win(h, n, voters).leaderLog, h.votes)
  {
    var h' := Win(h, n, voters);
    forall m | m in h'.peers
      ensures RoleOk(h'.elected, h'.leaderLog, h.votes, m, h'.peers[m])
    {
      assert RoleOk(h.elected, h.leaderLog, h.votes, m, h.peers[m]);
    }
  }

  lemma NewLeaderInformed(h: History, n: Id, voters: set<Id>)
    requires Shape(h) && CommitsOk(h.members, h.leaderLog, h.acks, h.commits)
    requires LeadersInformed(h.peers, h.commits)
    requires n in h.peers && h.peers[n].term !in h.elected
    ensures LeadersInformed(Win(h, n, voters).peers, h.commits)
  {
    var h' := Win(h, n, voters);
    forall m | m in h'.peers
      ensures Informed(h'.peers[m], h.commits)
    {
      assert Informed(h.peers[m], h.commits);
      forall cm | cm in h.commits
        ensures m == n ==> cm.term != h.peers[n].term
      {
        assert CommitOk(h.members, h.leaderLog, h.acks, cm);
      }
    }
  }

  lemma WinInv(h: History, n: Id, voters: set<Id>)
    requires Inv(h) && VotesKept(h)
    requires n in h.peers && h.peers[n].role.Candidate? && Backed(h, n, voters)
    ensures h.peers[n].term !in h.elected
    ensures Inv(Win(h, n, voters))
  {
    hide ElectionsOk, VotesOk, LeaderLogsOk, AcksOk, MatchesOk, VotesForce, CommitsOk, RoleOk, PeerLogOk, Informed;
    TermIsOpen(h, n, voters, LastTermOf(h.peers[n].log), |h.peers[n].log|);
    WinnerIsClean(h, n, voters);
    forall cm | cm in h.commits && cm.term < h.peers[n].term
      ensures cm.term in h.leaderLog && cm.index <= |h.leaderLog[cm.term]|
      ensures h.leaderLog[cm.term][..cm.index] <= h.peers[n].log
    {
      CommitInRange(h, cm);
      WinnerHasCommits(h, n, voters, cm);
    }
    NewLeaderLogs(h, n, voters);
    NewLeaderAcks(h, n, voters);
    NewLeaderMatches(h, n, voters);
    NewLeaderForces(h, n, voters);
    NewLeaderPeerLogs(h, n, voters);
    NewLeaderCommits(h, n, voters);
    NewLeaderElections(h, n, voters);
    NewLeaderVotes(h, n, voters);
    NewLeaderRoles(h, n, voters);
    NewLeaderInformed(h, n, voters);
  }

  lemma CommitInRange(h: History, cm: Commit)
    requires CommitsOk(h.members, h.leaderLog, h.acks, h.commits) && cm in h.commits
    ensures cm.term in h.leaderLog && cm.index <= |h.leaderLog[cm.term]|
  {
    assert CommitOk(h.members, h.leaderLog, h.acks, cm);
  }
}
