module ProtocolSteps {
  import opened Entries
  import opened Protocol
  import opened ProtocolFacts

  lemma UpdateElections(h: History, n: Id, q: Peer)
    requires ElectionsOk(h.members, h.peers, h.elected, h.votes)
    requires n in h.peers && q.term >= h.peers[n].term
    ensures ElectionsOk(h.members, h.peers[n := q], h.elected, h.votes)
  {
    forall t | t in h.elected
      ensures ElectionOk(h.members, h.peers[n := q], h.votes, t, h.elected[t])
    {
      assert ElectionOk(h.members, h.peers, h.votes, t, h.elected[t]);
    }
  }

  lemma UpdateVotes(h: History, n: Id, q: Peer)
    requires VotesOk(h.peers, h.votes, h.forgot) && n in h.peers
    requires q.term >= h.peers[n].term
    requires q.term == h.peers[n].term ==> q.vote == h.peers[n].vote
    ensures VotesOk(h.peers[n := q], h.votes, h.forgot)
  {
    forall v | v in h.votes
      ensures VoteOk(h.peers[n := q], h.forgot, v)
    {
      assert VoteOk(h.peers, h.forgot, v);
    }
  }

  lemma UpdateAcks(h: History, n: Id, q: Peer)
    requires AcksOk(h.peers, h.leaderLog, h.acks) && n in h.peers
    requires q.term >= h.peers[n].term && q.log == h.peers[n].log
    ensures AcksOk(h.peers[n := q], h.leaderLog, h.acks)
  {
    forall a | a in h.acks
      ensures AckOk(h.peers[n := q], h.leaderLog, a)
    {
      assert AckOk(h.peers, h.leaderLog, a);
      if a.voter == n {
        forall k | 1 <= k <= a.index
          ensures Retained(h.leaderLog, a, k, q)
        {
          assert Retained(h.leaderLog, a, k, h.peers[n]);
        }
      }
    }
  }

  lemma UpdateMatches(h: History, n: Id, q: Peer)
    requires MatchesOk(h.peers, h.leaderLog, h.matched) && n in h.peers
    requires q.term >= h.peers[n].term && q.log == h.peers[n].log
    ensures MatchesOk(h.peers[n := q], h.leaderLog, h.matched)
  {
    forall a | a in h.matched
      ensures MatchOk(h.peers[n := q], h.leaderLog, a)
    {
      assert MatchOk(h.peers, h.leaderLog, a);
    }
  }

  /** A step that moves one node without touching its log, its leadership or the history. */
  lemma QuietInv(h: History, n: Id, q: Peer)
    requires Inv(h) && n in h.peers
    requires q.term >= h.peers[n].term && q.log == h.peers[n].log
    requires q.term == h.peers[n].term ==> q.vote == h.peers[n].vote
    requires RoleOk(h.elected, h.leaderLog, h.votes, n, q)
    requires PeerLogOk(h.leaderLog, h.commits, q)
    requires Informed(q, h.commits)
    ensures Inv(WithPeer(h, n, q))
  {
    hide ElectionsOk, VotesOk, ForgotOk, LeaderLogsOk, AcksOk, MatchesOk, VotesForce, CommitsOk;
    hide RoleOk, PeerLogOk, Informed;
    UpdateElections(h, n, q);
    UpdateVotes(h, n, q);
    UpdateAcks(h, n, q);
    UpdateMatches(h, n, q);
  }

  lemma FollowInv(h: History, n: Id, term: nat)
    requires Inv(h) && n in h.peers && term > h.peers[n].term
    ensures Inv(Follow(h, n, term))
  {
    hide ElectionsOk, VotesOk, ForgotOk, LeaderLogsOk, AcksOk, MatchesOk, VotesForce, CommitsOk;
    var q := h.peers[n].(term := term, vote := "", role := Follower);
    assert PeerLogOk(h.leaderLog, h.commits, h.peers[n]);
    QuietInv(h, n, q);
  }

  lemma StepBackInv(h: History, n: Id)
    requires Inv(h) && n in h.peers && h.peers[n].role.Candidate?
    ensures Inv(StepBack(h, n))
  {
    hide ElectionsOk, VotesOk, ForgotOk, LeaderLogsOk, AcksOk, MatchesOk, VotesForce, CommitsOk;
    var q := h.peers[n].(role := Follower);
    assert PeerLogOk(h.leaderLog, h.commits, h.peers[n]);
    QuietInv(h, n, q);
  }

  lemma CompactInv(h: History, n: Id, base: nat)
    requires Inv(h) && n in h.peers
    requires h.peers[n].base <= base <= h.peers[n].commit
    ensures Inv(Compact(h, n, base))
  {
    hide ElectionsOk, VotesOk, ForgotOk, LeaderLogsOk, AcksOk, MatchesOk, VotesForce, CommitsOk;
    var q := h.peers[n].(base := base);
    assert PeerLogOk(h.leaderLog, h.commits, h.peers[n]);
    assert RoleOk(h.elected, h.leaderLog, h.votes, n, h.peers[n]);
    QuietInv(h, n, q);
  }

  lemma CoveredLess(ll: LeaderLogs, commits: set<Commit>, log: seq<LogEntry>, k: nat, i: nat, limit: nat)
    requires Covered(ll, commits, log, k, limit) && i <= k
    ensures Covered(ll, commits, log, i, limit)
  {
    if i > 0 {
      var cm :| cm in commits && Covers(ll, cm, log, k, limit);
      assert log[..i] == log[..k][..i] && ll[cm.term][..i] == ll[cm.term][..k][..i];
      assert Covers(ll, cm, log, i, limit);
    }
  }

  lemma RestartInv(h: History, n: Id)
    requires Inv(h) && n in h.peers
    ensures Inv(Restart(h, n))
  {
    hide ElectionsOk, VotesOk, ForgotOk, LeaderLogsOk, AcksOk, MatchesOk, VotesForce, CommitsOk;
    var p := h.peers[n];
    assert PeerLogOk(h.leaderLog, h.commits, p);
    CoveredLess(h.leaderLog, h.commits, p.log, p.commit, p.base, p.term);
    QuietInv(h, n, p.(role := Follower, commit := p.base));
  }

  /** A same-term step-down is harmless to everything but the record of the vote. */
  lemma ForgetInv(h: History, n: Id)
    requires Inv(h) && n in h.peers && h.peers[n].role.Leader?
    ensures Inv(Forget(h, n))
  {
    hide ElectionsOk, LeaderLogsOk, PeerLogOk, AcksOk, MatchesOk, VotesForce, CommitsOk;
    var p := h.peers[n];
    var q := p.(vote := "", role := Follower);
    var h' := Forget(h, n);
    assert RoleOk(h.elected, h.leaderLog, h.votes, n, p);
    ForgetPeerLog(h.leaderLog, h.commits, p);
    UpdateElections(h, n, q);
    UpdateAcks(h, n, q);
    UpdateMatches(h, n, q);
    forall v | v in h.votes
      ensures VoteOk(h'.peers, h'.forgot, v)
    {
      assert VoteOk(h.peers, h.forgot, v);
    }
    forall v, w | v in h.votes && w in h.votes
      ensures SameChoice(h'.forgot, v, w)
    {
      assert SameChoice(h.forgot, v, w);
    }
  }

  lemma ForgetPeerLog(ll: LeaderLogs, commits: set<Commit>, p: Peer)
    requires PeerLogOk(ll, commits, p)
    ensures PeerLogOk(ll, commits, p.(vote := "", role := Follower))
  {
  }

  /** Agreement through a position inside the node's own snapshot holds in every term. */
  lemma ConfirmInv(h: History, n: Id, index: nat)
    requires Inv(h) && n in h.peers && h.peers[n].term in h.leaderLog && index <= h.peers[n].base
    ensures Inv(Confirm(h, n, index))
  {
    hide ElectionsOk, VotesOk, ForgotOk, LeaderLogsOk, AcksOk, VotesForce, CommitsOk;
    var p := h.peers[n];
    assert PeerLogOk(h.leaderLog, h.commits, p);
    CoveredIsHeld(h.members, h.leaderLog, h.acks, h.commits, p.log, p.commit, p.term);
    var lead := h.leaderLog[p.term];
    assert lead[..index] == lead[..p.commit][..index] == p.log[..p.commit][..index] == p.log[..index];
    var h' := Confirm(h, n, index);
    assert MatchOk(h.peers, h.leaderLog, Ack(n, p.term, index));
    forall a | a in h'.matched
      ensures MatchOk(h.peers, h.leaderLog, a)
    {
    }
  }
}
