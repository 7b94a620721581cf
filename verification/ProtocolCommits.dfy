/** The counting rule of section 5.4.2: a leader commits what a majority holds, and every later leader has it. */
module ProtocolCommits {
  import opened Entries
  import opened Quorums
  import opened Protocol
  import opened ProtocolFacts
  import opened ProtocolSteps
  import opened ProtocolReplication
  import opened ProtocolFollowers

  /** x is known to hold the leader's first `index` entries. */
  ghost predicate Confirmed(acks: set<Ack>, x: Id, term: nat, index: nat) {
    exists a :: a in acks && a.voter == x && a.term == term && a.index >= index
  }

  /** What a count must show before the leader may advance its commit index. */
  ghost predicate Countable(h: History, n: Id, index: nat, holders: set<Id>)
    requires n in h.peers
  {
    var p := h.peers[n];
    && p.role.Leader?
    && p.commit < index <= |p.log|
    && p.log[index - 1].term == p.term
    && IsMajority(holders, h.members)
    && forall x :: x in holders ==> x == n || Confirmed(h.acks, x, p.term, index)
  }

  function CountAcks(term: nat, index: nat, holders: set<Id>): set<Ack> {
    set x | x in holders :: Ack(x, term, index)
  }

  lemma CountedAck(h: History, n: Id, index: nat, holders: set<Id>, x: Id)
    requires Shape(h) && LeaderLogsOk(h.elected, h.leaderLog) && AcksOk(h.peers, h.leaderLog, h.acks)
    requires n in h.peers && Countable(h, n, index, holders) && x in holders
    requires RoleOk(h.elected, h.leaderLog, h.votes, n, h.peers[n])
    ensures AckOk(h.peers, h.leaderLog, Ack(x, h.peers[n].term, index))
  {
    var p := h.peers[n];
    var ll := h.leaderLog;
    var a := Ack(x, p.term, index);
    assert LeaderLogOk(ll, p.term, h.elected[p.term], ll[p.term]);
    if x == n {
      forall k | 1 <= k <= index
        ensures Retained(ll, a, k, p)
      {
        assert Keeps(p.log, ll[p.term], k);
      }
    } else {
      var b :| b in h.acks && b.voter == x && b.term == p.term && b.index >= index;
      assert AckOk(h.peers, ll, b);
      forall k | 1 <= k <= index
        ensures Retained(ll, a, k, h.peers[x])
      {
        assert Retained(ll, b, k, h.peers[x]);
      }
    }
  }

  lemma CountedAcks(h: History, n: Id, index: nat, holders: set<Id>)
    requires Shape(h) && LeaderLogsOk(h.elected, h.leaderLog) && AcksOk(h.peers, h.leaderLog, h.acks)
    requires n in h.peers && Countable(h, n, index, holders)
    requires RoleOk(h.elected, h.leaderLog, h.votes, n, h.peers[n])
    ensures AcksOk(h.peers, h.leaderLog, h.acks + CountAcks(h.peers[n].term, index, holders))
  {
    hide Countable, LeaderLogsOk, RoleOk, AckOk;
    var t := h.peers[n].term;
    forall a | a in h.acks + CountAcks(t, index, holders)
      ensures AckOk(h.peers, h.leaderLog, a)
    {
      if a !in h.acks {
        CountedAck(h, n, index, holders, a.voter);
      }
    }
  }

  /** A counted position forces the same elections as the confirmation it comes from. */
  lemma CountedForces(h: History, n: Id, index: nat, holders: set<Id>, x: Id)
    requires ElectionsOk(h.members, h.peers, h.elected, h.votes) && VotesOk(h.peers, h.votes, h.forgot)
    requires VotesForce(h.elected, h.leaderLog, h.votes, h.acks)
    requires n in h.peers && Countable(h, n, index, holders) && x in holders
    ensures var a := Ack(x, h.peers[n].term, index);
            && (forall v :: v in h.votes ==> OpenVoteForces(h.elected, h.leaderLog, v, a))
            && (forall t :: t in h.elected ==> WonVoteForces(h.leaderLog, t, h.elected[t], a))
  {
    var p := h.peers[n];
    var ll := h.leaderLog;
    var a := Ack(x, p.term, index);
    if x == n {
      AckIsLate(h, n, index);
      assert a in h.acks + {a};
    } else {
      var b :| b in h.acks && b.voter == x && b.term == p.term && b.index >= index;
      forall v | v in h.votes
        ensures OpenVoteForces(h.elected, ll, v, a)
      {
        assert OpenVoteForces(h.elected, ll, v, b);
        SameForces(ll, b, a, v.lastTerm, v.lastIndex, v.term);
      }
      forall t | t in h.elected
        ensures WonVoteForces(ll, t, h.elected[t], a)
      {
        assert WonVoteForces(ll, t, h.elected[t], b);
        SameForces(ll, b, a, h.elected[t].lastTerm, h.elected[t].lastIndex, t);
      }
    }
  }

  lemma SameForces(ll: LeaderLogs, b: Ack, a: Ack, lastTerm: nat, lastIndex: nat, limit: nat)
    requires a.voter == b.voter && a.term == b.term && a.index <= b.index
    ensures (forall k :: 1 <= k <= b.index ==> Forces(ll, b, k, lastTerm, lastIndex, limit)) ==>
              (forall k :: 1 <= k <= a.index ==> Forces(ll, a, k, lastTerm, lastIndex, limit))
  {
    if forall k :: 1 <= k <= b.index ==> Forces(ll, b, k, lastTerm, lastIndex, limit) {
      forall k | 1 <= k <= a.index
        ensures Forces(ll, a, k, lastTerm, lastIndex, limit)
      {
        assert Forces(ll, b, k, lastTerm, lastIndex, limit);
      }
    }
  }

  lemma CountedVotesForce(h: History, n: Id, index: nat, holders: set<Id>)
    requires ElectionsOk(h.members, h.peers, h.elected, h.votes) && VotesOk(h.peers, h.votes, h.forgot)
    requires VotesForce(h.elected, h.leaderLog, h.votes, h.acks)
    requires n in h.peers && Countable(h, n, index, holders)
    ensures VotesForce(h.elected, h.leaderLog, h.votes, h.acks + CountAcks(h.peers[n].term, index, holders))
  {
    hide Countable, ElectionsOk, VotesOk, OpenVoteForces, WonVoteForces;
    var t := h.peers[n].term;
    forall a | a in CountAcks(t, index, holders)
      ensures forall v :: v in h.votes ==> OpenVoteForces(h.elected, h.leaderLog, v, a)
      ensures forall u :: u in h.elected ==> WonVoteForces(h.leaderLog, u, h.elected[u], a)
    {
      CountedForces(h, n, index, holders, a.voter);
    }
  }

  /** Leader Completeness at the moment of commit: leaders already elected later have it too. */
  lemma LaterLeaderHas(h: History, cm: Commit, acks: set<Ack>, t: nat)
    requires Shape(h) && LeaderLogsOk(h.elected, h.leaderLog)
    requires ElectionsOk(h.members, h.peers, h.elected, h.votes)
    requires VotesForce(h.elected, h.leaderLog, h.votes, acks)
    requires cm.term in h.leaderLog && 1 <= cm.index <= |h.leaderLog[cm.term]|
    requires h.leaderLog[cm.term][cm.index - 1].term == cm.term
    requires IsMajority(cm.holders, h.members)
    requires forall x :: x in cm.holders ==> Ack(x, cm.term, cm.index) in acks
    requires t in h.leaderLog && t > cm.term
    ensures Has(h.leaderLog, t, cm.term, cm.index)
    decreases t
  {
    hide LeaderLogsOk, ElectionsOk, VotesForce;
    var ll := h.leaderLog;
    forall u | u in ll && cm.term < u < t
      ensures Has(ll, u, cm.term, cm.index)
    {
      LaterLeaderHas(h, cm, acks, u);
    }
    LaterLeaderReaches(h, cm, acks, t);
    LaterLeaderFrom(h, cm, t);
  }

  lemma LaterLeaderReaches(h: History, cm: Commit, acks: set<Ack>, t: nat)
    requires ElectionsOk(h.members, h.peers, h.elected, h.votes)
    requires VotesForce(h.elected, h.leaderLog, h.votes, acks)
    requires cm.term in h.leaderLog && 1 <= cm.index <= |h.leaderLog[cm.term]|
    requires h.leaderLog[cm.term][cm.index - 1].term == cm.term
    requires IsMajority(cm.holders, h.members)
    requires forall x :: x in cm.holders ==> Ack(x, cm.term, cm.index) in acks
    requires t in h.elected && t > cm.term && AllHave(h.leaderLog, cm.term, cm.index, t)
    ensures AtLeast(h.elected[t].lastTerm, h.elected[t].lastIndex, cm.term, cm.index)
  {
    var e := h.elected[t];
    assert ElectionOk(h.members, h.peers, h.votes, t, e);
    var x := MajoritiesMeet(cm.holders, e.voters, h.members);
    var a := Ack(x, cm.term, cm.index);
    assert WonVoteForces(h.leaderLog, t, e, a);
    assert Forces(h.leaderLog, a, cm.index, e.lastTerm, e.lastIndex, t);
  }

  lemma LaterLeaderFrom(h: History, cm: Commit, t: nat)
    requires Shape(h) && LeaderLogsOk(h.elected, h.leaderLog)
    requires ElectionsOk(h.members, h.peers, h.elected, h.votes)
    requires cm.term in h.leaderLog && 1 <= cm.index <= |h.leaderLog[cm.term]|
    requires h.leaderLog[cm.term][cm.index - 1].term == cm.term
    requires t in h.elected && t > cm.term && AllHave(h.leaderLog, cm.term, cm.index, t)
    requires AtLeast(h.elected[t].lastTerm, h.elected[t].lastIndex, cm.term, cm.index)
    ensures Has(h.leaderLog, t, cm.term, cm.index)
  {
    hide LeaderLogsOk, ElectionsOk, Clean;
    var ll := h.leaderLog;
    var e := h.elected[t];
    ElectionFact(h, cm.term);
    LeaderLogFact(h.elected, ll, t);
    var before := ll[t][..e.lastIndex];
    LeaderPrefixClean(h.elected, ll, t, e.lastIndex);
    assert LastTermOf(before) == e.lastTerm;
    UpToDateHolds(h.elected, ll, cm.term, cm.index, before);
    assert ll[t][..cm.index] == before[..cm.index];
  }

  lemma NewCommitOk(h: History, n: Id, index: nat, holders: set<Id>)
    requires Shape(h) && LeaderLogsOk(h.elected, h.leaderLog)
    requires ElectionsOk(h.members, h.peers, h.elected, h.votes)
    requires n in h.peers && Countable(h, n, index, holders)
    requires RoleOk(h.elected, h.leaderLog, h.votes, n, h.peers[n])
    requires VotesForce(h.elected, h.leaderLog, h.votes, h.acks + CountAcks(h.peers[n].term, index, holders))
    ensures CommitOk(h.members, h.leaderLog, h.acks + CountAcks(h.peers[n].term, index, holders),
                     Commit(h.peers[n].term, index, holders))
  {
    hide LeaderLogsOk, ElectionsOk, VotesForce;
    var p := h.peers[n];
    var cm := Commit(p.term, index, holders);
    var acks := h.acks + CountAcks(p.term, index, holders);
    forall x | x in holders
      ensures Ack(x, p.term, index) in acks
    {
      assert Ack(x, p.term, index) in CountAcks(p.term, index, holders);
    }
    forall t | t in h.leaderLog && t > p.term
      ensures Has(h.leaderLog, t, p.term, index)
    {
      LaterLeaderHas(h, cm, acks, t);
    }
  }

  lemma MoreCommits(h: History, commits: set<Commit>)
    requires PeerLogsOk(h.peers, h.leaderLog, h.commits) && h.commits <= commits
    ensures PeerLogsOk(h.peers, h.leaderLog, commits)
  {
    forall m | m in h.peers
      ensures PeerLogOk(h.leaderLog, commits, h.peers[m])
    {
      assert PeerLogOk(h.leaderLog, h.commits, h.peers[m]);
    }
  }

  lemma AdvancedPeerLog(ll: LeaderLogs, commits: set<Commit>, p: Peer, index: nat, holders: set<Id>)
    requires p.role.Leader? && p.term in ll && ll[p.term] == p.log && PeerLogOk(ll, commits, p)
    requires p.commit < index <= |p.log| && Commit(p.term, index, holders) in commits
    ensures PeerLogOk(ll, commits, p.(commit := index))
  {
    assert Covers(ll, Commit(p.term, index, holders), p.log, index, p.term);
  }

  lemma AdvanceInformed(h: History, n: Id, index: nat, holders: set<Id>)
    requires RolesOk(h.peers, h.elected, h.leaderLog, h.votes) && LeadersInformed(h.peers, h.commits)
    requires n in h.peers && Countable(h, n, index, holders)
    ensures LeadersInformed(Advance(h, n, index, holders).peers, Advance(h, n, index, holders).commits)
  {
    var h' := Advance(h, n, index, holders);
    assert RoleOk(h.elected, h.leaderLog, h.votes, n, h.peers[n]);
    forall m | m in h'.peers
      ensures Informed(h'.peers[m], h'.commits)
    {
      assert Informed(h.peers[m], h.commits);
      assert RoleOk(h.elected, h.leaderLog, h.votes, m, h.peers[m]);
    }
  }

  lemma AdvanceInv(h: History, n: Id, index: nat, holders: set<Id>)
    requires Inv(h) && n in h.peers && Countable(h, n, index, holders)
    ensures Inv(Advance(h, n, index, holders))
  {
    hide ElectionsOk, VotesOk, ForgotOk, LeaderLogsOk, AcksOk, MatchesOk, VotesForce, PeerLogOk, CommitOk,
         LeadersInformed;
    var p := h.peers[n];
    var h' := Advance(h, n, index, holders);
    var q := h'.peers[n];
    assert RoleOk(h.elected, h.leaderLog, h.votes, n, p);
    CountedAcks(h, n, index, holders);
    UpdateAcks(h.(acks := h'.acks), n, q);
    CountedVotesForce(h, n, index, holders);
    NewCommitOk(h, n, index, holders);
    MoreAcks(h, h'.acks);
    MoreCommits(h, h'.commits);
    AdvancedPeerLog(h.leaderLog, h'.commits, p, index, holders);
    AdvanceInformed(h, n, index, holders);
    UpdateElections(h, n, q);
    UpdateVotes(h, n, q);
    UpdateMatches(h, n, q);
  }
}
