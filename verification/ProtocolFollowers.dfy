/** A follower adopts entries or a snapshot from the leader of its term. */
module ProtocolFollowers {
  import opened Entries
  import opened Logs
  import opened Protocol
  import opened ProtocolFacts
  import opened ProtocolSteps

  lemma CoveredSame(ll: LeaderLogs, commits: set<Commit>, a: seq<LogEntry>, b: seq<LogEntry>, k: nat, limit: nat)
    requires Covered(ll, commits, a, k, limit) && k <= |a| && k <= |b| && a[..k] == b[..k]
    ensures Covered(ll, commits, b, k, limit)
  {
    if k > 0 {
      var cm :| cm in commits && Covers(ll, cm, a, k, limit);
      assert Covers(ll, cm, b, k, limit);
    }
  }

  /** Everything a follower needs to know about its leader's log. */
  ghost predicate Led(elected: map<nat, Election>, ll: LeaderLogs, p: Peer, n: Id) {
    && elected.Keys == ll.Keys
    && LeaderLogsOk(elected, ll)
    && p.term in ll
    && elected[p.term].leader != n
    && p.base <= p.commit <= |p.log|
    && p.commit <= |ll[p.term]|
    && p.log[..p.commit] == ll[p.term][..p.commit]
  }

  lemma LedFact(h: History, n: Id)
    requires Inv(h) && n in h.peers && h.peers[n].term in h.elected && h.elected[h.peers[n].term].leader != n
    ensures Led(h.elected, h.leaderLog, h.peers[n], n)
  {
    hide ElectionsOk, VotesOk, ForgotOk, RolesOk, LeaderLogsOk, AcksOk, MatchesOk, VotesForce, CommitsOk, LeadersInformed;
    var p := h.peers[n];
    assert PeerLogOk(h.leaderLog, h.commits, p);
    CoveredIsHeld(h.members, h.leaderLog, h.acks, h.commits, p.log, p.commit, p.term);
  }

  // ---------------------------------------------------------------- entries

  ghost predicate NewCommit(ll: LeaderLogs, commits: set<Commit>, p: Peer, index: nat, commit: nat)
    requires p.term in ll
  {
    && commit >= p.commit
    && (commit == p.commit || (commit <= index && Covered(ll, commits, ll[p.term], commit, p.term)))
  }

  /** If a stale suffix survives an accepted message, the message ended inside the snapshot. */
  lemma StaleMeansShort(elected: map<nat, Election>, ll: LeaderLogs, p: Peer, n: Id, index: nat)
    requires Led(elected, ll, p, n) && Dirty(ll, p)
    requires index <= |ll[p.term]| && ll[p.term][..index] <= p.log
    ensures index <= p.base
  {
    ShorterAgrees(p.log, ll[p.term], p.commit, p.base);
    StaleNeverMatches(elected, ll, p, p.term, p.base + 1);
  }

  lemma AcceptedLog(elected: map<nat, Election>, ll: LeaderLogs, commits: set<Commit>, p: Peer, n: Id, index: nat,
        commit: nat)
    requires Led(elected, ll, p, n) && PeerLogOk(ll, commits, p) && !p.role.Leader?
    requires index <= |ll[p.term]| && NewCommit(ll, commits, p, index, commit)
    ensures PeerLogOk(ll, commits, p.(log := Adopt(p.log, ll[p.term][..index]), commit := commit, role := Follower))
    ensures index > p.base ==> Clean(ll, Adopt(p.log, ll[p.term][..index]))
    ensures ll[p.term][..index] <= Adopt(p.log, ll[p.term][..index])
    ensures !(ll[p.term][..index] <= p.log) ==> p.commit < index
  {
    hide Dirty, Clean, LeaderLogsOk;
    var lead := ll[p.term];
    var prefix := lead[..index];
    var log' := Adopt(p.log, prefix);
    assert LeaderLogOk(ll, p.term, elected[p.term], lead) by { LeaderLogFact(elected, ll, p.term); }
    if prefix <= p.log {
      if !Clean(ll, p.log) {
        StaleMeansShort(elected, ll, p, n, index);
        DirtyCommit(ll, p);
      }
    } else {
      ShorterAgrees(p.log, lead, p.commit, index);
      assert p.commit < index;
      assert prefix[..p.commit] == lead[..p.commit];
    }
    if commit == p.commit {
      CoveredSame(ll, commits, p.log, log', commit, p.term);
    } else {
      assert log'[..commit] == prefix[..commit] == lead[..commit];
      CoveredSame(ll, commits, lead, log', commit, p.term);
    }
    RoleOnly(ll, p.(log := log'));
  }

  lemma LeaderLogFact(elected: map<nat, Election>, ll: LeaderLogs, t: nat)
    requires LeaderLogsOk(elected, ll) && t in ll && t in elected
    ensures LeaderLogOk(ll, t, elected[t], ll[t])
  {
  }

  lemma DirtyCommit(ll: LeaderLogs, p: Peer)
    requires Dirty(ll, p)
    ensures p.commit == p.base
  {
  }

  lemma RoleOnly(ll: LeaderLogs, p: Peer)
    ensures Dirty(ll, p) ==> Dirty(ll, p.(role := Follower))
  {
  }

  lemma AcceptedAck(elected: map<nat, Election>, ll: LeaderLogs, p: Peer, n: Id, index: nat, a: Ack, k: nat, q: Peer)
    requires Led(elected, ll, p, n) && index <= |ll[p.term]|
    requires a.term in ll && 1 <= k <= |ll[a.term]| && a.term <= p.term
    requires Retained(ll, a, k, p)
    requires q.term == p.term && q.log == Adopt(p.log, ll[p.term][..index])
    ensures Retained(ll, a, k, q)
  {
    hide LeaderLogsOk;
    var lead := ll[p.term];
    if AllHave(ll, a.term, k, p.term + 1) {
      if a.term < p.term {
        assert Has(ll, p.term, a.term, k);
      }
      assert lead[..k] == ll[a.term][..k];
      if !(lead[..index] <= p.log) {
        ShorterAgrees(lead, p.log, k, index);
        assert k < index;
        KeepsInLeader(elected, ll, p.term, a.term, k, index);
      }
    }
  }

  lemma KeepsInLeader(elected: map<nat, Election>, ll: LeaderLogs, t: nat, c: nat, k: nat, index: nat)
    requires LeaderLogsOk(elected, ll) && t in ll && t in elected && c in ll
    requires 1 <= k <= |ll[c]| && k <= index <= |ll[t]| && ll[t][..k] == ll[c][..k]
    ensures Keeps(ll[t][..index], ll[c], k)
  {
    assert LeaderLogOk(ll, t, elected[t], ll[t]);
    assert ll[t][..index][..k] == ll[t][..k];
    assert ll[t][k - 1] == ll[t][..k][k - 1] == ll[c][..k][k - 1];
  }

  lemma NewAck(elected: map<nat, Election>, ll: LeaderLogs, n: Id, index: nat, k: nat, q: Peer)
    requires LeaderLogsOk(elected, ll) && elected.Keys == ll.Keys && q.term in ll
    requires 1 <= k <= index <= |ll[q.term]|
    requires ll[q.term][..index] <= q.log && Clean(ll, q.log)
    ensures Retained(ll, Ack(n, q.term, index), k, q)
  {
    CleanPrefix(elected, ll, q.log, 0);
    assert q.log[..k] == ll[q.term][..index][..k] == ll[q.term][..k];
    assert q.log[k - 1] == q.log[..k][k - 1] == ll[q.term][k - 1];
  }

  lemma AcceptAcks(h: History, n: Id, index: nat, q: Peer)
    requires n in h.peers && Led(h.elected, h.leaderLog, h.peers[n], n)
    requires index <= |h.leaderLog[h.peers[n].term]| && AcksOk(h.peers, h.leaderLog, h.acks)
    requires q.term == h.peers[n].term && q.log == Adopt(h.peers[n].log, h.leaderLog[q.term][..index])
    requires h.leaderLog[q.term][..index] <= q.log
    requires index > h.peers[n].base ==> Clean(h.leaderLog, q.log)
    ensures AcksOk(h.peers[n := q], h.leaderLog,
                   if index > h.peers[n].base then h.acks + {Ack(n, q.term, index)} else h.acks)
  {
    var ll := h.leaderLog;
    var p := h.peers[n];
    var peers' := h.peers[n := q];
    forall a | a in h.acks
      ensures AckOk(peers', ll, a)
    {
      assert AckOk(h.peers, ll, a);
      if a.voter == n {
        forall k | 1 <= k <= a.index
          ensures Retained(ll, a, k, q)
        {
          AcceptedAck(h.elected, ll, p, n, index, a, k, q);
        }
      }
    }
    if index > p.base {
      forall k | 1 <= k <= index
        ensures Retained(ll, Ack(n, q.term, index), k, q)
      {
        NewAck(h.elected, ll, n, index, k, q);
      }
      assert AckOk(peers', ll, Ack(n, q.term, index));
    }
  }

  lemma AcceptMatches(h: History, n: Id, index: nat, q: Peer)
    requires n in h.peers && h.peers[n].term in h.leaderLog
    requires index <= |h.leaderLog[h.peers[n].term]| && MatchesOk(h.peers, h.leaderLog, h.matched)
    requires q.term == h.peers[n].term && q.log == Adopt(h.peers[n].log, h.leaderLog[q.term][..index])
    requires h.leaderLog[q.term][..index] <= q.log
    ensures MatchesOk(h.peers[n := q], h.leaderLog, h.matched + {Ack(n, q.term, index)})
  {
    var lead := h.leaderLog[q.term];
    forall a | a in h.matched + {Ack(n, q.term, index)}
      ensures MatchOk(h.peers[n := q], h.leaderLog, a)
    {
      if a in h.matched {
        assert MatchOk(h.peers, h.leaderLog, a);
        if a.voter == n && a.term == q.term && !(lead[..index] <= h.peers[n].log) {
          ShorterAgrees(lead, h.peers[n].log, a.index, index);
          assert a.index < index;
          assert lead[..a.index] == lead[..index][..a.index];
        }
      }
    }
  }

  /** A confirmation by n in its current term says nothing about votes it cast earlier. */
  lemma AckIsLate(h: History, n: Id, index: nat)
    requires ElectionsOk(h.members, h.peers, h.elected, h.votes) && VotesOk(h.peers, h.votes, h.forgot)
    requires VotesForce(h.elected, h.leaderLog, h.votes, h.acks)
    requires n in h.peers
    ensures VotesForce(h.elected, h.leaderLog, h.votes, h.acks + {Ack(n, h.peers[n].term, index)})
  {
    var a := Ack(n, h.peers[n].term, index);
    forall v | v in h.votes
      ensures OpenVoteForces(h.elected, h.leaderLog, v, a)
    {
      assert VoteOk(h.peers, h.forgot, v);
    }
    forall t | t in h.elected
      ensures WonVoteForces(h.leaderLog, t, h.elected[t], a)
    {
      var e := h.elected[t];
      assert ElectionOk(h.members, h.peers, h.votes, t, e);
      if n in e.voters {
        assert VoteOk(h.peers, h.forgot, Vote(t, n, e.leader, e.lastTerm, e.lastIndex));
      }
    }
  }

  lemma MoreAcks(h: History, acks: set<Ack>)
    requires CommitsOk(h.members, h.leaderLog, h.acks, h.commits) && h.acks <= acks
    ensures CommitsOk(h.members, h.leaderLog, acks, h.commits)
  {
    forall cm | cm in h.commits
      ensures CommitOk(h.members, h.leaderLog, acks, cm)
    {
      assert CommitOk(h.members, h.leaderLog, h.acks, cm);
    }
  }

  lemma AcceptInv(h: History, n: Id, index: nat, commit: nat)
    requires Inv(h) && n in h.peers
    requires h.peers[n].term in h.elected && h.elected[h.peers[n].term].leader != n
    requires index <= |h.leaderLog[h.peers[n].term]|
    requires NewCommit(h.leaderLog, h.commits, h.peers[n], index, commit)
    ensures Inv(Accept(h, n, index, commit))
  {
    hide ElectionsOk, VotesOk, ForgotOk, LeaderLogsOk, AcksOk, MatchesOk, VotesForce, CommitsOk, PeerLogOk,
         NewCommit, Led, Clean;
    var p := h.peers[n];
    var h' := Accept(h, n, index, commit);
    var q := h'.peers[n];
    assert RoleOk(h.elected, h.leaderLog, h.votes, n, p);
    LedFact(h, n);
    AcceptedLog(h.elected, h.leaderLog, h.commits, p, n, index, commit);
    AcceptAcks(h, n, index, q);
    AcceptMatches(h, n, index, q);
    AckIsLate(h, n, index);
    MoreAcks(h, h'.acks);
    UpdateElections(h, n, q);
    UpdateVotes(h, n, q);
  }

  // ---------------------------------------------------------------- snapshots

  /** What a snapshot leaves of the log: clean, or a stale suffix that starts at its boundary. */
  lemma InstalledLog(elected: map<nat, Election>, ll: LeaderLogs, commits: set<Commit>, p: Peer, n: Id, index: nat)
    requires Led(elected, ll, p, n) && PeerLogOk(ll, commits, p) && !p.role.Leader?
    requires p.base < index <= |ll[p.term]| && Covered(ll, commits, ll[p.term], index, p.term)
    ensures PeerLogOk(ll, commits, p.(log := Overlay(p.log, ll[p.term][..index]), base := index,
                                      commit := if p.commit < index then index else p.commit))
  {
    hide LeaderLogsOk, Covered, Led, Clean, Dirty;
    LedParts(elected, ll, p, n);
    var lead := ll[p.term];
    var log' := Overlay(p.log, lead[..index]);
    var commit' := if p.commit < index then index else p.commit;
    LeaderLogFact(elected, ll, p.term);
    InstalledCommit(ll, commits, p, index);
    if |p.log| <= index {
      LeaderPrefixClean(elected, ll, p.term, index);
    } else if p.commit > index {
      ShorterAgrees(p.log, lead, p.commit, index);
      assert log' == p.log;
      CommitAboveBaseIsClean(ll, p);
    } else {
      SuffixStays(elected, ll, p, n, index);
    }
  }

  lemma LedParts(elected: map<nat, Election>, ll: LeaderLogs, p: Peer, n: Id)
    requires Led(elected, ll, p, n)
    ensures elected.Keys == ll.Keys && LeaderLogsOk(elected, ll) && p.term in ll
    ensures p.base <= p.commit <= |p.log| && p.commit <= |ll[p.term]| && p.log[..p.commit] == ll[p.term][..p.commit]
  {
  }

  lemma CommitAboveBaseIsClean(ll: LeaderLogs, p: Peer)
    requires Clean(ll, p.log) || Dirty(ll, p)
    requires p.commit > p.base
    ensures Clean(ll, p.log)
  {
  }

  lemma LeaderPrefixClean(elected: map<nat, Election>, ll: LeaderLogs, t: nat, i: nat)
    requires LeaderLogsOk(elected, ll) && elected.Keys == ll.Keys && t in ll && i <= |ll[t]|
    ensures Clean(ll, ll[t][..i])
  {
    assert LeaderLogOk(ll, t, elected[t], ll[t]);
  }

  lemma InstalledCommit(ll: LeaderLogs, commits: set<Commit>, p: Peer, index: nat)
    requires p.term in ll && p.base < index <= |ll[p.term]| && p.commit <= |ll[p.term]| && p.commit <= |p.log|
    requires p.log[..p.commit] == ll[p.term][..p.commit]
    requires Covered(ll, commits, p.log, p.commit, p.term) && Covered(ll, commits, ll[p.term], index, p.term)
    ensures var commit' := if p.commit < index then index else p.commit;
            var log' := Overlay(p.log, ll[p.term][..index]);
            && index <= commit' <= |log'|
            && Covered(ll, commits, log', commit', p.term)
  {
    var lead := ll[p.term];
    var log' := Overlay(p.log, lead[..index]);
    if p.commit < index {
      assert log'[..index] == lead[..index];
      CoveredSame(ll, commits, lead, log', index, p.term);
    } else {
      ShorterAgrees(p.log, lead, p.commit, index);
      assert log'[..p.commit] == p.log[..p.commit];
      CoveredSame(ll, commits, p.log, log', p.commit, p.term);
    }
  }

  /** A suffix kept behind the snapshot is either in place already or stale at the boundary. */
  lemma SuffixStays(elected: map<nat, Election>, ll: LeaderLogs, p: Peer, n: Id, index: nat)
    requires elected.Keys == ll.Keys && LeaderLogsOk(elected, ll) && p.term in ll
    requires !p.role.Leader? && (Clean(ll, p.log) || Dirty(ll, p))
    requires p.base < index <= |ll[p.term]| && index < |p.log| && p.commit <= index
    requires p.base <= p.commit && p.log[..p.commit] == ll[p.term][..p.commit]
    ensures var log' := Overlay(p.log, ll[p.term][..index]);
            Clean(ll, log') || Dirty(ll, p.(log := log', base := index, commit := index))
  {
    hide LeaderLogsOk;
    var lead := ll[p.term];
    var log' := Overlay(p.log, lead[..index]);
    LeaderPrefixClean(elected, ll, p.term, index);
    assert log'[..index] == lead[..index];
    if !Clean(ll, p.log) {
      ShorterAgrees(p.log, lead, p.commit, p.base);
      StaleMoves(elected, ll, p, lead, index);
    } else {
      AgreeAt(elected, ll, p.log, lead[..index], index);
      if p.log[index - 1].term == lead[index - 1].term {
        assert lead[..index][..index] == lead[..index];
        assert log' == p.log;
      } else {
        SuffixBecomesStale(elected, ll, p.log, lead, index);
      }
    }
  }

  lemma SuffixBecomesStale(elected: map<nat, Election>, ll: LeaderLogs, log: seq<LogEntry>, lead: seq<LogEntry>,
        index: nat)
    requires elected.Keys == ll.Keys && LeaderLogsOk(elected, ll)
    requires Clean(ll, log) && 1 <= index <= |lead| && index < |log|
    requires log[index - 1].term != lead[index - 1].term
    ensures Stale(ll, Overlay(log, lead[..index]), index)
  {
    hide LeaderLogsOk;
    var log' := Overlay(log, lead[..index]);
    forall j | index <= j < |log|
      ensures log[j].term in ll && j < |ll[log[j].term]| && ll[log[j].term][index - 1] != lead[index - 1]
      ensures log'[index..j + 1] == ll[log[j].term][index..j + 1]
    {
      CleanPrefix(elected, ll, log, j + 1);
      assert LastTermOf(log[..j + 1]) == log[j].term;
      assert ll[log[j].term][index - 1] == log[..j + 1][index - 1];
      assert log'[index..j + 1] == log[..j + 1][index..];
      assert ll[log[j].term][index..j + 1] == ll[log[j].term][..j + 1][index..];
    }
  }

  lemma StaleMoves(elected: map<nat, Election>, ll: LeaderLogs, p: Peer, lead: seq<LogEntry>, index: nat)
    requires elected.Keys == ll.Keys && LeaderLogsOk(elected, ll)
    requires Dirty(ll, p) && p.base < index <= |lead| && index < |p.log|
    requires p.log[..p.base] == lead[..p.base] && Clean(ll, lead[..index])
    ensures Stale(ll, Overlay(p.log, lead[..index]), index)
  {
    hide LeaderLogsOk, Clean;
    var log' := Overlay(p.log, lead[..index]);
    forall j | index <= j < |p.log|
      ensures ll[p.log[j].term][index - 1] != lead[index - 1]
      ensures log'[index..j + 1] == ll[p.log[j].term][index..j + 1]
    {
      var u := p.log[j].term;
      assert log'[index..j + 1] == p.log[p.base..j + 1][index - p.base..];
      assert ll[u][index..j + 1] == ll[u][p.base..j + 1][index - p.base..];
      LeaderPrefixClean(elected, ll, u, index);
      AgreeAt(elected, ll, ll[u][..index], lead[..index], index);
      assert ll[u][..index][..index] == ll[u][..index] && lead[..index][..index] == lead[..index];
      assert ll[u][..index][p.base - 1] != lead[..index][p.base - 1] by {
        assert lead[..p.base][p.base - 1] == p.log[p.base - 1];
      }
    }
  }

  lemma InstallAcks(h: History, n: Id, index: nat, q: Peer)
    requires n in h.peers && h.peers[n].term in h.leaderLog && AcksOk(h.peers, h.leaderLog, h.acks)
    requires LeaderLogsOk(h.elected, h.leaderLog) && h.elected.Keys == h.leaderLog.Keys
    requires index <= |h.leaderLog[h.peers[n].term]| && q.term == h.peers[n].term
    requires q.log == Overlay(h.peers[n].log, h.leaderLog[q.term][..index])
    ensures AcksOk(h.peers[n := q], h.leaderLog, h.acks)
  {
    hide LeaderLogsOk, Retained;
    var ll := h.leaderLog;
    forall a | a in h.acks
      ensures AckOk(h.peers[n := q], ll, a)
    {
      assert AckOk(h.peers, ll, a);
      if a.voter == n {
        forall k | 1 <= k <= a.index
          ensures Retained(ll, a, k, q)
        {
          InstalledAck(h.elected, ll, h.peers[n], index, a, k, q);
        }
      }
    }
  }

  lemma InstalledAck(elected: map<nat, Election>, ll: LeaderLogs, p: Peer, index: nat, a: Ack, k: nat, q: Peer)
    requires LeaderLogsOk(elected, ll) && elected.Keys == ll.Keys && p.term in ll && index <= |ll[p.term]|
    requires a.term in ll && 1 <= k <= |ll[a.term]| && a.term <= p.term
    requires Retained(ll, a, k, p)
    requires q.term == p.term && q.log == Overlay(p.log, ll[p.term][..index])
    ensures Retained(ll, a, k, q)
  {
    hide LeaderLogsOk;
    var lead := ll[p.term];
    if AllHave(ll, a.term, k, p.term + 1) {
      if a.term < p.term {
        assert Has(ll, p.term, a.term, k);
      }
      assert lead[..k] == ll[a.term][..k];
      assert lead[k - 1] == lead[..k][k - 1] == ll[a.term][..k][k - 1];
      LeaderLogFact(elected, ll, p.term);
      OverlayKeeps(p.log, lead, index, k);
    }
  }

  lemma OverlayKeeps(log: seq<LogEntry>, lead: seq<LogEntry>, index: nat, k: nat)
    requires Monotone(lead) && index <= |lead| && 1 <= k <= |lead| && Keeps(log, lead, k)
    ensures Keeps(Overlay(log, lead[..index]), lead, k)
  {
    var log' := Overlay(log, lead[..index]);
    forall i | 0 <= i < k
      ensures log'[i] == lead[i]
    {
      assert log[i] == log[..k][i] == lead[..k][i];
    }
    assert log'[..k] == lead[..k];
  }

  lemma InstallMatches(h: History, n: Id, index: nat, q: Peer)
    requires n in h.peers && h.peers[n].term in h.leaderLog && MatchesOk(h.peers, h.leaderLog, h.matched)
    requires index <= |h.leaderLog[h.peers[n].term]| && q.term == h.peers[n].term
    requires q.log == Overlay(h.peers[n].log, h.leaderLog[q.term][..index])
    ensures MatchesOk(h.peers[n := q], h.leaderLog, h.matched)
  {
    var lead := h.leaderLog[q.term];
    forall a | a in h.matched
      ensures MatchOk(h.peers[n := q], h.leaderLog, a)
    {
      assert MatchOk(h.peers, h.leaderLog, a);
      if a.voter == n && a.term == q.term {
        forall i | 0 <= i < a.index
          ensures q.log[i] == lead[i]
        {
          assert h.peers[n].log[i] == lead[..a.index][i];
        }
      }
    }
  }

  lemma InstallInv(h: History, n: Id, index: nat)
    requires Inv(h) && n in h.peers
    requires h.peers[n].term in h.elected && h.elected[h.peers[n].term].leader != n
    requires h.peers[n].base < index <= |h.leaderLog[h.peers[n].term]|
    requires Covered(h.leaderLog, h.commits, h.leaderLog[h.peers[n].term], index, h.peers[n].term)
    ensures Inv(Install(h, n, index))
  {
    hide ElectionsOk, VotesOk, ForgotOk, LeaderLogsOk, AcksOk, MatchesOk, VotesForce, CommitsOk, PeerLogOk, Covered, Led;
    var p := h.peers[n];
    var h' := Install(h, n, index);
    var q := h'.peers[n];
    assert RoleOk(h.elected, h.leaderLog, h.votes, n, p);
    LedFact(h, n);
    InstalledLog(h.elected, h.leaderLog, h.commits, p, n, index);
    InstallAcks(h, n, index, q);
    InstallMatches(h, n, index, q);
    UpdateElections(h, n, q);
    UpdateVotes(h, n, q);
  }
}
