/** A leader appends an entry of its term, and its log, alone of all, grows. */
module ProtocolReplication {
  import opened Entries
  import opened Protocol
  import opened ProtocolSteps

  // ---------------------------------------------------------------- a leader appends

  /** One leader log grew by one entry of its own term. */
  ghost predicate Extended(ll: LeaderLogs, ll': LeaderLogs, t: nat) {
    && t in ll
    && ll'.Keys == ll.Keys
    && |ll'[t]| == |ll[t]| + 1
    && ll[t] <= ll'[t]
    && ll'[t][|ll[t]|].term == t
    && forall u :: u in ll && u != t ==> ll'[u] == ll[u]
  }

  /** A new entry of term t cannot create agreement with a leader of another term. */
  lemma ExtendedHas(elected: map<nat, Election>, ll: LeaderLogs, ll': LeaderLogs, t: nat, u: nat, c: nat, k: nat)
    requires LeaderLogsOk(elected, ll) && elected.Keys == ll.Keys
    requires Extended(ll, ll', t) && u in ll && c in ll && c < u && k <= |ll[c]|
    ensures k <= |ll'[c]| && (Has(ll, u, c, k) <==> Has(ll', u, c, k))
  {
    hide LeaderLogsOk;
    if k > 0 {
      LeaderTermBound(elected, ll, c, k);
    }
    assert ll'[c][..k] == ll[c][..k];
    if k <= |ll[u]| {
      assert ll'[u][..k] == ll[u][..k];
    } else if u == t && k == |ll[t]| + 1 {
      assert ll'[u][..k][k - 1].term == t;
      assert ll'[c][..k][k - 1].term <= c;
    }
  }

  lemma ExtendedAllHave(elected: map<nat, Election>, ll: LeaderLogs, ll': LeaderLogs, t: nat, c: nat, k: nat, limit: nat)
    requires LeaderLogsOk(elected, ll) && elected.Keys == ll.Keys
    requires Extended(ll, ll', t) && c in ll && k <= |ll[c]|
    ensures k <= |ll'[c]|
    ensures AllHave(ll', c, k, limit) ==> AllHave(ll, c, k, limit)
  {
    if c in ll {
      assert ll[c] <= ll'[c];
    }
    if AllHave(ll', c, k, limit) {
      forall u | u in ll && c < u < limit
        ensures Has(ll, u, c, k)
      {
        assert Has(ll', u, c, k);
        ExtendedHas(elected, ll, ll', t, u, c, k);
      }
    }
  }

  lemma ExtendedClean(ll: LeaderLogs, ll': LeaderLogs, t: nat, log: seq<LogEntry>)
    requires Extended(ll, ll', t) && Clean(ll, log)
    ensures Clean(ll', log)
  {
  }

  lemma ExtendedDirty(ll: LeaderLogs, ll': LeaderLogs, t: nat, p: Peer)
    requires Extended(ll, ll', t) && Dirty(ll, p)
    ensures Dirty(ll', p)
  {
    ExtendedClean(ll, ll', t, p.log[..p.base]);
  }

  lemma ExtendedCovered(ll: LeaderLogs, ll': LeaderLogs, t: nat, commits: set<Commit>,
                        log: seq<LogEntry>, log': seq<LogEntry>, k: nat, limit: nat)
    requires Extended(ll, ll', t) && Covered(ll, commits, log, k, limit) && log <= log'
    ensures Covered(ll', commits, log', k, limit)
  {
    if k > 0 {
      var cm :| cm in commits && Covers(ll, cm, log, k, limit);
      assert ll'[cm.term][..k] == ll[cm.term][..k];
      assert Covers(ll', cm, log', k, limit);
    }
  }

  lemma ExtendedPrefixes(ll: LeaderLogs, ll': LeaderLogs, t: nat, u: nat)
    requires Extended(ll, ll', t) && u in ll
    requires forall i :: 0 <= i <= |ll[u]| ==> Clean(ll, ll[u][..i])
    ensures forall i :: 0 <= i <= |ll'[u]| ==> Clean(ll', ll'[u][..i])
  {
    hide Clean;
    forall i | 0 <= i <= |ll'[u]|
      ensures Clean(ll', ll'[u][..i])
    {
      if i <= |ll[u]| {
        assert ll'[u][..i] == ll[u][..i];
        ExtendedClean(ll, ll', t, ll[u][..i]);
      } else {
        WholeLogIsClean(ll', t);
        assert ll'[t][..i] == ll'[t];
      }
    }
  }

  lemma WholeLogIsClean(ll: LeaderLogs, t: nat)
    requires t in ll && |ll[t]| > 0 && LastTermOf(ll[t]) == t
    ensures Clean(ll, ll[t])
  {
  }

  lemma ExtendedLeaderLog(ll: LeaderLogs, ll': LeaderLogs, t: nat, u: nat, e: Election)
    requires Extended(ll, ll', t) && u in ll && LeaderLogOk(ll, u, e, ll[u])
    requires ll'[t][|ll[t]|].index == |ll[t]| + 1 && t >= 1
    ensures LeaderLogOk(ll', u, e, ll'[u])
  {
    hide Clean;
    ExtendedPrefixes(ll, ll', t, u);
  }

  lemma ExtendedLeaderLogs(elected: map<nat, Election>, ll: LeaderLogs, ll': LeaderLogs, t: nat)
    requires LeaderLogsOk(elected, ll) && elected.Keys == ll.Keys
    requires Extended(ll, ll', t) && ll'[t][|ll[t]|].index == |ll[t]| + 1 && t >= 1
    ensures LeaderLogsOk(elected, ll')
  {
    hide LeaderLogOk;
    forall u | u in elected && u in ll'
      ensures LeaderLogOk(ll', u, elected[u], ll'[u])
    {
      ExtendedLeaderLog(ll, ll', t, u, elected[u]);
    }
  }

  lemma ExtendedPeerLog(ll: LeaderLogs, ll': LeaderLogs, t: nat, commits: set<Commit>, p: Peer)
    requires Extended(ll, ll', t) && PeerLogOk(ll, commits, p)
    ensures PeerLogOk(ll', commits, p)
  {
    hide Clean, Dirty, Covered, WellIndexed;
    if Clean(ll, p.log) {
      ExtendedClean(ll, ll', t, p.log);
    } else {
      ExtendedDirty(ll, ll', t, p);
    }
    ExtendedCovered(ll, ll', t, commits, p.log, p.log, p.commit, p.term);
  }

  lemma AppendedPeerLog(ll: LeaderLogs, ll': LeaderLogs, commits: set<Commit>, p: Peer)
    requires p.role.Leader? && p.term in ll && ll[p.term] == p.log && p.term >= 1
    requires Extended(ll, ll', p.term) && PeerLogOk(ll, commits, p)
    requires ll'[p.term][|p.log|].index == |p.log| + 1
    ensures PeerLogOk(ll', commits, p.(log := ll'[p.term]))
  {
    hide Dirty, Covered;
    ExtendedCovered(ll, ll', p.term, commits, p.log, ll'[p.term], p.commit, p.term);
  }

  lemma ExtendedKeeps(ll: LeaderLogs, ll': LeaderLogs, t: nat, c: nat, k: nat, log: seq<LogEntry>, log': seq<LogEntry>)
    requires Extended(ll, ll', t) && c in ll && 1 <= k <= |ll[c]| && ll[c][k - 1].term <= t
    requires log' == log || (log == ll[t] && log' == ll'[t])
    requires Keeps(log, ll[c], k)
    ensures k <= |ll'[c]| && Keeps(log', ll'[c], k)
  {
    assert ll[c] <= ll'[c];
    assert ll'[c][..k] == ll[c][..k];
    assert log'[..k] == log[..k];
  }

  lemma ExtendedRetained(elected: map<nat, Election>, ll: LeaderLogs, ll': LeaderLogs, t: nat, a: Ack, k: nat,
        p: Peer, log': seq<LogEntry>)
    requires LeaderLogsOk(elected, ll) && elected.Keys == ll.Keys && Extended(ll, ll', t)
    requires a.term in ll && 1 <= k <= |ll[a.term]| && a.term <= p.term && Retained(ll, a, k, p)
    requires log' == p.log || (p.term == t && p.log == ll[t] && log' == ll'[t])
    ensures Retained(ll', a, k, p.(log := log'))
  {
    hide LeaderLogsOk, Extended, Keeps, AllHave;
    ExtendedAllHave(elected, ll, ll', t, a.term, k, p.term + 1);
    if AllHave(ll, a.term, k, p.term + 1) {
      LeaderTermBound(elected, ll, a.term, k);
      if log' == p.log {
        ExtendedSame(ll, ll', t, a.term, k, p.log);
      } else {
        ExtendedKeeps(ll, ll', t, a.term, k, p.log, log');
      }
    }
  }

  lemma ExtendedSame(ll: LeaderLogs, ll': LeaderLogs, t: nat, c: nat, k: nat, log: seq<LogEntry>)
    requires Extended(ll, ll', t) && c in ll && 1 <= k <= |ll[c]| && Keeps(log, ll[c], k)
    ensures c in ll' && k <= |ll'[c]| && Keeps(log, ll'[c], k)
  {
    assert ll[c] <= ll'[c];
    assert ll'[c][..k] == ll[c][..k];
  }

  lemma LeaderTermBound(elected: map<nat, Election>, ll: LeaderLogs, c: nat, k: nat)
    requires LeaderLogsOk(elected, ll) && elected.Keys == ll.Keys && c in ll && 1 <= k <= |ll[c]|
    ensures ll[c][k - 1].term <= c
  {
    assert LeaderLogOk(ll, c, elected[c], ll[c]);
  }

  lemma ExtendedAck(elected: map<nat, Election>, ll: LeaderLogs, ll': LeaderLogs, t: nat, a: Ack, p: Peer,
        log': seq<LogEntry>)
    requires LeaderLogsOk(elected, ll) && elected.Keys == ll.Keys && Extended(ll, ll', t)
    requires a.term in ll && 1 <= a.index <= |ll[a.term]| && a.term <= p.term
    requires forall k :: 1 <= k <= a.index ==> Retained(ll, a, k, p)
    requires log' == p.log || (p.term == t && p.log == ll[t] && log' == ll'[t])
    ensures forall k :: 1 <= k <= a.index ==> Retained(ll', a, k, p.(log := log'))
  {
    hide LeaderLogsOk, Extended, Retained;
    forall k | 1 <= k <= a.index
      ensures Retained(ll', a, k, p.(log := log'))
    {
      ExtendedRetained(elected, ll, ll', t, a, k, p, log');
    }
  }

  lemma ExtendedForces(elected: map<nat, Election>, ll: LeaderLogs, ll': LeaderLogs, t: nat, a: Ack, k: nat,
                       lastTerm: nat, lastIndex: nat, limit: nat)
    requires LeaderLogsOk(elected, ll) && elected.Keys == ll.Keys && Extended(ll, ll', t)
    requires a.term in ll && 1 <= k <= |ll[a.term]|
    requires Forces(ll, a, k, lastTerm, lastIndex, limit)
    ensures Forces(ll', a, k, lastTerm, lastIndex, limit)
  {
    ExtendedAllHave(elected, ll, ll', t, a.term, k, limit);
    assert ll'[a.term][k - 1] == ll[a.term][k - 1];
  }

  lemma AppendForces(h: History, ll': LeaderLogs, t: nat)
    requires Shape(h) && LeaderLogsOk(h.elected, h.leaderLog) && Extended(h.leaderLog, ll', t)
    requires AcksOk(h.peers, h.leaderLog, h.acks)
    requires VotesForce(h.elected, h.leaderLog, h.votes, h.acks)
    ensures VotesForce(h.elected, ll', h.votes, h.acks)
  {
    hide LeaderLogsOk, Extended, Forces;
    var ll := h.leaderLog;
    forall v, a | v in h.votes && a in h.acks
      ensures OpenVoteForces(h.elected, ll', v, a)
    {
      assert OpenVoteForces(h.elected, ll, v, a) && AckOk(h.peers, ll, a);
      forall k | 1 <= k <= a.index && Forces(ll, a, k, v.lastTerm, v.lastIndex, v.term)
        ensures Forces(ll', a, k, v.lastTerm, v.lastIndex, v.term)
      {
        ExtendedForces(h.elected, ll, ll', t, a, k, v.lastTerm, v.lastIndex, v.term);
      }
    }
    forall u, a | u in h.elected && a in h.acks
      ensures WonVoteForces(ll', u, h.elected[u], a)
    {
      var e := h.elected[u];
      assert WonVoteForces(ll, u, e, a) && AckOk(h.peers, ll, a);
      forall k | 1 <= k <= a.index && Forces(ll, a, k, e.lastTerm, e.lastIndex, u)
        ensures Forces(ll', a, k, e.lastTerm, e.lastIndex, u)
      {
        ExtendedForces(h.elected, ll, ll', t, a, k, e.lastTerm, e.lastIndex, u);
      }
    }
  }

  lemma AppendAcks(h: History, n: Id, ll': LeaderLogs)
    requires Shape(h) && LeaderLogsOk(h.elected, h.leaderLog) && n in h.peers
    requires h.peers[n].term in h.leaderLog && h.leaderLog[h.peers[n].term] == h.peers[n].log
    requires Extended(h.leaderLog, ll', h.peers[n].term)
    requires AcksOk(h.peers, h.leaderLog, h.acks) && MatchesOk(h.peers, h.leaderLog, h.matched)
    ensures AcksOk(h.peers[n := h.peers[n].(log := ll'[h.peers[n].term])], ll', h.acks)
    ensures MatchesOk(h.peers[n := h.peers[n].(log := ll'[h.peers[n].term])], ll', h.matched)
  {
    hide LeaderLogsOk, Retained;
    var p := h.peers[n];
    var peers' := h.peers[n := p.(log := ll'[p.term])];
    forall a | a in h.acks
      ensures AckOk(peers', ll', a)
    {
      assert AckOk(h.peers, h.leaderLog, a);
      ExtendedAck(h.elected, h.leaderLog, ll', p.term, a, h.peers[a.voter], peers'[a.voter].log);
    }
    forall a | a in h.matched
      ensures MatchOk(peers', ll', a)
    {
      assert MatchOk(h.peers, h.leaderLog, a);
      assert ll'[a.term][..a.index] == h.leaderLog[a.term][..a.index];
    }
  }

  lemma AppendCommits(h: History, ll': LeaderLogs, t: nat)
    requires Shape(h) && LeaderLogsOk(h.elected, h.leaderLog) && Extended(h.leaderLog, ll', t)
    requires CommitsOk(h.members, h.leaderLog, h.acks, h.commits)
    ensures CommitsOk(h.members, ll', h.acks, h.commits)
  {
    hide LeaderLogsOk;
    forall cm | cm in h.commits
      ensures CommitOk(h.members, ll', h.acks, cm)
    {
      assert CommitOk(h.members, h.leaderLog, h.acks, cm);
      assert ll'[cm.term][cm.index - 1] == h.leaderLog[cm.term][cm.index - 1];
      forall u | u in ll' && u > cm.term
        ensures Has(ll', u, cm.term, cm.index)
      {
        ExtendedHas(h.elected, h.leaderLog, ll', t, u, cm.term, cm.index);
      }
    }
  }

  lemma AppendRoles(h: History, n: Id, ll': LeaderLogs)
    requires Shape(h) && n in h.peers && h.peers[n].role.Leader?
    requires RolesOk(h.peers, h.elected, h.leaderLog, h.votes)
    requires Extended(h.leaderLog, ll', h.peers[n].term)
    ensures RolesOk(h.peers[n := h.peers[n].(log := ll'[h.peers[n].term])], h.elected, ll', h.votes)
  {
    var p := h.peers[n];
    var peers' := h.peers[n := p.(log := ll'[p.term])];
    assert RoleOk(h.elected, h.leaderLog, h.votes, n, p);
    forall m | m in peers'
      ensures RoleOk(h.elected, ll', h.votes, m, peers'[m])
    {
      assert RoleOk(h.elected, h.leaderLog, h.votes, m, h.peers[m]);
    }
  }

  lemma AppendPeerLogs(h: History, n: Id, ll': LeaderLogs)
    requires n in h.peers && h.peers[n].role.Leader? && h.peers[n].term >= 1
    requires RoleOk(h.elected, h.leaderLog, h.votes, n, h.peers[n])
    requires PeerLogsOk(h.peers, h.leaderLog, h.commits)
    requires Extended(h.leaderLog, ll', h.peers[n].term)
    requires ll'[h.peers[n].term][|h.peers[n].log|].index == |h.peers[n].log| + 1
    ensures PeerLogsOk(h.peers[n := h.peers[n].(log := ll'[h.peers[n].term])], ll', h.commits)
  {
    hide PeerLogOk;
    var p := h.peers[n];
    forall m | m in h.peers
      ensures m != n ==> PeerLogOk(ll', h.commits, h.peers[m])
    {
      ExtendedPeerLog(h.leaderLog, ll', p.term, h.commits, h.peers[m]);
    }
    AppendedPeerLog(h.leaderLog, ll', h.commits, p);
  }

  lemma LeaderAppendInv(h: History, n: Id, entry: LogEntry)
    requires Inv(h) && n in h.peers && h.peers[n].role.Leader?
    requires entry.term == h.peers[n].term && entry.index == |h.peers[n].log| + 1
    ensures Inv(LeaderAppend(h, n, entry))
  {
    hide ElectionsOk, VotesOk, LeaderLogsOk, AcksOk, MatchesOk, VotesForce, CommitsOk, PeerLogOk, Informed, RolesOk,
         PeerLogsOk;
    var p := h.peers[n];
    var ll' := LeaderAppend(h, n, entry).leaderLog;
    RoleFact(h, n);
    ElectionFact(h, p.term);
    AppendPeerLogs(h, n, ll');
    AppendRoles(h, n, ll');
    ExtendedLeaderLogs(h.elected, h.leaderLog, ll', p.term);
    AppendAcks(h, n, ll');
    AppendForces(h, ll', p.term);
    AppendCommits(h, ll', p.term);
    UpdateElections(h, n, p.(log := ll'[p.term]));
    UpdateVotes(h, n, p.(log := ll'[p.term]));
    InformedLog(h.commits, p, ll'[p.term]);
  }

  lemma InformedLog(commits: set<Commit>, p: Peer, log: seq<LogEntry>)
    requires Informed(p, commits)
    ensures Informed(p.(log := log), commits)
  {
  }

  lemma RoleFact(h: History, n: Id)
    requires RolesOk(h.peers, h.elected, h.leaderLog, h.votes) && n in h.peers
    ensures RoleOk(h.elected, h.leaderLog, h.votes, n, h.peers[n])
  {
  }

  lemma ElectionFact(h: History, t: nat)
    requires ElectionsOk(h.members, h.peers, h.elected, h.votes) && t in h.elected
    ensures t >= 1
  {
    assert ElectionOk(h.members, h.peers, h.votes, t, h.elected[t]);
  }
}
