/**
 The promises of the protocol, for every run: any sequence of events, with
 messages lost, repeated, delayed and reordered, and nodes crashing at every
 point where the disk can be seen. `events` is the run so far, `more` any
 continuation of it.
 */
module Safety {
  import opened Entries
  import opened Logs
  import opened Nodes
  import opened Cluster
  import opened ClusterInv
  import opened Runs
  import ClusterElections
  import ClusterLeaders
  import CommitRule
  import P = Protocol
  import ProtocolFacts

  /** The whole log of a node, compacted entries included. */
  ghost function WholeLog(c: Cluster, n: Id): seq<LogEntry> {
    if n in c.history.peers then c.history.peers[n].log else []
  }

  // ---------------------------------------------------------------- runs and their continuations

  lemma KeptEarlier(config: Config, events: seq<Event>, more: seq<Event>)
    requires VotesKept(config, events + more)
    ensures VotesKept(config, events)
  {
    assert forall i :: 0 <= i < |events| ==> (events + more)[..i] == events[..i];
  }

  lemma {:induction false} RunGrows(config: Config, events: seq<Event>, more: seq<Event>)
    requires ValidConfig(config) && VotesKept(config, events + more)
    ensures Good(Run(config, events)) && Good(Run(config, events + more))
    ensures Grows(Run(config, events).history, Run(config, events + more).history)
  {
    hide Good, Grows, Next, VotesKept, ValidConfig;
    KeptEarlier(config, events, more);
    RunGood(config, events);
    RunGood(config, events + more);
    if |more| == 0 {
      assert events + more == events;
      ClusterElections.GrowsSame(Run(config, events).history);
    } else {
      var less := more[..|more| - 1];
      var all := events + more;
      assert all[..|all| - 1] == events + less;
      assert events + less + [more[|more| - 1]] == all;
      KeptEarlier(config, events + less, [more[|more| - 1]]);
      RunGrows(config, events, less);
      var c := Run(config, events + less);
      RunGood(config, events + less);
      NextGood(c, all[|all| - 1]);
      GrowsFurther(Run(config, events).history, c.history, Run(config, all).history);
    }
  }

  /** A node of a good cluster, and the peer it mirrors. */
  lemma NodeFacts(c: Cluster, n: Id)
    requires Good(c) && n in c.nodes
    ensures n in c.history.peers
    ensures var p := c.history.peers[n];
            && Mirrors(c.nodes[n], p) && Applied(c.nodes[n], p)
            && P.PeerLogOk(c.history.leaderLog, c.history.commits, p)
            && P.RoleOk(c.history.elected, c.history.leaderLog, c.history.votes, n, p)
            && SnapshotIndex(c.nodes[n].log) == p.base
            && (!c.skewed ==> Replayed(c.nodes[n], p))
  {
    hide P.ElectionsOk, P.VotesOk, P.ForgotOk, P.LeaderLogsOk, P.AcksOk, P.MatchesOk, P.VotesForce, P.CommitsOk,
         P.RoleOk, P.PeerLogOk, MessagesOk, RoundsOk;
    assert NodeOk(c.history, n, c.nodes[n], !c.skewed);
    LastCompacted(c.history.peers[n].log, c.history.peers[n].base);
  }

  /** In every run the stored log is the whole log compacted at its boundary, contiguous and of real terms. */
  lemma StoredIsCompacted(config: Config, events: seq<Event>, n: Id)
    requires ValidConfig(config) && VotesKept(config, events) && n in Run(config, events).nodes
    ensures var c := Run(config, events);
            var node, log := c.nodes[n], WholeLog(c, n);
            && |node.log| > 0
            && SnapshotIndex(node.log) <= node.commitIndex <= |log|
            && node.log == Compacted(log, SnapshotIndex(node.log))
            && WellIndexed(log)
            && forall i :: 0 <= i < |log| ==> 1 <= log[i].term <= node.term
  {
    hide Run, Good, P.Covered, P.Clean, P.Dirty, P.RoleOk, Compacted;
    RunGood(config, events);
    NodeFacts(Run(config, events), n);
  }

  // ---------------------------------------------------------------- Election Safety

  /** At most one node is ever leader of a term. */
  lemma ElectionSafety(config: Config, events: seq<Event>, more: seq<Event>, a: Id, b: Id)
    requires ValidConfig(config) && VotesKept(config, events + more)
    requires a in Run(config, events).nodes && b in Run(config, events + more).nodes
    requires Run(config, events).nodes[a].role == Leader
    requires Run(config, events + more).nodes[b].role == Leader
    requires Run(config, events).nodes[a].term == Run(config, events + more).nodes[b].term
    ensures a == b
  {
    hide Run, Good;
    RunGrows(config, events, more);
    NodeFacts(Run(config, events), a);
    NodeFacts(Run(config, events + more), b);
  }

  // ---------------------------------------------------------------- State Machine Safety

  /** Of two commits, the leader of the later term holds what the earlier one covers. */
  lemma CommitsAgree(h: P.History, x: P.Commit, y: P.Commit, a: seq<LogEntry>, b: seq<LogEntry>, i: nat, s: nat, t: nat)
    requires P.CommitsOk(h.members, h.leaderLog, h.acks, h.commits) && x in h.commits && y in h.commits
    requires P.Covers(h.leaderLog, x, a, i, s) && P.Covers(h.leaderLog, y, b, i, t)
    ensures a[..i] == b[..i]
  {
    assert P.CommitOk(h.members, h.leaderLog, h.acks, x) && P.CommitOk(h.members, h.leaderLog, h.acks, y);
    if x.term < y.term {
      assert P.Has(h.leaderLog, y.term, x.term, x.index);
      assert h.leaderLog[y.term][..i] == h.leaderLog[y.term][..x.index][..i] == h.leaderLog[x.term][..i];
    } else if y.term < x.term {
      assert P.Has(h.leaderLog, x.term, y.term, y.index);
      assert h.leaderLog[x.term][..i] == h.leaderLog[x.term][..y.index][..i] == h.leaderLog[y.term][..i];
    }
  }

  lemma CoveredAgree(h: P.History, a: seq<LogEntry>, b: seq<LogEntry>, i: nat, s: nat, t: nat)
    requires P.CommitsOk(h.members, h.leaderLog, h.acks, h.commits)
    requires P.Covered(h.leaderLog, h.commits, a, i, s) && P.Covered(h.leaderLog, h.commits, b, i, t)
    ensures i <= |a| && i <= |b| && a[..i] == b[..i]
  {
    if i > 0 {
      var x :| x in h.commits && P.Covers(h.leaderLog, x, a, i, s);
      var y :| y in h.commits && P.Covers(h.leaderLog, y, b, i, t);
      CommitsAgree(h, x, y, a, b, i, s, t);
    }
  }

  lemma HistoryCommits(c: Cluster)
    requires Good(c)
    ensures P.CommitsOk(c.history.members, c.history.leaderLog, c.history.acks, c.history.commits)
    ensures P.LeaderLogsOk(c.history.elected, c.history.leaderLog) && c.history.elected.Keys == c.history.leaderLog.Keys
    ensures P.MatchesOk(c.history.peers, c.history.leaderLog, c.history.matched)
    ensures P.VotesOk(c.history.peers, c.history.votes, c.history.forgot)
  {
    hide P.ElectionsOk, P.VotesOk, P.ForgotOk, P.RolesOk, P.LeaderLogsOk, P.PeerLogsOk, P.AcksOk, P.MatchesOk,
         P.VotesForce, P.CommitsOk;
  }

  /** What a node knew committed stays covered, wherever the run goes. */
  lemma CommittedCarries(config: Config, events: seq<Event>, more: seq<Event>, a: Id, i: nat)
    requires ValidConfig(config) && VotesKept(config, events + more)
    requires a in Run(config, events).nodes && i <= Run(config, events).nodes[a].commitIndex
    ensures a in Run(config, events).history.peers && i <= |WholeLog(Run(config, events), a)|
    ensures var h := Run(config, events + more).history;
            P.Covered(h.leaderLog, h.commits, WholeLog(Run(config, events), a), i, Run(config, events).nodes[a].term)
  {
    hide Run, Good;
    RunGrows(config, events, more);
    var c := Run(config, events);
    NodeFacts(c, a);
    var p := c.history.peers[a];
    CoveredBelow(c.history, p.log, p.commit, i, p.term);
    CoveredCarries(c.history, Run(config, events + more).history, p.log, p.log, i, p.term, p.term);
  }

  lemma CoveredBelow(h: P.History, log: seq<LogEntry>, k: nat, i: nat, t: nat)
    requires P.Covered(h.leaderLog, h.commits, log, k, t) && i <= k <= |log|
    ensures P.Covered(h.leaderLog, h.commits, log, i, t)
  {
    if i > 0 {
      var cm :| cm in h.commits && P.Covers(h.leaderLog, cm, log, k, t);
      assert log[..i] == log[..k][..i] && h.leaderLog[cm.term][..i] == h.leaderLog[cm.term][..k][..i];
      assert P.Covers(h.leaderLog, cm, log, i, t);
    }
  }

  /** State Machine Safety: committed prefixes of any two nodes, at any two times, agree. */
  lemma StateMachineSafety(config: Config, events: seq<Event>, more: seq<Event>, a: Id, b: Id, i: nat)
    requires ValidConfig(config) && VotesKept(config, events + more)
    requires a in Run(config, events).nodes && b in Run(config, events + more).nodes
    requires i <= Run(config, events).nodes[a].commitIndex && i <= Run(config, events + more).nodes[b].commitIndex
    ensures i <= |WholeLog(Run(config, events), a)| && i <= |WholeLog(Run(config, events + more), b)|
    ensures WholeLog(Run(config, events), a)[..i] == WholeLog(Run(config, events + more), b)[..i]
  {
    hide Run, Good, P.Covered;
    CommittedCarries(config, events, more, a, i);
    assert events + more + [] == events + more;
    CommittedCarries(config, events + more, [], b, i);
    RunGrows(config, events, more);
    var c := Run(config, events + more);
    HistoryCommits(c);
    CoveredAgree(c.history, WholeLog(Run(config, events), a), WholeLog(c, b), i,
                 Run(config, events).nodes[a].term, c.nodes[b].term);
  }

  /** The same, read through the code's own accessor wherever neither node has compacted. */
  lemma CommittedEntriesEqual(config: Config, events: seq<Event>, more: seq<Event>, a: Id, b: Id, i: nat)
    requires ValidConfig(config) && VotesKept(config, events + more)
    requires a in Run(config, events).nodes && b in Run(config, events + more).nodes
    requires i <= Run(config, events).nodes[a].commitIndex && i <= Run(config, events + more).nodes[b].commitIndex
    ensures |Run(config, events).nodes[a].log| > 0 && |Run(config, events + more).nodes[b].log| > 0
    ensures SnapshotIndex(Run(config, events).nodes[a].log) < i
            && SnapshotIndex(Run(config, events + more).nodes[b].log) < i ==>
              && Get(Run(config, events).nodes[a].log, i) == Get(Run(config, events + more).nodes[b].log, i)
              && Get(Run(config, events).nodes[a].log, i).term > 0
  {
    hide Run, Good;
    StateMachineSafety(config, events, more, a, b, i);
    RunGrows(config, events, more);
    var c := Run(config, events);
    var d := Run(config, events + more);
    NodeFacts(c, a);
    NodeFacts(d, b);
    GetCompacted(WholeLog(c, a), c.history.peers[a].base, i);
    GetCompacted(WholeLog(d, b), d.history.peers[b].base, i);
    assert i > 0 ==> WholeLog(c, a)[..i][i - 1] == WholeLog(d, b)[..i][i - 1];
  }

  /** No committed entry is ever truncated or replaced on the node that knew it committed. */
  lemma CommittedForever(config: Config, events: seq<Event>, more: seq<Event>, a: Id)
    requires ValidConfig(config) && VotesKept(config, events + more)
    requires a in Run(config, events).nodes
    ensures var k := Run(config, events).nodes[a].commitIndex;
            && k <= |WholeLog(Run(config, events), a)|
            && WholeLog(Run(config, events), a)[..k] <= WholeLog(Run(config, events + more), a)
  {
    hide Run, Good, P.Covered;
    RunGrows(config, events, more);
    var c := Run(config, events);
    NodeFacts(c, a);
    assert Durable(c.history, Run(config, events + more).history, a);
  }

  // ---------------------------------------------------------------- Leader Completeness

  /** A leader holds everything any node knew committed in its term or an earlier one. */
  lemma LeaderCompleteness(config: Config, events: seq<Event>, more: seq<Event>, a: Id, b: Id)
    requires ValidConfig(config) && VotesKept(config, events + more)
    requires a in Run(config, events).nodes && b in Run(config, events + more).nodes
    requires Run(config, events + more).nodes[b].role == Leader
    requires Run(config, events).nodes[a].term <= Run(config, events + more).nodes[b].term
    ensures var k := Run(config, events).nodes[a].commitIndex;
            && k <= |WholeLog(Run(config, events), a)|
            && WholeLog(Run(config, events), a)[..k] <= WholeLog(Run(config, events + more), b)
  {
    hide Run, Good;
    var k := Run(config, events).nodes[a].commitIndex;
    CommittedCarries(config, events, more, a, k);
    RunGrows(config, events, more);
    var c := Run(config, events + more);
    NodeFacts(c, b);
    HistoryCommits(c);
    var log := WholeLog(Run(config, events), a);
    var t := c.nodes[b].term;
    CoveredCarries(c.history, c.history, log, log, k, Run(config, events).nodes[a].term, t);
    ProtocolFacts.CoveredIsHeld(c.history.members, c.history.leaderLog, c.history.acks, c.history.commits, log, k, t);
  }

  /** A leader had, while it led, everything any node ever comes to know committed in an earlier term. */
  lemma PastLeaderComplete(config: Config, events: seq<Event>, more: seq<Event>, a: Id, b: Id)
    requires ValidConfig(config) && VotesKept(config, events + more)
    requires a in Run(config, events + more).nodes && b in Run(config, events).nodes
    requires Run(config, events).nodes[b].role == Leader
    requires Run(config, events + more).nodes[a].term < Run(config, events).nodes[b].term
    ensures var k := Run(config, events + more).nodes[a].commitIndex;
            && k <= |WholeLog(Run(config, events + more), a)|
            && WholeLog(Run(config, events + more), a)[..k] <= WholeLog(Run(config, events), b)
  {
    hide Run, Good, P.PeerLogOk, P.CommitsOk, P.LeaderLogsOk, P.VotesOk, P.MatchesOk, P.Covered, Durable;
    RunGrows(config, events, more);
    var c, d := Run(config, events), Run(config, events + more);
    LeadersOwnLog(c, b);
    HistoryCommits(c);
    HistoryCommits(d);
    KnownCovered(d, a);
    var log, k := WholeLog(d, a), d.nodes[a].commitIndex;
    CoveredByThen(c.history, d.history, log, k, d.nodes[a].term, c.nodes[b].term);
  }

  lemma KnownCovered(c: Cluster, n: Id)
    requires Good(c) && n in c.nodes
    ensures c.nodes[n].commitIndex <= |WholeLog(c, n)|
    ensures P.Covered(c.history.leaderLog, c.history.commits, WholeLog(c, n), c.nodes[n].commitIndex, c.nodes[n].term)
  {
    hide Good, P.RoleOk, P.Covered, Replayed, P.Clean, P.Dirty;
    NodeFacts(c, n);
  }

  /** A leader's log has had what earlier terms committed since its election, whenever that was counted. */
  lemma CoveredByThen(h: P.History, h': P.History, log: seq<LogEntry>, k: nat, s: nat, t: nat)
    requires Grows(h, h') && t in h.leaderLog && s < t && k <= |log|
    requires P.LeaderLogsOk(h.elected, h.leaderLog) && h.elected.Keys == h.leaderLog.Keys
    requires P.LeaderLogsOk(h'.elected, h'.leaderLog) && h'.elected.Keys == h'.leaderLog.Keys
    requires P.CommitsOk(h'.members, h'.leaderLog, h'.acks, h'.commits)
    requires P.Covered(h'.leaderLog, h'.commits, log, k, s)
    ensures log[..k] <= h.leaderLog[t]
  {
    hide P.LeaderLogsOk, P.Clean, Durable;
    if k > 0 {
      var cm :| cm in h'.commits && P.Covers(h'.leaderLog, cm, log, k, s);
      var past, now, lead := h.leaderLog[t], h'.leaderLog[t], h'.leaderLog[cm.term];
      assert P.CommitOk(h'.members, h'.leaderLog, h'.acks, cm);
      assert P.Has(h'.leaderLog, t, cm.term, cm.index);
      assert now[..cm.index][cm.index - 1] == lead[..cm.index][cm.index - 1];
      HeldAtElection(h.elected, h.leaderLog, t);
      HeldAtElection(h'.elected, h'.leaderLog, t);
      assert cm.index <= h.elected[t].lastIndex <= |past|;
      assert log[..k] == lead[..cm.index][..k] == now[..cm.index][..k] == past[..k];
    }
  }

  lemma HeldAtElection(elected: map<nat, P.Election>, ll: P.LeaderLogs, t: nat)
    requires P.LeaderLogsOk(elected, ll) && elected.Keys == ll.Keys && t in ll
    ensures elected[t].lastIndex <= |ll[t]|
    ensures forall i :: 0 <= i < |ll[t]| && ll[t][i].term < t ==> i < elected[t].lastIndex
  {
    assert P.LeaderLogOk(ll, t, elected[t], ll[t]);
  }

  // ---------------------------------------------------------------- Log Matching

  /** The node's log is a prefix of some leader's: no stale suffix hangs behind a snapshot. */
  ghost predicate Tidy(c: Cluster, n: Id) {
    n in c.history.peers && P.Clean(c.history.leaderLog, c.history.peers[n].log)
  }

  /** Log Matching: equal terms at an index mean equal logs up to that index. */
  lemma LogMatching(config: Config, events: seq<Event>, a: Id, b: Id, i: nat)
    requires ValidConfig(config) && VotesKept(config, events)
    requires a in Run(config, events).nodes && b in Run(config, events).nodes
    requires Tidy(Run(config, events), a) && Tidy(Run(config, events), b)
    requires 1 <= i <= |WholeLog(Run(config, events), a)| && i <= |WholeLog(Run(config, events), b)|
    requires WholeLog(Run(config, events), a)[i - 1].term == WholeLog(Run(config, events), b)[i - 1].term
    ensures WholeLog(Run(config, events), a)[..i] == WholeLog(Run(config, events), b)[..i]
  {
    hide Run, Good;
    RunGood(config, events);
    var c := Run(config, events);
    HistoryCommits(c);
    ProtocolFacts.LogMatching(c.history.elected, c.history.leaderLog, WholeLog(c, a), WholeLog(c, b), i);
  }

  /** Untidiness is confined: the boundary is the commit index and no leader is untidy. */
  lemma UntidyIsConfined(config: Config, events: seq<Event>, n: Id)
    requires ValidConfig(config) && VotesKept(config, events) && n in Run(config, events).nodes
    ensures var c := Run(config, events);
            !Tidy(c, n) ==>
              && |c.nodes[n].log| > 0
              && c.nodes[n].role != Leader
              && c.nodes[n].commitIndex == SnapshotIndex(c.nodes[n].log) >= 1
  {
    hide Run, Good;
    RunGood(config, events);
    NodeFacts(Run(config, events), n);
  }

  // ---------------------------------------------------------------- replication bookkeeping

  /**
   matchIndex is sound: as long as the peer stays in the leader's term it has what the leader had that far,
   whatever has become of the leader since.
   */
  lemma MatchIndexSound(config: Config, events: seq<Event>, more: seq<Event>, n: Id, q: Id)
    requires ValidConfig(config) && VotesKept(config, events + more)
    requires n in Run(config, events).nodes && q in Run(config, events + more).nodes
    requires Run(config, events).nodes[n].role == Leader && q in Run(config, events).nodes[n].peers
    requires Run(config, events + more).nodes[q].term == Run(config, events).nodes[n].term
    ensures var m := Index(Run(config, events).nodes[n].matchIndex, q);
            && m <= |WholeLog(Run(config, events), n)|
            && WholeLog(Run(config, events), n)[..m] <= WholeLog(Run(config, events + more), q)
  {
    hide Run, Good, Mirrors, Applied, Replayed, P.PeerLogOk, P.CommitsOk, P.LeaderLogsOk, P.VotesOk, Durable;
    RunGrows(config, events, more);
    var c, d := Run(config, events), Run(config, events + more);
    var m := Index(c.nodes[n].matchIndex, q);
    LeadersOwnLog(c, n);
    MatchIndexBounded(c, n, q);
    Tracked(c, n, q);
    TermsMirror(d, q);
    HistoryCommits(d);
    if m > 0 {
      var t := c.nodes[n].term;
      assert P.MatchOk(d.history.peers, d.history.leaderLog, P.Ack(q, t, m));
      assert c.history.leaderLog[t][..m] == d.history.leaderLog[t][..m];
    }
  }

  lemma LeadersOwnLog(c: Cluster, n: Id)
    requires Good(c) && n in c.nodes && c.nodes[n].role == Leader
    ensures c.nodes[n].term in c.history.leaderLog && WholeLog(c, n) == c.history.leaderLog[c.nodes[n].term]
  {
    hide Good, P.PeerLogOk, Replayed, Applied;
    NodeFacts(c, n);
  }

  lemma TermsMirror(c: Cluster, n: Id)
    requires Good(c) && n in c.nodes
    ensures n in c.history.peers && c.history.peers[n].term == c.nodes[n].term
  {
    hide Good, P.PeerLogOk, P.RoleOk, Replayed, Applied;
    NodeFacts(c, n);
  }

  lemma Tracked(c: Cluster, n: Id, q: Id)
    requires Good(c) && n in c.nodes && c.nodes[n].role == Leader && q in c.nodes[n].peers
    ensures Sound(c.history, q, c.nodes[n].term, Index(c.nodes[n].matchIndex, q)) && Index(c.nodes[n].nextIndex, q) >= 1
  {
    hide P.Inv, MessagesOk, RoundsOk, Mirrors, Stored, Applied, Replayed, Sound;
    assert NodeOk(c.history, n, c.nodes[n], !c.skewed);
  }

  /** Progress never exceeds the leader's own log, whatever order replies arrive in. */
  lemma MatchIndexBounded(c: Cluster, n: Id, q: Id)
    requires Good(c) && n in c.nodes && c.nodes[n].role == Leader && q in c.nodes[n].peers
    ensures Index(c.nodes[n].matchIndex, q) <= |WholeLog(c, n)|
  {
    hide Good;
    NodeFacts(c, n);
    HistoryCommits(c);
    Tracked(c, n, q);
    var m := Index(c.nodes[n].matchIndex, q);
    if m > 0 {
      assert P.MatchOk(c.history.peers, c.history.leaderLog, P.Ack(q, c.nodes[n].term, m));
    }
  }

  /** In every run maybeCommit finds the greatest index that Figure 2 lets the leader commit. */
  lemma CommitRuleIsBest(config: Config, events: seq<Event>, n: Id, k: nat)
    requires ValidConfig(config) && VotesKept(config, events)
    requires n in Run(config, events).nodes && Run(config, events).nodes[n].role == Leader
    ensures var node := Run(config, events).nodes[n];
            && |node.log| > 0
            && (CommitRule.MayCommit(node, k) ==> MaybeCommit(node).commitIndex >= k)
            && (MaybeCommit(node).commitIndex != node.commitIndex ==> CommitRule.MayCommit(node, MaybeCommit(node).commitIndex))
  {
    hide Run, Good, MaybeCommit, CommitRule.MayCommit;
    RunGood(config, events);
    var c := Run(config, events);
    NodeFacts(c, n);
    LeaderLogIsWellFormed(c, n);
    forall q | q in c.nodes[n].peers
      ensures Index(c.nodes[n].matchIndex, q) <= |WholeLog(c, n)|
    {
      MatchIndexBounded(c, n, q);
    }
    CommitRule.MaybeCommitIsBest(c.nodes[n], WholeLog(c, n), c.history.peers[n].base, k);
  }

  lemma LeaderLogIsWellFormed(c: Cluster, n: Id)
    requires Good(c) && n in c.history.peers && c.history.peers[n].role.Leader?
    ensures Monotone(WholeLog(c, n)) && c.history.peers[n].term > 0
    ensures forall i :: 0 <= i < |WholeLog(c, n)| ==> 1 <= WholeLog(c, n)[i].term <= c.history.peers[n].term
  {
    hide P.Inv, NodesOk, MessagesOk, RoundsOk, P.PeerLogOk;
    ClusterLeaders.LeaderFacts(c.history, n);
  }

  /** Every AppendEntries in flight commits no further than its own entries reach, or is hopeless. */
  lemma LeaderCommitWithinMessage(config: Config, events: seq<Event>, to: Id, args: AppendArgs)
    requires ValidConfig(config) && VotesKept(config, events)
    requires AppendRequest(to, args) in Run(config, events).messages
    ensures Hopeless(args) || args.leaderCommit <= args.prevIndex + |args.entries|
  {
    hide Run;
    RunGood(config, events);
    MessageFact(Run(config, events), AppendRequest(to, args));
  }

  lemma MessageFact(c: Cluster, m: Message)
    requires Good(c) && m in c.messages
    ensures MessageOk(c.history, c.rounds, m, !c.skewed)
  {
    hide P.Inv, NodesOk, RoundsOk, MessageOk;
  }

  // ---------------------------------------------------------------- persistence

  /** A vote that was answered for is the node's vote while it stays in that term, unless its own quorum check failed in it. */
  lemma VoteRemembered(config: Config, events: seq<Event>, from: Id, round: nat, args: VoteArgs, reply: VoteReply)
    requires ValidConfig(config) && VotesKept(config, events)
    requires VoteAnswer(from, round, args, reply) in Run(config, events).messages && reply.granted
    requires from in Run(config, events).nodes && Run(config, events).nodes[from].term == args.term
    requires !Erased(config, events, from, args.term)
    ensures Run(config, events).nodes[from].votedFor == args.candidate
  {
    hide Run, Good;
    RunGood(config, events);
    var c := Run(config, events);
    MessageFact(c, VoteAnswer(from, round, args, reply));
    HistoryCommits(c);
    NodeFacts(c, from);
    assert P.VoteOk(c.history.peers, c.history.forgot, VoteFor(args, from));
  }

  /** An acknowledged position is still in the log while the node stays in that term. */
  lemma AcknowledgedKept(config: Config, events: seq<Event>, from: Id, args: AppendArgs, reply: AppendReply)
    requires ValidConfig(config) && VotesKept(config, events)
    requires AppendAnswer(from, args, reply) in Run(config, events).messages && reply.success
    requires from in Run(config, events).nodes && Run(config, events).nodes[from].term == args.term
    ensures var log := WholeLog(Run(config, events), from);
            && args.prevIndex + |args.entries| <= |log|
            && log[args.prevIndex..args.prevIndex + |args.entries|] == args.entries
            && TermAt(log, args.prevIndex) == args.prevTerm
  {
    hide Run, Good, P.MatchesOk, P.CommitsOk, P.LeaderLogsOk, P.VotesOk, P.PeerLogOk, P.RoleOk, LeaderSlice, Sound,
         Replayed;
    RunGood(config, events);
    var c := Run(config, events);
    MessageFact(c, AppendAnswer(from, args, reply));
    HistoryCommits(c);
    NodeFacts(c, from);
    AcknowledgedSlice(c.history, from, args);
  }

  lemma AcknowledgedSlice(h: P.History, from: Id, args: AppendArgs)
    requires from in h.peers && h.peers[from].term == args.term
    requires P.MatchesOk(h.peers, h.leaderLog, h.matched)
    requires args.term in h.leaderLog && LeaderSlice(h.leaderLog, h.commits, args)
    requires Sound(h, from, args.term, args.prevIndex + |args.entries|)
    ensures var log := h.peers[from].log;
            && args.prevIndex + |args.entries| <= |log|
            && log[args.prevIndex..args.prevIndex + |args.entries|] == args.entries
            && TermAt(log, args.prevIndex) == args.prevTerm
  {
    var last := args.prevIndex + |args.entries|;
    var log := h.peers[from].log;
    var lead := h.leaderLog[args.term];
    if last > 0 {
      assert P.MatchOk(h.peers, h.leaderLog, P.Ack(from, args.term, last));
      assert lead[..last] <= log;
      assert args.prevIndex > 0 ==> log[args.prevIndex - 1] == lead[..last][args.prevIndex - 1];
    }
  }

  // ---------------------------------------------------------------- leader logs and committed entries

  lemma LeaderLogsGrow(h: P.History, h': P.History, term: nat, index: nat)
    requires Grows(h, h') && term in h.leaderLog && 1 <= index <= |h.leaderLog[term]|
    ensures term in h'.leaderLog && index <= |h'.leaderLog[term]|
    ensures h'.leaderLog[term][index - 1] == h.leaderLog[term][index - 1]
  {
  }

  /** A committed entry is the one the leader of its term put there. */
  lemma CommittedIsPlaced(c: Cluster, n: Id, i: nat)
    requires Good(c) && n in c.nodes && 1 <= i <= c.nodes[n].commitIndex
    ensures i <= |WholeLog(c, n)|
    ensures var e := WholeLog(c, n)[i - 1];
            var ll := c.history.leaderLog;
            e.term in ll && i <= |ll[e.term]| && ll[e.term][i - 1] == e
  {
    hide Good;
    NodeFacts(c, n);
    HistoryCommits(c);
    var h := c.history;
    var p := h.peers[n];
    CoveredBelow(h, p.log, p.commit, i, p.term);
    var cm :| cm in h.commits && P.Covers(h.leaderLog, cm, p.log, i, p.term);
    var lead := h.leaderLog[cm.term];
    assert P.LeaderLogOk(h.leaderLog, cm.term, h.elected[cm.term], lead);
    assert P.Clean(h.leaderLog, lead[..i]);
    assert p.log[i - 1] == p.log[..i][i - 1] == lead[..i][i - 1];
  }
}
