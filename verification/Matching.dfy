/**
 Log Matching read through the stored logs and the messages in flight, and when
 installing a snapshot leaves a log that obeys it.
 */
module Matching {
  import opened Entries
  import opened Logs
  import opened Nodes
  import opened Cluster
  import opened ClusterInv
  import opened Runs
  import opened Safety
  import P = Protocol
  import ProtocolFacts

  /** Whatever a node stores up to an index is what the leader of that index's term put there. */
  lemma StoredFromLeader(c: Cluster, n: Id, i: nat, j: nat)
    requires Good(c) && n in c.nodes && |c.nodes[n].log| > 0
    requires SnapshotIndex(c.nodes[n].log) < j <= i && Get(c.nodes[n].log, i).term > 0
    ensures var t, ll := Get(c.nodes[n].log, i).term, c.history.leaderLog;
            t in ll && i <= |ll[t]| && Get(c.nodes[n].log, j) == ll[t][j - 1]
  {
    hide Good, P.LeaderLogsOk, P.CommitsOk, P.MatchesOk, P.VotesOk, P.RoleOk, P.Covered, Replayed;
    NodeFacts(c, n);
    HistoryCommits(c);
    var p := c.history.peers[n];
    GetCompacted(p.log, p.base, i);
    GetCompacted(p.log, p.base, j);
    SuffixFromLeader(c.history.elected, c.history.leaderLog, p, i, j);
  }

  lemma SuffixFromLeader(elected: map<nat, P.Election>, ll: P.LeaderLogs, p: P.Peer, i: nat, j: nat)
    requires P.LeaderLogsOk(elected, ll) && elected.Keys == ll.Keys
    requires (P.Clean(ll, p.log) || P.Dirty(ll, p)) && p.base < j <= i <= |p.log|
    ensures var t := p.log[i - 1].term; t in ll && i <= |ll[t]| && p.log[j - 1] == ll[t][j - 1]
  {
    hide P.LeaderLogsOk;
    var t := p.log[i - 1].term;
    if P.Clean(ll, p.log) {
      ProtocolFacts.CleanPrefix(elected, ll, p.log, i);
      assert LastTermOf(p.log[..i]) == t;
      assert p.log[..i][j - 1] == ll[t][j - 1];
    } else {
      assert p.log[p.base..i][j - 1 - p.base] == ll[t][p.base..i][j - 1 - p.base];
    }
  }

  /**
   Log Matching on what nodes store, each at any moment of the run: the same term at an index
   means the same entries up to it, stale suffixes included.
   */
  lemma StoredLogsMatch(config: Config, events: seq<Event>, more: seq<Event>, a: Id, b: Id, i: nat, j: nat)
    requires ValidConfig(config) && VotesKept(config, events + more)
    requires a in Run(config, events).nodes && b in Run(config, events + more).nodes
    requires |Run(config, events).nodes[a].log| > 0 && |Run(config, events + more).nodes[b].log| > 0
    requires SnapshotIndex(Run(config, events).nodes[a].log) < j <= i
             && SnapshotIndex(Run(config, events + more).nodes[b].log) < j
    requires Get(Run(config, events).nodes[a].log, i).term == Get(Run(config, events + more).nodes[b].log, i).term > 0
    ensures Get(Run(config, events).nodes[a].log, j) == Get(Run(config, events + more).nodes[b].log, j)
  {
    hide Run, Good, Grows, ValidConfig, Runs.VotesKept, Get;
    RunGrows(config, events, more);
    var c, d := Run(config, events), Run(config, events + more);
    StoredFromLeader(c, a, i, j);
    StoredFromLeader(d, b, i, j);
    LeaderLogsGrow(c.history, d.history, Get(c.nodes[a].log, i).term, j);
  }

  /** An entry in flight is the entry any node stores, then or later, with its index and term. */
  lemma MessagesMatch(config: Config, events: seq<Event>, more: seq<Event>, to: Id, args: AppendArgs, k: nat, b: Id)
    requires ValidConfig(config) && VotesKept(config, events + more) && b in Run(config, events + more).nodes
    requires AppendRequest(to, args) in Run(config, events).messages && k < |args.entries|
    requires |Run(config, events + more).nodes[b].log| > 0
    requires SnapshotIndex(Run(config, events + more).nodes[b].log) < args.prevIndex + k + 1
    requires Get(Run(config, events + more).nodes[b].log, args.prevIndex + k + 1).term == args.entries[k].term > 0
    ensures Get(Run(config, events + more).nodes[b].log, args.prevIndex + k + 1) == args.entries[k]
  {
    hide Run, Good, Grows, ValidConfig, Runs.VotesKept, P.LeaderLogsOk, P.CommitsOk, P.MatchesOk, P.VotesOk, P.Covered, Get;
    RunGrows(config, events, more);
    var c, d := Run(config, events), Run(config, events + more);
    MessageFact(c, AppendRequest(to, args));
    HistoryCommits(c);
    var i := args.prevIndex + k + 1;
    var lead := c.history.leaderLog[args.term];
    assert args.entries[k] == lead[i - 1];
    LeaderEntry(c.history.elected, c.history.leaderLog, args.term, i);
    StoredFromLeader(d, b, i, i);
    LeaderLogsGrow(c.history, d.history, args.entries[k].term, i);
  }

  /** An entry of a leader's log is in the log of the leader of its own term. */
  lemma LeaderEntry(elected: map<nat, P.Election>, ll: P.LeaderLogs, t: nat, i: nat)
    requires P.LeaderLogsOk(elected, ll) && elected.Keys == ll.Keys && t in ll && 1 <= i <= |ll[t]|
    ensures var u := ll[t][i - 1].term; u in ll && i <= |ll[u]| && ll[u][i - 1] == ll[t][i - 1]
  {
    assert P.LeaderLogOk(ll, t, elected[t], ll[t]);
    assert P.Clean(ll, ll[t][..i]);
    assert ll[t][..i][i - 1] == ll[t][i - 1];
  }

  // ---------------------------------------------------------------- installed snapshots

  /** Overlaying a leader's prefix keeps a log clean exactly when they agree at the boundary. */
  lemma OverlayClean(elected: map<nat, P.Election>, ll: P.LeaderLogs, log: seq<LogEntry>, prefix: seq<LogEntry>)
    requires P.LeaderLogsOk(elected, ll) && elected.Keys == ll.Keys
    requires P.Clean(ll, log) && P.Clean(ll, prefix) && |prefix| > 0
    ensures P.Clean(ll, Overlay(log, prefix)) <==> |log| <= |prefix| || log[|prefix| - 1].term == LastTermOf(prefix)
  {
    hide P.LeaderLogsOk;
    var k := |prefix|;
    if k < |log| {
      var over := Overlay(log, prefix);
      assert over[..k] == prefix && LastTermOf(over) == LastTermOf(log);
      if P.Clean(ll, over) {
        assert over[..k][k - 1] == ll[LastTermOf(log)][k - 1] == log[k - 1];
      }
      if log[k - 1].term == LastTermOf(prefix) {
        ProtocolFacts.LogMatching(elected, ll, log, prefix, k);
        assert prefix[..k] == prefix;
        assert over == log;
      }
    }
  }

  /**
   In every run: of a log that had no stale suffix, an installed snapshot leaves one without
   exactly when it reaches the end of the log or agrees with the log's term at its boundary.
   */
  lemma InstallKeepsTidyIff(config: Config, events: seq<Event>, n: Id, args: SnapshotArgs)
    requires ValidConfig(config) && VotesKept(config, events)
    requires Live(Run(config, events), n) && Tidy(Run(config, events), n)
    requires SnapshotRequest(n, args) in Run(config, events).messages
    requires args.term >= Run(config, events).nodes[n].term
    requires args.lastIndex > SnapshotIndex(Run(config, events).nodes[n].log)
    ensures var node := Run(config, events).nodes[n];
            Tidy(Run(config, events + [Deliver(SnapshotRequest(n, args))]), n) <==>
              LastIndex(node.log) <= args.lastIndex || Get(node.log, args.lastIndex).term == args.lastTerm
  {
    hide Good, Run, Next, ValidConfig, Runs.VotesKept;
    RunGood(config, events);
    RunNext(config, events, Deliver(SnapshotRequest(n, args)));
    DeliveryKeepsTidyIff(Run(config, events), n, args);
  }

  lemma DeliveryKeepsTidyIff(c: Cluster, n: Id, args: SnapshotArgs)
    requires Good(c) && Live(c, n) && Tidy(c, n) && SnapshotRequest(n, args) in c.messages
    requires args.term >= c.nodes[n].term && args.lastIndex > SnapshotIndex(c.nodes[n].log)
    ensures Tidy(Next(c, Deliver(SnapshotRequest(n, args))), n) <==>
              LastIndex(c.nodes[n].log) <= args.lastIndex || Get(c.nodes[n].log, args.lastIndex).term == args.lastTerm
  {
    hide Good, Next, P.LeaderLogsOk, P.CommitsOk, P.MatchesOk, P.VotesOk, P.Covered, P.RoleOk, P.PeerLogOk, Replayed,
         P.Clean, Overlay;
    MessageFact(c, SnapshotRequest(n, args));
    HistoryCommits(c);
    NodeFacts(c, n);
    var p := c.history.peers[n];
    GetCompacted(p.log, p.base, args.lastIndex);
    LastCompacted(p.log, p.base);
    InstalledPeer(c, n, args);
    var lead := c.history.leaderLog[args.term];
    LeaderPrefixClean(c.history.elected, c.history.leaderLog, args.term, args.lastIndex);
    OverlayClean(c.history.elected, c.history.leaderLog, p.log, lead[..args.lastIndex]);
  }

  lemma LeaderPrefixClean(elected: map<nat, P.Election>, ll: P.LeaderLogs, t: nat, k: nat)
    requires P.LeaderLogsOk(elected, ll) && elected.Keys == ll.Keys && t in ll && 1 <= k <= |ll[t]|
    ensures P.Clean(ll, ll[t][..k]) && LastTermOf(ll[t][..k]) == TermAt(ll[t], k)
  {
    assert P.LeaderLogOk(ll, t, elected[t], ll[t]);
  }

  lemma InstalledPeer(c: Cluster, n: Id, args: SnapshotArgs)
    requires Live(c, n) && SnapshotRequest(n, args) in c.messages
    requires c.history.peers[n].term == c.nodes[n].term <= args.term && args.term in c.history.leaderLog
    requires args.lastIndex <= |c.history.leaderLog[args.term]| && args.lastIndex > c.history.peers[n].base
    ensures var h := Next(c, Deliver(SnapshotRequest(n, args))).history;
            && n in h.peers && h.leaderLog == c.history.leaderLog
            && h.peers[n].log == Overlay(c.history.peers[n].log, c.history.leaderLog[args.term][..args.lastIndex])
  {
    hide HandleInstallSnapshot;
  }
}
