/**
 What accepting an AppendEntries message does, in every run and in terms of the
 stored log alone: the simple rule that the loop, the truncation and the commit
 cap add up to.
 */
module AppendSpec {
  import opened Entries
  import opened Logs
  import opened Nodes
  import opened Cluster
  import opened ClusterInv
  import opened ClusterAppends
  import opened ClusterElections
  import opened Runs
  import opened Safety
  import P = Protocol
  import ProtocolFollowers

  /** The stored log has every entry of the message, apart from those behind its boundary. */
  ghost predicate Holds(log: seq<LogEntry>, args: AppendArgs)
    requires |log| > 0
  {
    && LastIndex(log) >= args.prevIndex + |args.entries|
    && forall k :: 0 <= k < |args.entries| && args.prevIndex + k + 1 > SnapshotIndex(log) ==>
         Get(log, args.prevIndex + k + 1) == args.entries[k]
  }

  /** The follower's log after an accepted message, given the one before. */
  ghost predicate Follows(before: seq<LogEntry>, after: seq<LogEntry>, args: AppendArgs)
    requires |before| > 0 && |after| > 0
  {
    && SnapshotIndex(after) == SnapshotIndex(before)
    && Holds(after, args)
    && (Holds(before, args) ==> after == before)
    && (!Holds(before, args) ==> LastIndex(after) == args.prevIndex + |args.entries|)
    && forall i :: SnapshotIndex(before) < i <= args.prevIndex ==> Get(after, i) == Get(before, i)
  }

  /** Reading a log that has been compacted, above its boundary. */
  lemma ReadAbove(log: seq<LogEntry>, base: nat, i: nat)
    requires base <= |log| && base < i
    ensures Get(Compacted(log, base), i) == if i <= |log| then log[i - 1] else NO_ENTRY
  {
    GetCompacted(log, base, i);
  }

  /** A stored log holds the message exactly when the whole log has the leader's prefix. */
  lemma HoldsIsPrefix(log: seq<LogEntry>, base: nat, lead: seq<LogEntry>, args: AppendArgs)
    requires base <= |log| && base <= |lead| && log[..base] == lead[..base]
    requires args.prevIndex + |args.entries| <= |lead|
             && args.entries == lead[args.prevIndex..args.prevIndex + |args.entries|]
    requires args.prevIndex <= |log| && log[..args.prevIndex] == lead[..args.prevIndex]
    ensures Holds(Compacted(log, base), args) <==> lead[..args.prevIndex + |args.entries|] <= log
  {
    hide Compacted, Get;
    var last := args.prevIndex + |args.entries|;
    LastCompacted(log, base);
    if lead[..last] <= log {
      SliceHeld(log, base, lead, last, args);
    }
    if Holds(Compacted(log, base), args) {
      forall i | 0 <= i < last
        ensures log[i] == lead[i]
      {
        if i < base {
          assert log[i] == log[..base][i] == lead[..base][i];
        } else if i < args.prevIndex {
          assert log[i] == log[..args.prevIndex][i] == lead[..args.prevIndex][i];
        } else {
          var k := i - args.prevIndex;
          ReadAbove(log, base, args.prevIndex + k + 1);
          assert args.entries[k] == lead[i];
        }
      }
    }
  }

  /** The same on whole logs, where the rule is to adopt the leader's prefix. */
  lemma AdoptFollows(log: seq<LogEntry>, base: nat, lead: seq<LogEntry>, args: AppendArgs)
    requires base <= |log| && base <= |lead| && log[..base] == lead[..base]
    requires args.prevIndex + |args.entries| <= |lead|
             && args.entries == lead[args.prevIndex..args.prevIndex + |args.entries|]
    requires args.prevIndex <= |log| && log[..args.prevIndex] == lead[..args.prevIndex]
    ensures var after := Adopt(log, lead[..args.prevIndex + |args.entries|]);
            base <= |after| && Follows(Compacted(log, base), Compacted(after, base), args)
  {
    hide Compacted, Get, Holds;
    var last := args.prevIndex + |args.entries|;
    var after := Adopt(log, lead[..last]);
    AdoptKeeps(log, lead, last, base);
    AdoptKeeps(log, lead, last, args.prevIndex);
    LastCompacted(log, base);
    LastCompacted(after, base);
    assert lead[..last] <= after;
    SliceHeld(after, base, lead, last, args);
    HoldsIsPrefix(log, base, lead, args);
    forall i | base < i <= args.prevIndex
      ensures Get(Compacted(after, base), i) == Get(Compacted(log, base), i)
    {
      ReadAbove(log, base, i);
      ReadAbove(after, base, i);
      assert after[i - 1] == after[..args.prevIndex][i - 1] && log[i - 1] == log[..args.prevIndex][i - 1];
    }
  }

  /** What the checks of the handler leave for a node that has caught up with the message's term. */
  lemma FacingAccept(c: Cluster, n: Id, args: AppendArgs)
    requires Good(c) && Facing(c, n, args) && HandleAppendEntries(c.nodes[n], args).1.success
    ensures var node, node' := c.nodes[n], HandleAppendEntries(c.nodes[n], args).0;
            && |node'.log| > 0 && Follows(node.log, node'.log, args)
            && node'.commitIndex == Max(node.commitIndex, Min(args.leaderCommit, args.prevIndex + |args.entries|))
  {
    hide Good, HandleAppendEntries, AppendLoop, Follows, LeaderSlice, P.PeerLogOk, P.RoleOk, P.Inv, Get, Compacted, Adopt,
         ProtocolFollowers.Led, TermsDecide, RealEntries;
    var h, node := c.history, c.nodes[n];
    var p := h.peers[n];
    GoodInv(c);
    NodeFacts(c, n);
    AcceptsOnlyCurrent(node, args);
    AcceptingHandler(node, args);
    AcceptedLog(h, n, node, args);
    NotTheLeader(h, n, args.term, args.leader);
    ProtocolFollowers.LedFact(h, n);
    CheckPassed(h.elected, h.leaderLog, h.commits, p, n, node, args);
    FollowerTermsDecide(h.elected, h.leaderLog, h.commits, p, n);
    SliceFollows(h.leaderLog, h.commits, p, node, args);
  }

  lemma GoodInv(c: Cluster)
    requires Good(c)
    ensures P.Inv(c.history)
  {
    hide P.Inv, NodesOk, MessagesOk, RoundsOk;
  }

  lemma SliceFollows(ll: P.LeaderLogs, commits: set<P.Commit>, p: P.Peer, node: Node, args: AppendArgs)
    requires args.term in ll && LeaderSlice(ll, commits, args) && p.base <= |p.log|
    requires p.base <= |ll[args.term]| && p.log[..p.base] == ll[args.term][..p.base]
    requires args.prevIndex <= |p.log| && p.log[..args.prevIndex] == ll[args.term][..args.prevIndex]
    ensures var last := args.prevIndex + |args.entries|;
            var log' := Adopt(p.log, ll[args.term][..last]);
            && args.leaderCommit <= last <= |log'|
            && p.base <= |log'|
            && Follows(Compacted(p.log, p.base), Compacted(log', p.base), args)
            && LastIndex(Compacted(log', p.base)) == |log'|
  {
    hide P.Covered, Follows, Compacted;
    AdoptFollows(p.log, p.base, ll[args.term], args);
    LastCompacted(Adopt(p.log, ll[args.term][..args.prevIndex + |args.entries|]), p.base);
  }

  /**
   In every run: an accepted message leaves exactly its entries over its range, keeps a longer log
   that already had them, and moves the commit index as Figure 2 says although the code caps it
   with the end of the follower's own log.
   */
  lemma AcceptedMessage(config: Config, events: seq<Event>, n: Id, args: AppendArgs)
    requires ValidConfig(config) && VotesKept(config, events)
    requires n in Run(config, events).nodes && AppendRequest(n, args) in Run(config, events).messages
    ensures |Run(config, events).nodes[n].log| > 0
    ensures var node := Run(config, events).nodes[n];
            var (node', reply) := HandleAppendEntries(node, args);
            reply.success ==>
              && |node'.log| > 0 && Follows(node.log, node'.log, args)
              && node'.commitIndex == Max(node.commitIndex, Min(args.leaderCommit, args.prevIndex + |args.entries|))
  {
    hide Run, Good, HandleAppendEntries, Follows, Grows, ValidConfig, Runs.VotesKept, LeaderSlice;
    RunGood(config, events);
    var c := Run(config, events);
    TermMirrors(c, n);
    if HandleAppendEntries(c.nodes[n], args).1.success {
      CaughtUp(c, n, args);
      CaughtGood(c, n, args.term);
      var c1 := Caught(c, n, args.term);
      YieldedGood(c1, n, args.term);
      var c2 := Yielded(c1, n, args.term);
      TermMirrors(c2, n);
      AppendFacts(c2, n, args);
      NotLeading(c2, n, args);
      FacingAccept(c2, n, args);
    }
  }

  /** Catching up first changes nothing about the handler's result, the log or the commit index. */
  lemma CaughtUp(c: Cluster, n: Id, args: AppendArgs)
    requires n in c.nodes && n in c.history.peers && |c.nodes[n].log| > 0
    ensures var c2 := Yielded(Caught(c, n, args.term), n, args.term);
            && n in c2.nodes && c2.nodes[n].log == c.nodes[n].log && c2.nodes[n].commitIndex == c.nodes[n].commitIndex
            && HandleAppendEntries(c2.nodes[n], args) == HandleAppendEntries(c.nodes[n], args)
            && c2.messages == c.messages
  {
    hide HandleAppendEntries;
    HandleAfterHearing(c.nodes[n], args);
    HandleAfterHearing(Caught(c, n, args.term).nodes[n], args);
  }

  lemma AcceptsOnlyCurrent(node: Node, args: AppendArgs)
    requires |node.log| > 0
    ensures HandleAppendEntries(node, args).1.success ==> args.term >= node.term
  {
    hide AppendLoop, Get, FirstIndexForTerm;
  }

  /** A message already answered with success, or a shorter one of the same leader, changes nothing any more. */
  lemma StaleMessageIgnored(config: Config, events: seq<Event>, n: Id, args: AppendArgs, reply: AppendReply,
        stale: AppendArgs)
    requires ValidConfig(config) && VotesKept(config, events) && n in Run(config, events).nodes
    requires AppendAnswer(n, args, reply) in Run(config, events).messages && reply.success
    requires AppendRequest(n, stale) in Run(config, events).messages
    requires stale.term == args.term == Run(config, events).nodes[n].term
    requires stale.prevIndex + |stale.entries| <= args.prevIndex + |args.entries|
    ensures |Run(config, events).nodes[n].log| > 0
    ensures HandleAppendEntries(Run(config, events).nodes[n], stale).0.log == Run(config, events).nodes[n].log
  {
    hide Run, Good, HandleAppendEntries, Follows, ValidConfig, Runs.VotesKept;
    AcceptedMessage(config, events, n, stale);
    RunGood(config, events);
    var c := Run(config, events);
    if HandleAppendEntries(c.nodes[n], stale).1.success {
      HopelessRejected(c.nodes[n], stale);
      StaleHeld(c, n, args, reply, stale);
      HeldStays(c.nodes[n].log, HandleAppendEntries(c.nodes[n], stale).0.log, stale);
    } else {
      RejectionKeepsLog(c.nodes[n], stale);
    }
  }

  lemma RejectionKeepsLog(node: Node, args: AppendArgs)
    requires |node.log| > 0 && !HandleAppendEntries(node, args).1.success
    ensures HandleAppendEntries(node, args).0.log == node.log
  {
    hide AppendLoop, Get, FirstIndexForTerm;
  }

  lemma HeldStays(before: seq<LogEntry>, after: seq<LogEntry>, args: AppendArgs)
    requires |before| > 0 && |after| > 0 && Follows(before, after, args) && Holds(before, args)
    ensures after == before
  {
  }

  lemma HopelessRejected(node: Node, args: AppendArgs)
    requires |node.log| > 0
    ensures Hopeless(args) ==> !HandleAppendEntries(node, args).1.success
  {
    hide AppendLoop, Get, FirstIndexForTerm;
  }

  /** What was acknowledged in the current term is held, and so is any shorter slice of the same leader's log. */
  lemma StaleHeld(c: Cluster, n: Id, args: AppendArgs, reply: AppendReply, stale: AppendArgs)
    requires Good(c) && n in c.nodes && AppendAnswer(n, args, reply) in c.messages && reply.success
    requires AppendRequest(n, stale) in c.messages && !Hopeless(stale)
    requires stale.term == args.term == c.nodes[n].term
    requires stale.prevIndex + |stale.entries| <= args.prevIndex + |args.entries|
    ensures |c.nodes[n].log| > 0 && Holds(c.nodes[n].log, stale)
  {
    hide Good, P.MatchesOk, P.CommitsOk, P.LeaderLogsOk, P.VotesOk, P.PeerLogOk, P.RoleOk, Replayed, P.Covered, Holds;
    MessageFact(c, AppendAnswer(n, args, reply));
    MessageFact(c, AppendRequest(n, stale));
    HistoryCommits(c);
    NodeFacts(c, n);
    var h := c.history;
    var p := h.peers[n];
    var last := args.prevIndex + |args.entries|;
    if last > 0 {
      MatchFact(h, n, args.term, last);
    }
    SliceHeld(p.log, p.base, h.leaderLog[args.term], last, stale);
  }

  lemma MatchFact(h: P.History, n: Id, term: nat, index: nat)
    requires P.MatchesOk(h.peers, h.leaderLog, h.matched) && Sound(h, n, term, index) && index > 0
    requires n in h.peers && h.peers[n].term == term
    ensures term in h.leaderLog && index <= |h.leaderLog[term]| && h.leaderLog[term][..index] <= h.peers[n].log
  {
    assert P.MatchOk(h.peers, h.leaderLog, P.Ack(n, term, index));
  }

  lemma SliceHeld(log: seq<LogEntry>, base: nat, lead: seq<LogEntry>, last: nat, args: AppendArgs)
    requires base <= |log| && last <= |lead| && lead[..last] <= log
    requires args.prevIndex + |args.entries| <= last
    requires args.entries == lead[args.prevIndex..args.prevIndex + |args.entries|]
    ensures Holds(Compacted(log, base), args)
  {
    hide Compacted, Get, LastIndex, SnapshotIndex;
    LastCompacted(log, base);
    forall k | 0 <= k < |args.entries| && args.prevIndex + k + 1 > base
      ensures Get(Compacted(log, base), args.prevIndex + k + 1) == args.entries[k]
    {
      GetCompacted(log, base, args.prevIndex + k + 1);
      assert log[args.prevIndex + k] == lead[..last][args.prevIndex + k];
    }
  }
}
