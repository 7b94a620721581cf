/**
 A peer that needs a snapshot, brought back to entries: one round trip with the
 snapshot, then a message that starts right behind what is confirmed. The peer
 takes it exactly when it has not compacted further than that itself.
 */
module SnapshotTrips {
  import opened Entries
  import opened Logs
  import opened Nodes
  import opened Cluster
  import opened ClusterInv
  import opened Runs
  import opened Safety
  import ClusterElections
  import Terms
  import P = Protocol

  // ---------------------------------------------------------------- the leader's side

  /** A reply to a snapshot confirms it: the peer's indices move behind the furthest confirmed entry, and nothing else moves. */
  lemma ReplyConfirms(l: Node, q: Id, args: SnapshotArgs, reply: SnapshotReply)
    requires |l.log| > 0 && l.role == Leader && args.term == l.term && reply.term <= l.term
    ensures var l' := ReceiveSnapshotReply(l, q, args.term, args, reply);
            var m := Max(args.lastIndex, Index(l.matchIndex, q));
            && Index(l'.matchIndex, q) == m && Index(l'.nextIndex, q) == m + 1
            && (forall p :: p != q ==> Index(l'.matchIndex, p) == Index(l.matchIndex, p) && Index(l'.nextIndex, p) == Index(l.nextIndex, p))
            && l' == l.(matchIndex := l'.matchIndex, nextIndex := l'.nextIndex)
            && (NeedsSnapshot(l', q) <==> m < SnapshotIndex(l.log))
            && (!NeedsSnapshot(l', q) ==> BuildArgs(l', q).prevIndex == m)
  {
  }

  // ---------------------------------------------------------------- the peer's side

  /** The node after the snapshot: in the leader's term, compacted at least that far. */
  lemma PeerInstalls(f: Node, args: SnapshotArgs)
    requires |f.log| > 0 && f.term <= args.term
    ensures var (f', reply) := HandleInstallSnapshot(f, args);
            && reply == SnapshotReply(args.term) && f'.term == args.term && |f'.log| > 0
            && SnapshotIndex(f'.log) == Max(SnapshotIndex(f.log), args.lastIndex)
            && (args.lastIndex <= SnapshotIndex(f.log) ==> f'.log == f.log)
  {
  }

  /** The next message to a peer of the leader's term: accepted unless the peer has compacted past what it confirmed. */
  lemma MatchedAccepted(c: Cluster, n: Id, q: Id)
    requires Good(c) && n in c.nodes && q in c.nodes && |c.nodes[n].log| > 0 && |c.nodes[q].log| > 0
    requires c.nodes[n].role == Leader && q in c.nodes[n].peers && c.nodes[q].term == c.nodes[n].term
    requires !NeedsSnapshot(c.nodes[n], q) && Index(c.nodes[n].matchIndex, q) >= 1
    requires Index(c.nodes[n].nextIndex, q) == Index(c.nodes[n].matchIndex, q) + 1
    ensures var m, f := Index(c.nodes[n].matchIndex, q), c.nodes[q];
            var args := BuildArgs(c.nodes[n], q);
            var (f', reply) := HandleAppendEntries(f, args);
            && args.prevIndex == m && m + |args.entries| == |WholeLog(c, n)|
            && (reply.success <==> SnapshotIndex(f.log) <= m)
            && (!reply.success ==> reply == AppendReply(f.term, false, 0, LastIndex(f.log) + 1) && LastIndex(f.log) > m)
  {
    hide Good, HandleAppendEntries, P.PeerLogOk, P.RoleOk, P.CommitsOk, P.LeaderLogsOk, P.VotesOk, P.MatchesOk, Replayed,
         Compacted, Sound;
    var l, f := c.nodes[n], c.nodes[q];
    var m := Index(l.matchIndex, q);
    LeadersOwnLog(c, n);
    MatchIndexBounded(c, n, q);
    Confirmed(c, n, q);
    NodeFacts(c, n);
    NodeFacts(c, q);
    HistoryCommits(c);
    var lead, p := WholeLog(c, n), c.history.peers[q];
    var base := c.history.peers[n].base;
    BuiltBehind(l, lead, base, q, m);
    PositiveTerm(c.history.elected, c.history.leaderLog, l.term, m);
    GetCompacted(p.log, p.base, m);
    LastCompacted(p.log, p.base);
    assert p.log[m - 1] == lead[..m][m - 1];
    CheckDecides(f, BuildArgs(l, q));
  }

  lemma BuiltBehind(l: Node, lead: seq<LogEntry>, base: nat, q: Id, m: nat)
    requires base <= m <= |lead| && l.log == Compacted(lead, base) && Index(l.nextIndex, q) == m + 1
    ensures !NeedsSnapshot(l, q)
    ensures BuildArgs(l, q) == AppendArgs(l.term, l.id, m, TermAt(lead, m), lead[m..], l.commitIndex)
  {
    hide Compacted, Get, Slice;
    LastCompacted(lead, base);
    GetCompacted(lead, base, m);
    SliceCompacted(lead, base, m + 1);
  }

  /** What the handler's check comes down to. */
  lemma CheckDecides(f: Node, args: AppendArgs)
    requires |f.log| > 0 && f.term == args.term && args.prevIndex >= 1 && args.prevTerm >= 1
    ensures var (f', reply) := HandleAppendEntries(f, args);
            && (reply.success <==> Get(f.log, args.prevIndex).term == args.prevTerm)
            && (Get(f.log, args.prevIndex).term == 0 ==> reply == AppendReply(f.term, false, 0, LastIndex(f.log) + 1))
  {
    hide AppendLoop, Get, FirstIndexForTerm, LastIndex;
  }

  /** What the leader counts as matched is in the peer's log. */
  lemma Confirmed(c: Cluster, n: Id, q: Id)
    requires Good(c) && n in c.nodes && q in c.nodes && c.nodes[n].role == Leader && q in c.nodes[n].peers
    requires c.nodes[q].term == c.nodes[n].term && Index(c.nodes[n].matchIndex, q) >= 1
    ensures var m, t := Index(c.nodes[n].matchIndex, q), c.nodes[n].term;
            && q in c.history.peers && t in c.history.leaderLog && m <= |c.history.leaderLog[t]|
            && c.history.leaderLog[t][..m] <= c.history.peers[q].log
  {
    hide Good, P.CommitsOk, P.LeaderLogsOk, P.VotesOk;
    Tracked(c, n, q);
    TermsMirror(c, q);
    HistoryCommits(c);
    assert P.MatchOk(c.history.peers, c.history.leaderLog, P.Ack(q, c.nodes[n].term, Index(c.nodes[n].matchIndex, q)));
  }

  lemma PositiveTerm(elected: map<nat, P.Election>, ll: P.LeaderLogs, t: nat, i: nat)
    requires P.LeaderLogsOk(elected, ll) && elected.Keys == ll.Keys && t in ll && 1 <= i <= |ll[t]|
    ensures TermAt(ll[t], i) >= 1
  {
    assert P.LeaderLogOk(ll, t, elected[t], ll[t]);
  }

  // ---------------------------------------------------------------- the trip

  /** The snapshot sent, installed and confirmed. */
  ghost function Trip(l: Node, q: Id): seq<Event>
    requires |l.log| > 0
  {
    var args := BuildSnapshotArgs(l);
    [Send(l.id, q), Deliver(SnapshotRequest(q, args)), Deliver(SnapshotAnswer(q, args, SnapshotReply(l.term)))]
  }

  lemma TripNodes(c: Cluster, n: Id, q: Id)
    requires Live(c, n) && Live(c, q) && n != q && c.nodes[n].id == n
    requires c.nodes[n].role == Leader && q in c.nodes[n].peers && NeedsSnapshot(c.nodes[n], q)
    requires c.nodes[q].term <= c.nodes[n].term
    ensures var l, f := c.nodes[n], c.nodes[q];
            var args := BuildSnapshotArgs(l);
            var e := Trip(l, q);
            var c' := Next(Next(Next(c, e[0]), e[1]), e[2]);
            && n in c'.nodes && q in c'.nodes
            && c'.nodes[n] == ReceiveSnapshotReply(l, q, l.term, args, SnapshotReply(l.term))
            && c'.nodes[q] == HandleInstallSnapshot(f, args).0
  {
    hide HandleInstallSnapshot, ReceiveSnapshotReply;
    var args := BuildSnapshotArgs(c.nodes[n]);
    PeerInstalls(c.nodes[q], args);
    SendsIt(c, n, q);
    var c1 := Next(c, Send(n, q));
    Terms.InstallRule(c1.nodes[q], args);
    InstallsIt(c1, q, args);
    var c2 := Next(c1, Deliver(SnapshotRequest(q, args)));
    ConfirmsIt(c2, n, q, args, SnapshotReply(args.term));
  }

  lemma SendsIt(c: Cluster, n: Id, q: Id)
    requires Live(c, n) && c.nodes[n].role == Leader && q in c.nodes[n].peers && NeedsSnapshot(c.nodes[n], q)
    ensures var c' := Next(c, Send(n, q));
            && c'.nodes == c.nodes && c'.history == c.history
            && SnapshotRequest(q, BuildSnapshotArgs(c.nodes[n])) in c'.messages
  {
  }

  lemma InstallsIt(c: Cluster, q: Id, args: SnapshotArgs)
    requires Live(c, q) && SnapshotRequest(q, args) in c.messages
    ensures var c' := Next(c, Deliver(SnapshotRequest(q, args)));
            var (f, reply) := HandleInstallSnapshot(c.nodes[q], args);
            && c'.nodes == c.nodes[q := f] && SnapshotAnswer(q, args, reply) in c'.messages
            && c'.history.peers.Keys == c.history.peers.Keys
  {
    hide HandleInstallSnapshot;
    assert Receiver(SnapshotRequest(q, args)) == q;
  }

  lemma ConfirmsIt(c: Cluster, n: Id, q: Id, args: SnapshotArgs, reply: SnapshotReply)
    requires Live(c, n) && SnapshotAnswer(q, args, reply) in c.messages && args.leader == n
    ensures Next(c, Deliver(SnapshotAnswer(q, args, reply))).nodes ==
            c.nodes[n := ReceiveSnapshotReply(c.nodes[n], q, args.term, args, reply)]
  {
    hide ReceiveSnapshotReply;
    assert Receiver(SnapshotAnswer(q, args, reply)) == n;
  }

  // ---------------------------------------------------------------- in every run

  /** An event other than a vote request casts no vote. */
  lemma KeptWith(config: Config, events: seq<Event>, e: Event)
    requires VotesKept(config, events) && !(e.Deliver? && e.m.VoteRequest?)
    ensures VotesKept(config, events + [e])
  {
    hide Erased, Run;
    var all := events + [e];
    forall i | 0 <= i < |all| && |config.Keys| % 2 != 0
      ensures !CastsAgain(config, all[..i], all[i])
    {
      if i < |events| {
        assert all[..i] == events[..i] && all[i] == events[i];
      }
    }
  }

  lemma KeptWithAll(config: Config, events: seq<Event>, a: Event, b: Event, d: Event)
    requires VotesKept(config, events)
    requires forall e :: e in [a, b, d] ==> !(e.Deliver? && e.m.VoteRequest?)
    ensures VotesKept(config, events + [a, b, d])
    ensures Run(config, events + [a, b, d]) == Next(Next(Next(Run(config, events), a), b), d)
  {
    hide Runs.VotesKept, Next;
    assert a in [a, b, d] && b in [a, b, d] && d in [a, b, d];
    KeptWith(config, events, a);
    KeptWith(config, events + [a], b);
    KeptWith(config, events + [a] + [b], d);
    assert events + [a] + [b] + [d] == events + [a, b, d];
    RunNext(config, events, a);
    RunNext(config, events + [a], b);
    RunNext(config, events + [a] + [b], d);
  }

  /**
   A leader sends a peer that needs it a snapshot; the peer installs and answers. Then the peer needs no
   snapshot any more, the next message starts right behind what is confirmed, and the peer accepts it
   exactly when its own boundary does not lie beyond that. If it does, the answer points past its log's end.
   */
  lemma SnapshotRoundTrip(config: Config, events: seq<Event>, n: Id, q: Id)
    requires ValidConfig(config) && VotesKept(config, events)
    requires n in Run(config, events).nodes && q in Run(config, events).nodes
    requires |Run(config, events).nodes[n].log| > 0 && |Run(config, events).nodes[q].log| > 0
    requires Run(config, events).nodes[n].role == Leader && q in Run(config, events).nodes[n].peers
    requires Run(config, events).nodes[q].term <= Run(config, events).nodes[n].term
    requires NeedsSnapshot(Run(config, events).nodes[n], q)
    ensures var l, f := Run(config, events).nodes[n], Run(config, events).nodes[q];
            var c := Run(config, events + Trip(l, q));
            var m := Max(SnapshotIndex(l.log), Index(l.matchIndex, q));
            && n in c.nodes && q in c.nodes && |c.nodes[n].log| > 0 && |c.nodes[q].log| > 0
            && c.nodes[n].log == l.log && c.nodes[n].peers == l.peers && c.nodes[n].role == Leader
            && c.nodes[q].term == c.nodes[n].term == l.term
            && !NeedsSnapshot(c.nodes[n], q)
            && var args := BuildArgs(c.nodes[n], q);
               var (f', reply) := HandleAppendEntries(c.nodes[q], args);
               && args.prevIndex == m && m + |args.entries| == |WholeLog(c, n)|
               && (reply.success <==> SnapshotIndex(f.log) <= m)
               && (!reply.success ==> reply.conflictTerm == 0 && reply.conflictIndex == LastIndex(c.nodes[q].log) + 1 > m + 1)
  {
    hide Run, Good, Next, ValidConfig, Runs.VotesKept, HandleAppendEntries, HandleInstallSnapshot, BuildArgs;
    var c0 := Run(config, events);
    var l, f := c0.nodes[n], c0.nodes[q];
    var args := BuildSnapshotArgs(l);
    RunGood(config, events);
    Different(c0, n, q);
    Tracked(c0, n, q);
    TripNodes(c0, n, q);
    var e := Trip(l, q);
    KeptWithAll(config, events, e[0], e[1], e[2]);
    assert e == [e[0], e[1], e[2]];
    RunGood(config, events + e);
    ReplyConfirms(l, q, args, SnapshotReply(l.term));
    PeerInstalls(f, args);
    MatchedAccepted(Run(config, events + e), n, q);
  }

  /** And once it accepts, it has the leader's whole log. */
  lemma SnapshotThenEntries(config: Config, events: seq<Event>, n: Id, q: Id)
    requires ValidConfig(config) && VotesKept(config, events)
    requires n in Run(config, events).nodes && q in Run(config, events).nodes
    requires |Run(config, events).nodes[n].log| > 0 && |Run(config, events).nodes[q].log| > 0
    requires Run(config, events).nodes[n].role == Leader && q in Run(config, events).nodes[n].peers
    requires Run(config, events).nodes[q].term <= Run(config, events).nodes[n].term
    requires NeedsSnapshot(Run(config, events).nodes[n], q)
    requires var l, f := Run(config, events).nodes[n], Run(config, events).nodes[q];
             SnapshotIndex(f.log) <= Max(SnapshotIndex(l.log), Index(l.matchIndex, q))
    ensures var l := Run(config, events).nodes[n];
            var c := Run(config, events + Trip(l, q));
            && n in c.nodes && |c.nodes[n].log| > 0 && !NeedsSnapshot(c.nodes[n], q)
            && var d := Run(config, events + Trip(l, q) + [Send(n, q), Deliver(AppendRequest(q, BuildArgs(c.nodes[n], q)))]);
               WholeLog(c, n) <= WholeLog(d, q)
  {
    hide Run, Good, Next, ValidConfig, Runs.VotesKept, HandleAppendEntries, BuildArgs, Trip, WholeLog, NeedsSnapshot;
    var c0 := Run(config, events);
    var known := events + Trip(c0.nodes[n], q);
    RunGood(config, events);
    Different(c0, n, q);
    SnapshotRoundTrip(config, events, n, q);
    TripKept(config, events, n, q);
    EntriesArrive(config, known, n, q);
  }

  lemma TripKept(config: Config, events: seq<Event>, n: Id, q: Id)
    requires VotesKept(config, events) && n in Run(config, events).nodes && |Run(config, events).nodes[n].log| > 0
    ensures VotesKept(config, events + Trip(Run(config, events).nodes[n], q))
  {
    hide Runs.VotesKept, Next, Run;
    var e := Trip(Run(config, events).nodes[n], q);
    KeptWithAll(config, events, e[0], e[1], e[2]);
    assert e == [e[0], e[1], e[2]];
  }

  /** A message of entries that the peer accepts leaves it with the leader's log. */
  lemma EntriesArrive(config: Config, events: seq<Event>, n: Id, q: Id)
    requires ValidConfig(config) && VotesKept(config, events)
    requires n in Run(config, events).nodes && q in Run(config, events).nodes
    requires |Run(config, events).nodes[n].log| > 0 && |Run(config, events).nodes[q].log| > 0
    requires Run(config, events).nodes[n].role == Leader && q in Run(config, events).nodes[n].peers
    requires !NeedsSnapshot(Run(config, events).nodes[n], q)
    requires var c := Run(config, events);
             var args := BuildArgs(c.nodes[n], q);
             && HandleAppendEntries(c.nodes[q], args).1.success
             && args.prevIndex + |args.entries| == |WholeLog(c, n)|
    ensures var c := Run(config, events);
            var d := Run(config, events + [Send(n, q), Deliver(AppendRequest(q, BuildArgs(c.nodes[n], q)))]);
            WholeLog(c, n) <= WholeLog(d, q)
  {
    hide Run, Good, Next, ValidConfig, Runs.VotesKept, HandleAppendEntries, BuildArgs, NeedsSnapshot, WholeLog, Grows;
    var c := Run(config, events);
    var args := BuildArgs(c.nodes[n], q);
    var a, b := Send(n, q), Deliver(AppendRequest(q, args));
    RunGood(config, events);
    Different(c, n, q);
    KeptWith(config, events, a);
    KeptWith(config, events + [a], b);
    assert events + [a] + [b] == events + [a, b];
    RunNext(config, events, a);
    RunNext(config, events + [a], b);
    EntriesTaken(c, n, q);
    RunGrows(config, events, [a, b]);
    var d := Run(config, events + [a, b]);
    LeadersOwnLog(c, n);
    TakenOver(c, d, n, q, args);
  }

  lemma EntriesTaken(c: Cluster, n: Id, q: Id)
    requires Live(c, n) && Live(c, q) && n != q && c.nodes[n].id == n
    requires c.nodes[n].role == Leader && q in c.nodes[n].peers && !NeedsSnapshot(c.nodes[n], q)
    ensures var args := BuildArgs(c.nodes[n], q);
            var c' := Next(Next(c, Send(n, q)), Deliver(AppendRequest(q, args)));
            var (f', reply) := HandleAppendEntries(c.nodes[q], args);
            && q in c'.nodes && c'.nodes[q] == f' && AppendAnswer(q, args, reply) in c'.messages
            && args.term == c.nodes[n].term && (reply.success ==> f'.term == args.term)
  {
    hide HandleAppendEntries, Get, Slice, LastIndex;
    var args := BuildArgs(c.nodes[n], q);
    assert Receiver(AppendRequest(q, args)) == q;
    Terms.AppendRule(c.nodes[q], args);
  }

  lemma TakenOver(c: Cluster, d: Cluster, n: Id, q: Id, args: AppendArgs)
    requires Good(d) && Grows(c.history, d.history) && q in d.nodes && d.nodes[q].term == args.term
    requires args.term in c.history.leaderLog && args.prevIndex + |args.entries| == |c.history.leaderLog[args.term]|
    requires exists reply :: AppendAnswer(q, args, reply) in d.messages && reply.success
    ensures c.history.leaderLog[args.term] <= WholeLog(d, q)
  {
    hide Good, P.CommitsOk, P.LeaderLogsOk, P.VotesOk, LeaderSlice, Durable;
    var reply :| AppendAnswer(q, args, reply) in d.messages && reply.success;
    MessageFact(d, AppendAnswer(q, args, reply));
    TermsMirror(d, q);
    HistoryCommits(d);
    var lead := c.history.leaderLog[args.term];
    if |lead| > 0 {
      assert P.MatchOk(d.history.peers, d.history.leaderLog, P.Ack(q, args.term, |lead|));
      assert d.history.leaderLog[args.term][..|lead|] == lead;
    }
  }

  lemma Different(c: Cluster, n: Id, q: Id)
    requires Good(c) && n in c.nodes && q in c.nodes[n].peers && q in c.nodes
    ensures n != q && Live(c, n) && Live(c, q) && c.nodes[n].id == n
  {
    hide Good, P.Inv, MessagesOk, RoundsOk, Stored, Applied, Replayed, Tracking, Mirrors;
    ClusterElections.MemberFacts(c, n);
    ClusterElections.MemberFacts(c, q);
    assert q in PeerSet(c.nodes[n].peers);
  }
}
