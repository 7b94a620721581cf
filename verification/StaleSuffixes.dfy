/**
 Stale suffixes arise in the code as it is: an installed snapshot keeps whatever
 the log held behind its boundary, even entries that conflict with it. They need
 a node outside the majority, so exactly the clusters of one or two never have
 one.
 */
module StaleSuffixes {
  import opened Entries
  import opened Logs
  import opened Quorums
  import opened Nodes
  import opened Cluster
  import opened ClusterInv
  import opened Program
  import opened Runs
  import opened Safety
  import opened Matching
  import opened Scenarios
  import opened Exchanges
  import opened Applying
  import P = Protocol

  // ---------------------------------------------------------------- clusters of one or two

  /** A node among the holders of the commit that covers its boundary keeps a clean log. */
  lemma HolderClean(elected: map<nat, P.Election>, ll: P.LeaderLogs, cm: P.Commit, p: P.Peer)
    requires P.LeaderLogsOk(elected, ll) && elected.Keys == ll.Keys
    requires P.Dirty(ll, p) && cm.term in ll && p.base <= cm.index <= |ll[cm.term]|
    requires ll[cm.term][cm.index - 1].term == cm.term && P.Keeps(p.log, ll[cm.term], cm.index)
    requires forall t :: t in ll && t > cm.term ==> P.Has(ll, t, cm.term, cm.index)
    ensures P.Clean(ll, p.log)
  {
    hide P.LeaderLogsOk, P.Keeps, P.Has;
    if p.base == |p.log| {
      assert p.log[..p.base] == p.log;
    } else {
      hide P.Clean;
      var u, base := p.log[p.base].term, p.base;
      assert u in ll && base < |ll[u]| && ll[u][base - 1] != p.log[base - 1];
      BoundaryShared(elected, ll, cm, p.log, base);
      assert false;
    }
  }

  /** The leader an entry behind the boundary came from has the boundary entry too. */
  lemma BoundaryShared(elected: map<nat, P.Election>, ll: P.LeaderLogs, cm: P.Commit, log: seq<LogEntry>, base: nat)
    requires P.LeaderLogsOk(elected, ll) && elected.Keys == ll.Keys
    requires cm.term in ll && 1 <= base <= cm.index <= |ll[cm.term]| && base < |log| && log[base].term in ll
    requires base < |ll[log[base].term]|
    requires ll[cm.term][cm.index - 1].term == cm.term && P.Keeps(log, ll[cm.term], cm.index)
    requires forall t :: t in ll && t > cm.term ==> P.Has(ll, t, cm.term, cm.index)
    ensures ll[log[base].term][base - 1] == log[base - 1]
  {
    hide P.LeaderLogsOk;
    var u, lead := log[base].term, ll[cm.term];
    assert log[..cm.index][base - 1] == lead[..cm.index][base - 1];
    if base < cm.index {
      assert log[..cm.index][base] == lead[..cm.index][base];
      LeaderPrefixClean(elected, ll, cm.term, base + 1);
      assert LastTermOf(lead[..base + 1]) == u;
      assert lead[..base + 1][base - 1] == ll[u][base - 1];
    } else if u > cm.term {
      assert ll[u][..cm.index][base - 1] == lead[..cm.index][base - 1];
    }
  }

  lemma WholeMajority(holders: set<Id>, members: set<Id>)
    requires IsMajority(holders, members) && |members| <= 2
    ensures holders == members
  {
    if exists x :: x in members && x !in holders {
      var x :| x in members && x !in holders;
      SubsetSize(holders, members - {x});
    }
  }

  lemma CoveredTidy(c: Cluster, n: Id)
    requires Good(c) && n in c.nodes && |c.history.members| <= 2
    ensures Tidy(c, n)
  {
    hide Good, P.LeaderLogsOk, P.MatchesOk, P.VotesOk, P.RoleOk, Replayed, P.Keeps, P.Clean, P.Dirty, P.Covers, P.Has;
    NodeFacts(c, n);
    HistoryCommits(c);
    var h := c.history;
    var p := h.peers[n];
    if P.Dirty(h.leaderLog, p) && !P.Clean(h.leaderLog, p.log) {
      BoundaryHeld(c, n);
    }
  }

  lemma HistoryAcks(c: Cluster)
    requires Good(c)
    ensures P.AcksOk(c.history.peers, c.history.leaderLog, c.history.acks) && c.history.peers.Keys == c.history.members
  {
    hide P.ElectionsOk, P.VotesOk, P.ForgotOk, P.RolesOk, P.LeaderLogsOk, P.PeerLogsOk, P.AcksOk, P.MatchesOk,
         P.VotesForce, P.CommitsOk;
  }

  lemma BoundaryHeld(c: Cluster, n: Id)
    requires Good(c) && n in c.nodes && |c.history.members| <= 2 && n in c.history.peers
    requires P.Dirty(c.history.leaderLog, c.history.peers[n])
    ensures P.Clean(c.history.leaderLog, c.history.peers[n].log)
  {
    hide Good, P.LeaderLogsOk, P.MatchesOk, P.VotesOk, P.RoleOk, Replayed, P.Clean, P.Stale, P.Keeps;
    NodeFacts(c, n);
    HistoryCommits(c);
    HistoryAcks(c);
    var h := c.history;
    var p := h.peers[n];
    var cm :| cm in h.commits && P.Covers(h.leaderLog, cm, p.log, p.commit, p.term);
    assert P.CommitOk(h.members, h.leaderLog, h.acks, cm);
    WholeMajority(cm.holders, h.members);
    var a := P.Ack(n, cm.term, cm.index);
    assert a in h.acks;
    assert P.AckOk(h.peers, h.leaderLog, a);
    assert P.Retained(h.leaderLog, a, cm.index, p);
    HolderClean(h.elected, h.leaderLog, cm, p);
  }

  /** A cluster of one or two never has a stale suffix. */
  lemma SmallTidy(config: Config, actions: seq<Action>, n: Id)
    requires ValidConfig(config) && |config.Keys| <= 2 && VotesKept(config, Events(config, actions))
    requires n in Session(config, actions).cluster.nodes
    ensures Tidy(Session(config, actions).cluster, n)
  {
    hide Good, Run, Session, Events, ValidConfig, Runs.VotesKept, Tidy;
    SessionIsRun(config, actions);
    RunGood(config, Events(config, actions));
    CoveredTidy(Run(config, Events(config, actions)), n);
  }

  // ---------------------------------------------------------------- the run

  const COMMAND: Command := Raw([])

  /** What f stores alone in term 1, and what b commits in term 2. */
  const LONE: seq<LogEntry> := [Sentinel(0, 0), CommandEntry(1, 1, COMMAND), CommandEntry(1, 2, COMMAND)]
  const DECIDED: seq<LogEntry> := [Sentinel(0, 0), CommandEntry(2, 1, COMMAND)]

  /** What f is left with: an entry of term 1 behind a boundary of term 2. */
  const STALE: seq<LogEntry> := [Sentinel(1, 2), CommandEntry(1, 2, COMMAND)]

  /** f, b, and two groups one short of a majority: the first with b, the second without f and b. */
  ghost predicate Cast(config: Config, f: Id, b: Id, first: set<Id>, second: set<Id>) {
    && ValidConfig(config) && f in config && b in config && f != b && first <= config.Keys && second <= config.Keys
    && b in first && f !in first && f !in second && b !in second && second != {}
    && 1 + |first| == 1 + |second| == MajoritySize(|config.Keys|)
  }

  lemma Casting(config: Config) returns (f: Id, b: Id, first: set<Id>, second: set<Id>)
    requires ValidConfig(config) && |config.Keys| >= 3
    ensures Cast(config, f, b, first, second)
  {
    hide ValidConfig;
    f :| f in config;
    var others := config.Keys - {f};
    assert |others| == |config.Keys| - 1;
    b :| b in others;
    var rest := others - {b};
    assert |rest| == |config.Keys| - 2;
    second := Pick(rest, MajoritySize(|config.Keys|) - 1);
    var some := Pick(rest, MajoritySize(|config.Keys|) - 2);
    first := some + {b};
  }

  ghost predicate Holds(x: Node, role: Role, term: nat, log: seq<LogEntry>, commit: nat) {
    x.role == role && x.term == term && x.log == log && x.commitIndex == commit
  }

  /** Term 1: f leads and stores two entries that nobody else hears of. */
  lemma FirstTerm(config: Config, f: Id, b: Id, first: set<Id>, second: set<Id>) returns (c: Cluster)
    requires Cast(config, f, b, first, second)
    ensures Leads(true, Init(config), c) && Blank(c, config, second + {b}, 1) && b in c.nodes && c.nodes[b].term == 1
    ensures Member(c, config, f) && Holds(c.nodes[f], Leader, 1, LONE, 0)
  {
    hide Next, Leads, ValidConfig, Same, Blank, Init;
    var start, all := Init(config), first + second + {f};
    StartBlank(config, all);
    BlankPart(start, config, all, first, 0);
    BlankPart(start, config, all, second - first, 0);
    BlankMember(start, config, all, 0, f);
    var c1, round := ElectedByBlank(true, config, start, f, first, 0);
    BlankStays(start, c1, config, second - first, 0, first + {f});
    BlankJoined(c1, config, first, second, b);
    c := StoresTwo(config, c1, f);
    LeadsOn(true, start, c1, c);
    BlankStays(c1, c, config, second + {b}, 1, {f});
    BlankMember(c1, config, second + {b}, 1, b);
    SameMember(c1, c, config, {f}, b);
  }

  lemma StoresTwo(config: Config, c: Cluster, f: Id) returns (c': Cluster)
    requires Member(c, config, f) && Holds(c.nodes[f], Leader, 1, FRESH_LOG, 0)
    ensures Leads(true, c, c') && Same(c, c', {f}) && Member(c', config, f) && Holds(c'.nodes[f], Leader, 1, LONE, 0)
  {
    hide Next, Leads, Same;
    SubmitWorks(c, config, f, COMMAND);
    LeadsBy(true, c, ClientSubmit(f, COMMAND));
    var c1 := Next(c, ClientSubmit(f, COMMAND));
    SubmitWorks(c1, config, f, COMMAND);
    LeadsToNext(true, c, c1, ClientSubmit(f, COMMAND));
    c' := Next(c1, ClientSubmit(f, COMMAND));
    SameOn(c, c1, c', {f}, {f}, {f});
    assert c'.nodes[f].log == LONE;
  }

  lemma BlankJoined(c: Cluster, config: Config, first: set<Id>, second: set<Id>, b: Id)
    requires Blank(c, config, first, 1) && Blank(c, config, second - first, 0) && b in first
    ensures Blank(c, config, second + {b}, 1)
  {
  }

  /** b leads term 2 and stores one entry, without f. */
  lemma SecondTerm(config: Config, c: Cluster, f: Id, b: Id, first: set<Id>, second: set<Id>) returns (c': Cluster)
    requires Cast(config, f, b, first, second)
    requires Blank(c, config, second + {b}, 1) && b in c.nodes && c.nodes[b].term == 1
    ensures Leads(true, c, c') && Same(c, c', second + {b}) && Spreading(c', config, b, 2, DECIDED, second, {})
    ensures b in c'.nodes && Index(c'.nodes[b].nextIndex, f) == 1
  {
    hide Next, Leads, ValidConfig, Same, Blank, Spreading;
    BlankMember(c, config, second + {b}, 1, b);
    BlankPart(c, config, second + {b}, second, 1);
    var c1, round := ElectedByBlank(true, config, c, b, second, 1);
    c' := StoresOne(config, c1, f, b, second);
    LeadsOn(true, c, c1, c');
    SameOn(c, c1, c', second + {b}, {b}, second + {b});
  }

  lemma StoresOne(config: Config, c: Cluster, f: Id, b: Id, second: set<Id>) returns (c': Cluster)
    requires ValidConfig(config) && f in config && b in config && f != b && second <= config.Keys && b !in second
    requires FreshLeader(c, config, b) && Holds(c.nodes[b], Leader, 2, FRESH_LOG, 0) && Blank(c, config, second, 2)
    ensures Leads(true, c, c') && Same(c, c', {b}) && Spreading(c', config, b, 2, DECIDED, second, {})
    ensures b in c'.nodes && Index(c'.nodes[b].nextIndex, f) == 1
  {
    hide Next, Leads, ValidConfig, Same, Blank, Spreading;
    SubmitWorks(c, config, b, COMMAND);
    LeadsBy(true, c, ClientSubmit(b, COMMAND));
    c' := Next(c, ClientSubmit(b, COMMAND));
    BlankStays(c, c', config, second, 2, {b});
    assert FRESH_LOG + [CommandEntry(2, 1, COMMAND)] == DECIDED;
    PeersOf(config, b);
    SpreadingStarts(c', config, b, 2, DECIDED, second);
  }

  /** b commits its entry with the second group; f still leads term 1 on its own. */
  lemma Prepared(config: Config) returns (c: Cluster, f: Id, b: Id)
    requires ValidConfig(config) && |config.Keys| >= 3
    ensures Leads(true, Init(config), c) && Member(c, config, f) && Member(c, config, b) && f != b && f in config[b]
    ensures Holds(c.nodes[f], Leader, 1, LONE, 0) && Holds(c.nodes[b], Leader, 2, DECIDED, 1)
    ensures Index(c.nodes[b].nextIndex, f) == 1
  {
    hide Next, Leads, ValidConfig, Same, Blank, Spreading, Init;
    var first, second;
    f, b, first, second := Casting(config);
    var c1 := FirstTerm(config, f, b, first, second);
    var c2 := SecondTerm(config, c1, f, b, first, second);
    LeadsOn(true, Init(config), c1, c2);
    SameMember(c1, c2, config, second + {b}, f);
    c := Spread(true, c2, config, b, 2, DECIDED, second, {});
    LeadsOn(true, Init(config), c2, c);
    SameMember(c2, c, config, second + {b}, f);
    assert SameNext(c2, c, b, f);
    assert {} + second == second;
    PeersOf(config, b);
    SpreadCommits(c, config, b, second);
  }

  lemma SpreadCommits(c: Cluster, config: Config, b: Id, done: set<Id>)
    requires Spreading(c, config, b, 2, DECIDED, {}, done) && done != {}
    requires b in config && 1 + |done| >= MajoritySize(|config[b]| + 1)
    ensures Member(c, config, b) && Holds(c.nodes[b], Leader, 2, DECIDED, 1)
  {
  }

  // ---------------------------------------------------------------- the snapshot

  function Sent(b: Id): SnapshotArgs {
    SnapshotArgs(2, b, 1, 2, map[])
  }

  /** b applies its entry, takes a snapshot and sends it to f. */
  function SendSnapshot(b: Id, f: Id): seq<Action> {
    CaptureFirst(b) + [Compact(b), Core(Send(b, f))]
  }

  lemma TakenFields(y: Node, b: Id, f: Id)
    requires y.id == b && Holds(y, Leader, 2, DECIDED, 1) && Index(y.nextIndex, f) == 1
    ensures var z := TakeSnapshot(y.(lastApplied := 1), map[]);
            && |z.log| > 0 && z.role == Leader && z.peers == y.peers && NeedsSnapshot(z, f) && BuildSnapshotArgs(z) == Sent(b)
  {
    assert Get(DECIDED, 1) == CommandEntry(2, 1, COMMAND);
    assert CompactTo(DECIDED, 1, 2) == [Sentinel(1, 2)];
  }

  lemma SnapshotSent(s: System, f: Id, b: Id, x: Node, y: Node)
    requires f != b && At(s, f, x, Started(map[])) && At(s, b, y, Started(map[]))
    requires y.id == b && f in y.peers && Holds(y, Leader, 2, DECIDED, 1) && y.lastApplied == 0 && Index(y.nextIndex, f) == 1
    ensures var s' := Follow(s, SendSnapshot(b, f));
            At(s', f, x, Started(map[])) && SnapshotRequest(f, Sent(b)) in s'.cluster.messages
  {
    hide Follow, Step, At, Apart, TakeSnapshot, NeedsSnapshot, BuildSnapshotArgs;
    var e := CommandEntry(2, 1, COMMAND);
    assert NextEntry(y) == e;
    AtLog(s, b, y, Started(map[]));
    CapturesFirst(s, b, y);
    var s1 := Follow(s, CaptureFirst(b));
    ApartAt(s, s1, b, f, x, Started(map[]));
    Compacts(s1, b, y.(lastApplied := 1), Caught(e));
    var s2 := Step(s1, Compact(b));
    ApartAt(s1, s2, b, f, x, Started(map[]));
    TakenFields(y, b, f);
    SendsSnapshot(s2, b, f, TakeSnapshot(y.(lastApplied := 1), map[]), Caught(e).(captured := NoBytes));
    var s3 := Step(s2, Core(Send(b, f)));
    ApartAt(s2, s3, b, f, x, Started(map[]));
    FollowTwo(s1, Compact(b), Core(Send(b, f)));
    FollowOn(s, CaptureFirst(b), [Compact(b), Core(Send(b, f))]);
  }

  lemma InstalledLog(x: Node, b: Id)
    requires Holds(x, Leader, 1, LONE, 0)
    ensures Installs(x, Sent(b)) && HandleInstallSnapshot(x, Sent(b)).0.log == STALE
    ensures LastIndex(x.log) > 1 && Get(x.log, 1).term != 2
  {
    assert CompactTo(LONE, 1, 2) == STALE;
    assert Get(LONE, 1) == CommandEntry(1, 1, COMMAND);
  }

  /** Before the snapshot comes: a session without quorum checks in which f leads an earlier term. */
  lemma SnapshotUnderWay(config: Config) returns (actions: seq<Action>, f: Id, b: Id, x: Node)
    requires ValidConfig(config) && |config.Keys| >= 3
    ensures Calm(actions) && Holds(x, Leader, 1, LONE, 0)
    ensures var s := Session(config, actions);
            At(s, f, x, Started(map[])) && SnapshotRequest(f, Sent(b)) in s.cluster.messages
  {
    hide Leads, ValidConfig, Session, AllUsual, Calm, Init, Follow, SendSnapshot;
    var c;
    c, f, b := Prepared(config);
    LeadsSelf(true, c);
    var first, more := SessionsOf(config, true, c, c);
    var kit := first + more;
    NothingApplied(config, true, kit, b);
    x := c.nodes[f];
    SnapshotSent(Session(config, kit), f, b, x, c.nodes[b]);
    actions := kit + SendSnapshot(b, f);
    SessionIsFollow(config, kit);
    SessionIsFollow(config, actions);
    FollowOn(Begin(config), kit, SendSnapshot(b, f));
    CalmTail(kit, b, f);
  }

  lemma CalmTail(kit: seq<Action>, b: Id, f: Id)
    requires AllUsual(true, kit)
    ensures Calm(kit + SendSnapshot(b, f))
  {
    assert Calm(kit) && Calm(SendSnapshot(b, f));
  }

  lemma LeaderTidy(c: Cluster, n: Id)
    requires Good(c) && n in c.nodes && c.nodes[n].role == Leader
    ensures Tidy(c, n)
  {
    hide Good, P.RoleOk, P.Covered, Replayed, P.Clean, P.Stale;
    NodeFacts(c, n);
  }

  /** Some session of every cluster of three or more leaves a node with a stale suffix. */
  lemma StaleSuffixArises(config: Config) returns (actions: seq<Action>, n: Id)
    requires ValidConfig(config) && |config.Keys| >= 3
    ensures VotesKept(config, Events(config, actions)) && n in Session(config, actions).cluster.nodes
    ensures Session(config, actions).cluster.nodes[n].log == STALE && LastTerm(STALE) < SnapshotTerm(STALE)
    ensures !Tidy(Session(config, actions).cluster, n)
  {
    hide ValidConfig, Session, Run, Runs.VotesKept, Events, Calm, Good, Tidy, Step;
    var before, b, x;
    before, n, b, x := SnapshotUnderWay(config);
    var deliver := Deliver(SnapshotRequest(n, Sent(b)));
    actions := before + [Core(deliver)];
    InstalledLog(x, b);
    Delivered(config, before, n, b, x);
    assert Calm(actions) by {
      CalmMore(before, deliver);
    }
    CalmKeepsVotes(config, before);
    CalmKeepsVotes(config, actions);
    SessionIsRun(config, before);
    SessionIsRun(config, actions);
    RunGood(config, Events(config, before));
    LeaderTidy(Run(config, Events(config, before)), n);
    InstallKeepsTidyIff(config, Events(config, before), n, Sent(b));
  }

  lemma CalmMore(actions: seq<Action>, e: Event)
    requires Calm(actions) && !e.QuorumCheck?
    ensures Calm(actions + [Core(e)])
  {
  }

  lemma Delivered(config: Config, before: seq<Action>, n: Id, b: Id, x: Node)
    requires At(Session(config, before), n, x, Started(map[])) && Holds(x, Leader, 1, LONE, 0)
    requires SnapshotRequest(n, Sent(b)) in Session(config, before).cluster.messages
    ensures var e := Deliver(SnapshotRequest(n, Sent(b)));
            var s' := Session(config, before + [Core(e)]);
            n in s'.cluster.nodes && s'.cluster.nodes[n].log == STALE
    ensures Events(config, before + [Core(Deliver(SnapshotRequest(n, Sent(b))))]) ==
            Events(config, before) + [Deliver(SnapshotRequest(n, Sent(b)))]
  {
    hide Step, HandleInstallSnapshot, Installs;
    var e := Deliver(SnapshotRequest(n, Sent(b)));
    assert (before + [Core(e)])[..|before|] == before;
    InstalledLog(x, b);
    Installing(Session(config, before), n, Sent(b), x, Started(map[]));
  }

  // ---------------------------------------------------------------- the exact condition

  ghost predicate AlwaysTidy(config: Config) {
    forall actions, n :: VotesKept(config, Events(config, actions)) && n in Session(config, actions).cluster.nodes ==>
      Tidy(Session(config, actions).cluster, n)
  }

  /** No session leaves a stale suffix, exactly in clusters of one or two. */
  lemma AlwaysTidyIff(config: Config)
    requires ValidConfig(config)
    ensures AlwaysTidy(config) <==> |config.Keys| <= 2
  {
    hide ValidConfig, Session, Runs.VotesKept, Events, Tidy;
    if |config.Keys| <= 2 {
      forall actions, n | VotesKept(config, Events(config, actions)) && n in Session(config, actions).cluster.nodes
        ensures Tidy(Session(config, actions).cluster, n)
      {
        SmallTidy(config, actions, n);
      }
    } else {
      var actions, n := StaleSuffixArises(config);
      assert !AlwaysTidy(config);
    }
  }
}
