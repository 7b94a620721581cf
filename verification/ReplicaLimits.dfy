/**
 Replicas that diverge in the code as it is. The apply loop restores a queued
 snapshot without looking at what it has applied since, and a snapshot is taken
 at an index that may have moved since its bytes were read. Either one alone, in
 some session of every cluster of two or more, leaves two replicas that have
 applied the same entries with different maps.
 */
module ReplicaLimits {
  import opened Entries
  import opened Logs
  import opened Machine
  import opened Quorums
  import opened Nodes
  import opened Cluster
  import opened Program
  import opened Runs
  import opened Replicas
  import opened Scenarios
  import opened Exchanges
  import opened Applying
  import ElectionLimits
  import Recovery

  // ---------------------------------------------------------------- the two orders

  ghost predicate RestoresInOrder(config: Config, actions: seq<Action>) {
    forall i :: 0 <= i < |actions| && actions[i].Restore? ==> !RestoresLate(Session(config, actions[..i]), actions[i].n)
  }

  ghost predicate CapturesInOrder(config: Config, actions: seq<Action>) {
    forall i :: 0 <= i < |actions| && (actions[i].Compact? || actions[i].CrashCompact?) ==>
      !CompactsLate(Session(config, actions[..i]), actions[i].n)
  }

  /** Both replicas are between entries, have applied equally far and hold different maps. */
  ghost predicate Diverged(s: System, a: Id, b: Id) {
    && a in s.cluster.nodes && b in s.cluster.nodes
    && Settled(ApplierOf(s, a)) && Settled(ApplierOf(s, b))
    && s.cluster.nodes[a].lastApplied == s.cluster.nodes[b].lastApplied
    && ApplierOf(s, a).store != ApplierOf(s, b).store
  }

  // ---------------------------------------------------------------- the entries

  /** An entry that changes nothing, and one that sets a key. */
  const FIRST: LogEntry := CommandEntry(1, 1, Raw([]))
  const SECOND: LogEntry := CommandEntry(3, 2, Encoded(Op("SET", "k", "v")))
  const ONE: seq<LogEntry> := [Sentinel(0, 0), FIRST]
  const BOTH: seq<LogEntry> := [Sentinel(0, 0), FIRST, SECOND]
  const AFTER_BOTH: Store := map["k" := "v"]

  /** The rejection of l's first message that is still under way. */
  function Late(l: Id, p: Id): Message {
    AppendAnswer(p, AppendArgs(3, l, 1, 1, [SECOND], 0), AppendReply(3, false, 0, 1))
  }

  /** The leader l, its peer p, and a group with p one short of a majority. */
  ghost predicate Cast(config: Config, l: Id, p: Id, group: set<Id>) {
    && ValidConfig(config) && l in config && l !in group && p in group && group <= config.Keys
    && 1 + |group| == MajoritySize(|config.Keys|)
  }

  ghost predicate Holds(x: Node, term: nat, log: seq<LogEntry>, commit: nat) {
    x.term == term && x.log == log && x.commitIndex == commit
  }

  /** Both entries are committed, p knows, and the rejection is late. */
  ghost predicate Ready(c: Cluster, config: Config, l: Id, p: Id) {
    && Member(c, config, l) && Member(c, config, p) && l != p && p in config[l]
    && Holds(c.nodes[l], 3, BOTH, 2) && Holds(c.nodes[p], 3, BOTH, 2)
    && c.nodes[l].role == Leader && Late(l, p) in c.messages
  }

  // ---------------------------------------------------------------- terms 1 to 3

  /** Term 1: l is elected and stores nothing yet. */
  lemma FirstTerm(config: Config, l: Id, p: Id, group: set<Id>) returns (c: Cluster)
    requires Cast(config, l, p, group)
    ensures Leads(true, Init(config), c) && Blank(c, config, group, 1) && p in c.nodes && c.nodes[p].term == 1
    ensures Member(c, config, l) && c.nodes[l].role == Leader && Holds(c.nodes[l], 1, FRESH_LOG, 0)
  {
    hide Next, Leads, ValidConfig, Same, Blank, Init;
    StartBlank(config, group + {l});
    BlankPart(Init(config), config, group + {l}, group, 0);
    BlankMember(Init(config), config, group + {l}, 0, l);
    var round;
    c, round := ElectedByBlank(true, config, Init(config), l, group, 0);
  }

  /** The others and l back the probe of p, which stands for term 2 and sends its requests. */
  lemma Rival(config: Config, c: Cluster, l: Id, p: Id, group: set<Id>) returns (c': Cluster, round: nat)
    requires Cast(config, l, p, group) && Blank(c, config, group, 1)
    requires Member(c, config, l) && Holds(c.nodes[l], 1, FRESH_LOG, 0)
    requires Member(c, config, p) && c.nodes[p].term == 1
    ensures Leads(true, c, c') && Same(c, c', {p}) && Blank(c', config, group, 2)
    ensures VoteRequest(l, round, VoteArgs(2, p, 0, 0, false)) in c'.messages
  {
    hide Next, Leads, ValidConfig, Same, Blank;
    PeersOf(config, p);
    BlankMember(c, config, group, 1, p);
    StandWorks(c, config, p);
    var backers := group - {p} + {l};
    Backers(c, config, l, p, group);
    assert |group - {p}| == |group| - 1;
    StandLeads(true, c, config, p, backers);
    var c1 := Next(c, Stand(p));
    LaunchWorks(c1, config, p);
    LeadsToNext(true, c, c1, Launch(p));
    c' := Next(c1, Launch(p));
    round := |c1.rounds|;
    SameOn(c, c1, c', {p}, {}, {p});
    BlankRaised(c, c', config, group, p);
    assert VoteRequest(l, round, BuildVoteArgs(c'.nodes[p])) in c'.messages;
  }

  lemma Backers(c: Cluster, config: Config, l: Id, p: Id, group: set<Id>)
    requires Blank(c, config, group, 1) && Member(c, config, p) && Member(c, config, l) && c.nodes[l].log == FRESH_LOG
    ensures forall w :: w in group - {p} + {l} ==> WouldBack(c, w, BuildPreVoteArgs(c.nodes[p]))
  {
    BlankBacks(c, config, group, 1, p);
  }

  lemma BlankRaised(c: Cluster, c': Cluster, config: Config, group: set<Id>, p: Id)
    requires Blank(c, config, group, 1) && Same(c, c', {p}) && p in group
    requires Member(c', config, p) && c'.nodes[p].term <= 2 && c'.nodes[p].log == FRESH_LOG && c'.nodes[p].commitIndex == 0
    requires c'.nodes[p].role != Leader
    ensures Blank(c', config, group, 2)
  {
    BlankStays(c, c', config, group - {p}, 1, {p});
  }

  /** l stores an entry of term 1, then hears of term 2. */
  lemma Deposed(config: Config, c: Cluster, l: Id, p: Id, round: nat) returns (c': Cluster)
    requires Member(c, config, l) && c.nodes[l].role == Leader && Holds(c.nodes[l], 1, FRESH_LOG, 0)
    requires VoteRequest(l, round, VoteArgs(2, p, 0, 0, false)) in c.messages
    ensures Leads(true, c, c') && Same(c, c', {l})
    ensures Member(c', config, l) && c'.nodes[l].role == Follower && Holds(c'.nodes[l], 2, ONE, 0)
  {
    hide Next, Leads;
    SubmitWorks(c, config, l, Raw([]));
    LeadsBy(true, c, ClientSubmit(l, Raw([])));
    var c1 := Next(c, ClientSubmit(l, Raw([])));
    assert c1.nodes[l].log == ONE && LastTerm(ONE) == 1;
    var args := VoteArgs(2, p, 0, 0, false);
    HearsTerm(c1, config, l, round, args);
    LeadsToNext(true, c, c1, Deliver(VoteRequest(l, round, args)));
    c' := Next(c1, Deliver(VoteRequest(l, round, args)));
  }

  /** Term 3: l leads again and stores an entry of its own term. */
  lemma ThirdTerm(config: Config, c: Cluster, l: Id, p: Id, group: set<Id>) returns (c': Cluster)
    requires Cast(config, l, p, group) && Blank(c, config, group, 2)
    requires Member(c, config, l) && c.nodes[l].role == Follower && Holds(c.nodes[l], 2, ONE, 0)
    ensures Leads(true, c, c') && Spreading(c', config, l, 3, BOTH, group, {})
    ensures Member(c', config, l) && Index(c'.nodes[l].nextIndex, p) == 2 && c'.nodes[l].commitIndex == 0
  {
    hide Next, Leads, ValidConfig, Same, Blank, Spreading;
    var c1, round := ElectedByBlank(true, config, c, l, group, 2);
    var command := Encoded(Op("SET", "k", "v"));
    SubmitWorks(c1, config, l, command);
    LeadsToNext(true, c, c1, ClientSubmit(l, command));
    c' := Next(c1, ClientSubmit(l, command));
    BlankStays(c1, c', config, group, 3, {l});
    assert ONE + [SECOND] == BOTH;
    PeersOf(config, l);
    SpreadingStarts(c', config, l, 3, BOTH, group);
  }

  /** p rejects twice, then the whole group takes the log over; p learns that it is committed. */
  lemma Settles(config: Config, c: Cluster, l: Id, p: Id, group: set<Id>) returns (c': Cluster)
    requires Cast(config, l, p, group) && Spreading(c, config, l, 3, BOTH, group, {})
    requires Member(c, config, l) && Index(c.nodes[l].nextIndex, p) == 2 && c.nodes[l].commitIndex == 0
    ensures Leads(true, c, c') && Ready(c', config, l, p)
  {
    hide Next, Leads, ValidConfig, Same, Spreading;
    TodoFacts(c, config, l, 3, BOTH, group, {}, p);
    var c1 := RejectedTwice(true, c, config, l, p);
    RejectionIsLate(c.nodes[l], l, p);
    SpreadingBacked(c, c1, config, l, 3, BOTH, group, {}, p);
    var c2 := Spread(true, c1, config, l, 3, BOTH, group, {});
    LeadsOn(true, c, c1, c2);
    MessagesStay(c1, c2, group + {l}, Late(l, p));
    assert {} + group == group;
    AllCommitted(c2, config, l, p, group);
    c' := Notified(true, c2, config, l, 3, BOTH, group, p);
    LeadsOn(true, c, c2, c');
    MessagesStay(c2, c', {p}, Late(l, p));
    SameMember(c2, c', config, {p}, l);
  }

  lemma RejectionIsLate(x: Node, l: Id, p: Id)
    requires x.id == l && Holds(x, 3, BOTH, 0) && Index(x.nextIndex, p) == 2
    ensures !NeedsSnapshot(x, p) && Rejection(x, p) == Late(l, p)
  {
    assert Get(BOTH, 1) == FIRST;
    assert Slice(BOTH, 2, 3) == [SECOND];
  }

  lemma AllCommitted(c: Cluster, config: Config, l: Id, p: Id, group: set<Id>)
    requires Cast(config, l, p, group) && Spreading(c, config, l, 3, BOTH, {}, group)
    ensures Member(c, config, l) && Holds(c.nodes[l], 3, BOTH, 2) && c.nodes[l].role == Leader && p in config[l] && l != p
  {
    hide ValidConfig;
    PeersOf(config, l);
  }

  /** Such a cluster is reached in every membership of two or more, without a quorum check. */
  lemma Prepared(config: Config) returns (c: Cluster, l: Id, p: Id)
    requires ValidConfig(config) && |config.Keys| >= 2
    ensures Leads(true, Init(config), c) && Ready(c, config, l, p)
  {
    hide Next, Leads, ValidConfig, Same, Blank, Spreading, Ready, Init;
    l :| l in config;
    assert |config.Keys - {l}| == |config.Keys| - 1;
    var group := Pick(config.Keys - {l}, MajoritySize(|config.Keys|) - 1);
    assert group != {};
    p :| p in group;
    var c1 := FirstTerm(config, l, p, group);
    var c2, round := Elect(config, c1, l, p, group);
    LeadsOn(true, Init(config), c1, c2);
    c := Settles(config, c2, l, p, group);
    LeadsOn(true, Init(config), c2, c);
  }

  lemma Elect(config: Config, c: Cluster, l: Id, p: Id, group: set<Id>) returns (c': Cluster, round: nat)
    requires Cast(config, l, p, group) && Blank(c, config, group, 1) && p in c.nodes && c.nodes[p].term == 1
    requires Member(c, config, l) && c.nodes[l].role == Leader && Holds(c.nodes[l], 1, FRESH_LOG, 0)
    ensures Leads(true, c, c') && Spreading(c', config, l, 3, BOTH, group, {})
    ensures Member(c', config, l) && Index(c'.nodes[l].nextIndex, p) == 2 && c'.nodes[l].commitIndex == 0
  {
    hide Next, Leads, ValidConfig, Same, Blank, Spreading;
    BlankMember(c, config, group, 1, p);
    var c1;
    c1, round := Rival(config, c, l, p, group);
    SameMember(c, c1, config, {p}, l);
    var c2 := Deposed(config, c1, l, p, round);
    LeadsOn(true, c, c1, c2);
    BlankStays(c1, c2, config, group, 2, {l});
    c' := ThirdTerm(config, c2, l, p, group);
    LeadsOn(true, c, c2, c');
  }

  // ---------------------------------------------------------------- both poised to apply

  /** Nobody has applied anything yet. */
  ghost predicate Poised(s: System, l: Id, p: Id, x: Node, y: Node) {
    && l != p && At(s, l, x, Started(map[])) && At(s, p, y, Started(map[])) && Late(l, p) in s.cluster.messages
    && x.id == l && x.role == Leader && p in x.peers && Holds(x, 3, BOTH, 2) && x.lastApplied == 0
    && Holds(y, 3, BOTH, 2) && y.lastApplied == 0
  }

  lemma Poise(config: Config) returns (kit: seq<Action>, l: Id, p: Id, x: Node, y: Node)
    requires ValidConfig(config) && |config.Keys| >= 2
    ensures AllUsual(true, kit) && Poised(Session(config, kit), l, p, x, y)
  {
    hide Leads, ValidConfig, Session, AllUsual, Holds, Init;
    var c;
    c, l, p := Prepared(config);
    LeadsSelf(true, c);
    var first, more := SessionsOf(config, true, c, c);
    kit := first + more;
    NothingApplied(config, true, kit, l);
    NothingApplied(config, true, kit, p);
    x, y := c.nodes[l], c.nodes[p];
  }

  lemma SessionOn(config: Config, before: seq<Action>, after: seq<Action>)
    ensures Session(config, before + after) == Follow(Session(config, before), after)
  {
    hide Session, Follow;
    SessionIsFollow(config, before);
    SessionIsFollow(config, before + after);
    FollowOn(Begin(config), before, after);
  }

  // ---------------------------------------------------------------- an entry applied, bytes read

  lemma FirstCaught(s: System, l: Id, p: Id, x: Node, y: Node)
    requires Poised(s, l, p, x, y)
    ensures var s' := Follow(s, CaptureFirst(l));
            && At(s', l, x.(lastApplied := 1), Caught(FIRST)) && At(s', p, y, Started(map[]))
            && Late(l, p) in s'.cluster.messages
  {
    hide Follow, At;
    assert NextEntry(x) == FIRST;
    AtLog(s, l, x, Started(map[]));
    CapturesFirst(s, l, x);
    ApartAt(s, Follow(s, CaptureFirst(l)), l, p, y, Started(map[]));
  }

  // ---------------------------------------------------------------- restoring late

  /** l once it has taken its snapshot and turned back to the start for p. */
  function Compacted1(x: Node, p: Id): Node
    requires |x.log| > 0
  {
    var taken := TakeSnapshot(x.(lastApplied := 1), map[]);
    taken.(nextIndex := taken.nextIndex[p := 1])
  }

  function Sent(l: Id): SnapshotArgs {
    SnapshotArgs(3, l, 1, 1, map[])
  }

  lemma TakenFields(x: Node, l: Id, p: Id)
    requires x.id == l && Holds(x, 3, BOTH, 2) && x.role == Leader && p in x.peers
    ensures var z := Compacted1(x, p);
            && z.log == [Sentinel(1, 1), SECOND] && z.role == Leader && z.term == 3 && z.peers == x.peers && z.id == l
            && z.lastApplied == 1 && z.commitIndex == 2 && NeedsSnapshot(z, p) && BuildSnapshotArgs(z) == Sent(l)
            && NextEntry(z) == SECOND
  {
    assert Get(BOTH, 1) == FIRST;
    assert CompactTo(BOTH, 1, 1) == [Sentinel(1, 1), SECOND];
    assert Get([Sentinel(1, 1), SECOND], 2) == SECOND;
  }

  /** The late rejection makes l send p a snapshot of the first entry. */
  lemma SnapshotSent(s: System, l: Id, p: Id, x: Node, y: Node)
    requires l != p && At(s, l, x.(lastApplied := 1), Caught(FIRST)) && At(s, p, y, Started(map[]))
    requires Late(l, p) in s.cluster.messages && x.id == l && x.role == Leader && p in x.peers && Holds(x, 3, BOTH, 2)
    ensures var s' := Follow(Step(s, Compact(l)), [Core(Deliver(Late(l, p))), Core(Send(l, p))]);
            && At(s', l, Compacted1(x, p), Caught(FIRST).(captured := NoBytes)) && At(s', p, y, Started(map[]))
            && SnapshotRequest(p, Sent(l)) in s'.cluster.messages
  {
    hide Follow, Step, At, Apart, TakeSnapshot, NeedsSnapshot, BuildSnapshotArgs, NextEntry;
    var a := Caught(FIRST);
    Compacts(s, l, x.(lastApplied := 1), a);
    var s1 := Step(s, Compact(l));
    var taken := TakeSnapshot(x.(lastApplied := 1), map[]);
    TakenFields(x, l, p);
    StillUnderWay(s, s1, l, Late(l, p));
    ApartAt(s, s1, l, p, y, Started(map[]));
    BackedUp(s1, l, p, AppendArgs(3, l, 1, 1, [SECOND], 0), 1, taken, a.(captured := NoBytes));
    var s2 := Step(s1, Core(Deliver(Late(l, p))));
    ApartAt(s1, s2, l, p, y, Started(map[]));
    SendsSnapshot(s2, l, p, Compacted1(x, p), a.(captured := NoBytes));
    var s3 := Step(s2, Core(Send(l, p)));
    ApartAt(s2, s3, l, p, y, Started(map[]));
    FollowTwo(s1, Core(Deliver(Late(l, p))), Core(Send(l, p)));
  }

  lemma StillUnderWay(s: System, s': System, n: Id, m: Message)
    requires Apart(s, s', n) && m in s.cluster.messages
    ensures m in s'.cluster.messages
  {
  }

  /** p applies both entries before the snapshot comes, and restores it all the same. */
  function RestoreLast(l: Id, p: Id): seq<Action> {
    ApplyTwo(p) + [Core(Deliver(SnapshotRequest(p, Sent(l)))), Restore(p)]
  }

  lemma RolledBack(s: System, l: Id, p: Id, x: Node, y: Node, a: Applier)
    requires l != p && At(s, l, x, a) && At(s, p, y, Started(map[])) && SnapshotRequest(p, Sent(l)) in s.cluster.messages
    requires Holds(y, 3, BOTH, 2) && y.lastApplied == 0
    ensures var s' := Follow(s, RestoreLast(l, p));
            && At(s', l, x, a) && Live(s'.cluster, p) && s'.cluster.nodes[p].lastApplied == 2
            && Settled(ApplierOf(s', p)) && ApplierOf(s', p).store == map[]
  {
    hide Follow, Step, Apart, Live;
    assert NextEntry(y) == FIRST && NextEntry(TakeNext(y)) == SECOND;
    AppliesTwo(s, p, y);
    var s1 := Follow(s, ApplyTwo(p));
    var b := AfterEntry(AfterEntry(Started(map[]), FIRST), SECOND);
    ApartAt(s, s1, p, l, x, a);
    StillUnderWay(s, s1, p, SnapshotRequest(p, Sent(l)));
    var y2 := y.(lastApplied := 2);
    Installing(s1, p, Sent(l), y2, b);
    var s2 := Step(s1, Core(Deliver(SnapshotRequest(p, Sent(l)))));
    ApartAt(s1, s2, p, l, x, a);
    var y3 := HandleInstallSnapshot(y2, Sent(l)).0;
    Restores(s2, p, y3, b.(queued := Pending(1, map[])));
    var s3 := Step(s2, Restore(p));
    ApartAt(s2, s3, p, l, x, a);
    FollowTwo(s1, Core(Deliver(SnapshotRequest(p, Sent(l)))), Restore(p));
    FollowOn(s, ApplyTwo(p), [Core(Deliver(SnapshotRequest(p, Sent(l)))), Restore(p)]);
  }

  /** l applies the second entry as well. */
  lemma CatchesUp(s: System, l: Id, p: Id, x: Node, a: Applier)
    requires l != p && At(s, l, x, a) && a == Caught(FIRST).(captured := NoBytes)
    requires |x.log| > 0 && NextEntry(x) == SECOND && x.lastApplied == 1 && x.commitIndex == 2
    requires Live(s.cluster, p) && s.cluster.nodes[p].lastApplied == 2
    requires Settled(ApplierOf(s, p)) && ApplierOf(s, p).store == map[]
    ensures Diverged(Follow(s, [Take(l), Finish(l)]), l, p)
  {
    hide Follow, Step;
    Applies(s, l, x, a);
    ApartAt(s, Follow(s, [Take(l), Finish(l)]), l, p, s.cluster.nodes[p], ApplierOf(s, p));
    assert AfterEntry(a, SECOND).store == AFTER_BOTH;
    assert "k" in AFTER_BOTH;
  }

  /** Everything after the snapshot is taken. */
  function AfterCompaction(l: Id, p: Id): seq<Action> {
    [Core(Deliver(Late(l, p))), Core(Send(l, p))] + RestoreLast(l, p) + [Take(l), Finish(l)]
  }

  lemma RestoreDivergesFrom(s: System, l: Id, p: Id, x: Node, y: Node)
    requires Poised(s, l, p, x, y)
    ensures var s1 := Follow(s, CaptureFirst(l));
            && !CompactsLate(s1, l)
            && Diverged(Follow(Step(s1, Compact(l)), AfterCompaction(l, p)), l, p)
  {
    hide Follow, Step, Diverged, Compacted1, NextEntry, BuildSnapshotArgs, NeedsSnapshot;
    FirstCaught(s, l, p, x, y);
    var s1 := Follow(s, CaptureFirst(l));
    SnapshotSent(s1, l, p, x, y);
    var sent := [Core(Deliver(Late(l, p))), Core(Send(l, p))];
    var s2 := Step(s1, Compact(l));
    var s3 := Follow(s2, sent);
    TakenFields(x, l, p);
    var a := Caught(FIRST).(captured := NoBytes);
    RolledBack(s3, l, p, Compacted1(x, p), y, a);
    var s4 := Follow(s3, RestoreLast(l, p));
    CatchesUp(s4, l, p, Compacted1(x, p), a);
    FollowOn(s2, sent, RestoreLast(l, p));
    FollowOn(s2, sent + RestoreLast(l, p), [Take(l), Finish(l)]);
  }

  // ---------------------------------------------------------------- taking a snapshot late

  /** l applies the second entry before it hands over the bytes read after the first, restarts, and p applies both. */
  function CompactLate(l: Id, p: Id): seq<Action> {
    [Take(l), Finish(l)] + [Compact(l), Core(Crash(l))] + ApplyTwo(p)
  }

  lemma RestartFields(x: Node)
    requires Holds(x, 3, BOTH, 2)
    ensures var z := TakeSnapshot(x.(lastApplied := 2), map[]);
            Usable(z) && z.disk.snapshot == SnapshotFile(2, 3, map[]) && Reboot(z).lastApplied == 2
  {
    assert Get(BOTH, 2) == SECOND;
    assert CompactTo(BOTH, 2, 3) == [Sentinel(2, 3)];
  }

  /** The snapshot claims both entries and holds the map after one. */
  lemma Forgotten(s: System, l: Id, p: Id, x: Node, y: Node)
    requires l != p && At(s, l, x.(lastApplied := 1), Caught(FIRST)) && At(s, p, y, Started(map[])) && Holds(x, 3, BOTH, 2)
    ensures var s' := Follow(s, [Take(l), Finish(l)] + [Compact(l), Core(Crash(l))]);
            && Live(s'.cluster, l) && s'.cluster.nodes[l].lastApplied == 2 && ApplierOf(s', l) == Started(map[])
            && At(s', p, y, Started(map[]))
  {
    hide Follow, Step, Apart, Live, TakeSnapshot, Reboot;
    var a := Caught(FIRST);
    var x1 := x.(lastApplied := 1);
    assert NextEntry(x1) == SECOND;
    Applies(s, l, x1, a);
    var s1 := Follow(s, [Take(l), Finish(l)]);
    ApartAt(s, s1, l, p, y, Started(map[]));
    var x2, b := x.(lastApplied := 2), AfterEntry(a, SECOND);
    Compacts(s1, l, x2, b);
    var s2 := Step(s1, Compact(l));
    ApartAt(s1, s2, l, p, y, Started(map[]));
    RestartFields(x);
    Crashed(s2, l, TakeSnapshot(x2, map[]), b.(captured := NoBytes));
    var s3 := Step(s2, Core(Crash(l)));
    ApartAt(s2, s3, l, p, y, Started(map[]));
    FollowTwo(s1, Compact(l), Core(Crash(l)));
    FollowOn(s, [Take(l), Finish(l)], [Compact(l), Core(Crash(l))]);
  }

  lemma CaptureDivergesFrom(s: System, l: Id, p: Id, x: Node, y: Node)
    requires Poised(s, l, p, x, y)
    ensures Diverged(Follow(Follow(s, CaptureFirst(l)), CompactLate(l, p)), l, p)
  {
    hide Follow, Step, Apart;
    FirstCaught(s, l, p, x, y);
    var s1 := Follow(s, CaptureFirst(l));
    Forgotten(s1, l, p, x, y);
    var forgets := [Take(l), Finish(l)] + [Compact(l), Core(Crash(l))];
    var s2 := Follow(s1, forgets);
    assert NextEntry(y) == FIRST && NextEntry(TakeNext(y)) == SECOND;
    AppliesTwo(s2, p, y);
    var s3 := Follow(s2, ApplyTwo(p));
    ApartAt(s2, s3, p, l, s2.cluster.nodes[l], Started(map[]));
    FollowOn(s1, forgets, ApplyTwo(p));
    assert AfterEntry(AfterEntry(Started(map[]), FIRST), SECOND).store == AFTER_BOTH;
    assert "k" in AFTER_BOTH;
  }

  // ---------------------------------------------------------------- which orders the sessions keep

  ghost predicate NoCompaction(actions: seq<Action>) {
    forall i :: 0 <= i < |actions| ==> !actions[i].Compact? && !actions[i].CrashCompact?
  }

  ghost predicate NoRestore(actions: seq<Action>) {
    forall i :: 0 <= i < |actions| ==> !actions[i].Restore?
  }

  /** The one snapshot is taken in order. */
  lemma OneCompaction(config: Config, before: seq<Action>, n: Id, after: seq<Action>)
    requires NoCompaction(before) && NoCompaction(after) && !CompactsLate(Session(config, before), n)
    ensures CapturesInOrder(config, before + [Compact(n)] + after)
  {
    hide Session, CompactsLate;
    var all := before + [Compact(n)] + after;
    forall i | 0 <= i < |all| && i != |before|
      ensures !all[i].Compact? && !all[i].CrashCompact?
    {
      if i < |before| {
        assert all[i] == before[i];
      } else {
        assert all[i] == after[i - |before| - 1];
      }
    }
    assert all[..|before|] == before;
  }

  lemma UsualActions(actions: seq<Action>)
    requires AllUsual(true, actions)
    ensures Calm(actions) && NoCompaction(actions) && NoRestore(actions)
  {
  }

  lemma CalmOn(a: seq<Action>, b: seq<Action>)
    requires Calm(a) && Calm(b)
    ensures Calm(a + b)
  {
  }

  lemma TailActions(l: Id, p: Id)
    ensures NoCompaction(CaptureFirst(l)) && Calm(CaptureFirst(l)) && NoRestore(CaptureFirst(l))
    ensures NoCompaction(AfterCompaction(l, p)) && Calm([Compact(l)] + AfterCompaction(l, p))
    ensures NoRestore(CompactLate(l, p)) && Calm(CompactLate(l, p))
  {
  }

  /** Snapshots all taken in order, votes kept, and yet two replicas diverge. */
  lemma RestoreDiverges(config: Config) returns (actions: seq<Action>, a: Id, b: Id)
    requires ValidConfig(config) && |config.Keys| >= 2
    ensures VotesKept(config, Events(config, actions)) && CapturesInOrder(config, actions)
    ensures Diverged(Session(config, actions), a, b)
  {
    hide ValidConfig, Session, Follow, Step, Runs.VotesKept, Events, AllUsual, Calm, NoCompaction, NoRestore, CapturesInOrder,
         CompactsLate, Diverged, Poised, CaptureFirst, AfterCompaction, CompactLate;
    var kit, x, y;
    kit, a, b, x, y := Poise(config);
    RestoreDivergesFrom(Session(config, kit), a, b, x, y);
    var before, after := kit + CaptureFirst(a), AfterCompaction(a, b);
    SessionOn(config, kit, CaptureFirst(a));
    SessionOn(config, before, [Compact(a)]);
    FollowOne(Session(config, before), Compact(a));
    SessionOn(config, before + [Compact(a)], after);
    UsualActions(kit);
    TailActions(a, b);
    NoCompactionOn(kit, CaptureFirst(a));
    OneCompaction(config, before, a, after);
    actions := before + [Compact(a)] + after;
    CalmOn(kit, CaptureFirst(a));
    CalmOn(before, [Compact(a)] + after);
    assert before + ([Compact(a)] + after) == actions;
    CalmKeepsVotes(config, actions);
  }

  lemma NoCompactionOn(a: seq<Action>, b: seq<Action>)
    requires NoCompaction(a) && NoCompaction(b)
    ensures NoCompaction(a + b)
  {
  }

  /** Nothing restored from a queue, votes kept, and yet two replicas diverge. */
  lemma CaptureDiverges(config: Config) returns (actions: seq<Action>, a: Id, b: Id)
    requires ValidConfig(config) && |config.Keys| >= 2
    ensures VotesKept(config, Events(config, actions)) && RestoresInOrder(config, actions)
    ensures Diverged(Session(config, actions), a, b)
  {
    hide ValidConfig, Session, Follow, Step, Runs.VotesKept, Events, AllUsual, Calm, NoCompaction, NoRestore, RestoresInOrder,
         Diverged, Poised, CaptureFirst, AfterCompaction, CompactLate;
    var kit, x, y;
    kit, a, b, x, y := Poise(config);
    CaptureDivergesFrom(Session(config, kit), a, b, x, y);
    var before, after := kit + CaptureFirst(a), CompactLate(a, b);
    SessionOn(config, kit, CaptureFirst(a));
    SessionOn(config, before, after);
    UsualActions(kit);
    TailActions(a, b);
    actions := before + after;
    NothingRestored(config, kit, CaptureFirst(a), after);
    CalmOn(kit, CaptureFirst(a));
    CalmOn(before, after);
    CalmKeepsVotes(config, actions);
  }

  lemma NothingRestored(config: Config, a: seq<Action>, b: seq<Action>, c: seq<Action>)
    requires NoRestore(a) && NoRestore(b) && NoRestore(c)
    ensures RestoresInOrder(config, a + b + c)
  {
    hide Session, RestoresLate;
    var all := a + b + c;
    forall i | 0 <= i < |all|
      ensures !all[i].Restore?
    {
      if i < |a| {
        assert all[i] == a[i];
      } else if i < |a| + |b| {
        assert all[i] == b[i - |a|];
      } else {
        assert all[i] == c[i - |a| - |b|];
      }
    }
  }

  // ---------------------------------------------------------------- the exact condition

  /** In sessions that keep votes and both orders, replicas agree. */
  lemma BothOrdersAgree(config: Config, actions: seq<Action>, a: Id, b: Id)
    requires ValidConfig(config) && VotesKept(config, Events(config, actions))
    requires RestoresInOrder(config, actions) && CapturesInOrder(config, actions)
    ensures !Diverged(Session(config, actions), a, b)
  {
    hide ValidConfig, Session, Runs.VotesKept, RestoresLate, CompactsLate, Events;
    assert InOrder(config, actions);
    if Diverged(Session(config, actions), a, b) {
      assert actions + [] == actions;
      ReplicasAgree(config, actions, [], a, b);
    }
  }

  /** Replicas agree in every session that keeps votes and takes its snapshots in order. */
  ghost predicate AgreeWithoutRestoreOrder(config: Config) {
    forall actions, a, b :: VotesKept(config, Events(config, actions)) && CapturesInOrder(config, actions) ==>
      !Diverged(Session(config, actions), a, b)
  }

  /** Replicas agree in every session that keeps votes and restores in order. */
  ghost predicate AgreeWithoutCaptureOrder(config: Config) {
    forall actions, a, b :: VotesKept(config, Events(config, actions)) && RestoresInOrder(config, actions) ==>
      !Diverged(Session(config, actions), a, b)
  }

  /** Neither order can be done without, unless there is nobody to disagree with. */
  lemma BothOrdersNeededIff(config: Config)
    requires ValidConfig(config)
    ensures AgreeWithoutRestoreOrder(config) <==> |config.Keys| <= 1
    ensures AgreeWithoutCaptureOrder(config) <==> |config.Keys| <= 1
  {
    hide ValidConfig, Session, Runs.VotesKept, RestoresInOrder, CapturesInOrder, Events, Diverged;
    if |config.Keys| <= 1 {
      forall actions, a, b
        ensures !Diverged(Session(config, actions), a, b)
      {
        AloneAgrees(config, actions, a, b);
      }
    } else {
      var r, a, b := RestoreDiverges(config);
      assert !AgreeWithoutRestoreOrder(config);
      var c, d, e := CaptureDiverges(config);
      assert !AgreeWithoutCaptureOrder(config);
    }
  }

  lemma AloneAgrees(config: Config, actions: seq<Action>, a: Id, b: Id)
    requires |config.Keys| <= 1
    ensures !Diverged(Session(config, actions), a, b)
  {
    hide Session, Events, Run;
    SessionIsRun(config, actions);
    Recovery.RunNodes(config, Events(config, actions));
    if a in config.Keys && b in config.Keys {
      assert |config.Keys| == 1 by {
        assert |config.Keys - {a}| < |config.Keys|;
      }
      ElectionLimits.SingleMember(config, a, b);
    }
  }
}
