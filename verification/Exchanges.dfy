/** Replication at will: a leader exchanges messages with one peer, and brings its log to a majority. */
module Exchanges {
  import opened Entries
  import opened Logs
  import opened Quorums
  import opened Nodes
  import opened Cluster
  import opened Scenarios
  import opened CommitRule
  import opened Backtracking

  // ---------------------------------------------------------------- single events

  lemma SubmitWorks(c: Cluster, config: Config, n: Id, command: Command)
    requires Member(c, config, n) && c.nodes[n].role == Leader
    ensures var c' := Next(c, ClientSubmit(n, command));
            var x := c.nodes[n];
            && Same(c, c', {n}) && Member(c', config, n)
            && c'.nodes[n].log == x.log + [CommandEntry(x.term, LastIndex(x.log) + 1, command)]
            && c'.nodes[n] == x.(log := c'.nodes[n].log, disk := c'.nodes[n].disk)
  {
  }

  /** A vote request of a higher term that cannot be granted only teaches the term. */
  lemma HearsTerm(c: Cluster, config: Config, n: Id, round: nat, args: VoteArgs)
    requires Member(c, config, n) && VoteRequest(n, round, args) in c.messages
    requires args.term > c.nodes[n].term && !args.isPreVote && !UpToDate(args, c.nodes[n].log)
    ensures var c' := Next(c, Deliver(VoteRequest(n, round, args)));
            && Same(c, c', {n}) && Member(c', config, n) && c'.nodes[n] == BecomeFollower(c.nodes[n], args.term)
  {
    assert Receiver(VoteRequest(n, round, args)) == n && Live(c, n);
  }

  lemma SendWorks(c: Cluster, config: Config, n: Id, p: Id)
    requires Member(c, config, n) && c.nodes[n].role == Leader && p in config[n] && !NeedsSnapshot(c.nodes[n], p)
    ensures var c' := Next(c, Send(n, p));
            Same(c, c', {}) && c'.nodes == c.nodes && AppendRequest(p, BuildArgs(c.nodes[n], p)) in c'.messages
  {
    hide BuildArgs;
  }

  lemma RequestWorks(c: Cluster, config: Config, p: Id, args: AppendArgs)
    requires Member(c, config, p) && AppendRequest(p, args) in c.messages
    ensures var c' := Next(c, Deliver(AppendRequest(p, args)));
            var (x, reply) := HandleAppendEntries(c.nodes[p], args);
            Same(c, c', {p}) && Member(c', config, p) && c'.nodes[p] == x && AppendAnswer(p, args, reply) in c'.messages
  {
    hide HandleAppendEntries;
    assert Receiver(AppendRequest(p, args)) == p && Live(c, p);
    HandlerKeeps(c.nodes[p], args);
  }

  lemma HandlerKeeps(x: Node, args: AppendArgs)
    requires |x.log| > 0 && |x.disk.entries| > 0
    ensures var x' := HandleAppendEntries(x, args).0;
            x'.id == x.id && x'.peers == x.peers && |x'.log| > 0 && |x'.disk.entries| > 0
  {
    hide AppendLoop, Get, FirstIndexForTerm, LastIndex;
    var m :=
      if args.term > x.term then BecomeFollower(x, args.term)
      else if args.term == x.term && x.role == Candidate then x.(role := Follower)
      else x;
    assert m.id == x.id && m.peers == x.peers && |m.log| > 0 && |m.disk.entries| > 0;
    var (x', reply) := HandleAppendEntries(x, args);
    if reply.success {
      assert x'.disk.entries == x'.log == AppendLoop(m.log, args.entries);
    } else {
      assert x' == m || x' == m.(leaderId := args.leader);
    }
  }

  lemma AnswerWorks(c: Cluster, config: Config, n: Id, from: Id, args: AppendArgs, reply: AppendReply)
    requires Member(c, config, n) && AppendAnswer(from, args, reply) in c.messages && args.leader == n
    ensures var c' := Next(c, Deliver(AppendAnswer(from, args, reply)));
            && Same(c, c', {n}) && Member(c', config, n)
            && c'.nodes[n] == ReceiveAppendReply(c.nodes[n], from, args.term, args, reply)
  {
    hide BackUp, QuorumIndex, Holders;
    assert Receiver(AppendAnswer(from, args, reply)) == n && Live(c, n);
  }

  lemma MessagesStay(c: Cluster, c': Cluster, except: set<Id>, m: Message)
    requires Same(c, c', except) && m in c.messages
    ensures m in c'.messages
  {
  }

  lemma SameSelf(c: Cluster, except: set<Id>)
    ensures Same(c, c, except)
  {
  }

  /** A leader sends to a peer, the peer answers and the answer arrives. */
  lemma Exchange(calm: bool, c: Cluster, config: Config, n: Id, p: Id) returns (c': Cluster)
    requires Member(c, config, n) && c.nodes[n].role == Leader && p in config[n] && p != n
    requires Member(c, config, p) && !NeedsSnapshot(c.nodes[n], p)
    ensures Leads(calm, c, c') && Same(c, c', {n, p}) && Member(c', config, n) && Member(c', config, p)
    ensures c'.nodes[n] == Backtracking.Round(c.nodes[n], c.nodes[p], p).0
    ensures c'.nodes[p] == Backtracking.Round(c.nodes[n], c.nodes[p], p).1
  {
    hide Next, Leads, HandleAppendEntries, ReceiveAppendReply;
    var args := BuildArgs(c.nodes[n], p);
    var reply := HandleAppendEntries(c.nodes[p], args).1;
    SendWorks(c, config, n, p);
    LeadsBy(calm, c, Send(n, p));
    var c1 := Next(c, Send(n, p));
    RequestWorks(c1, config, p, args);
    LeadsToNext(calm, c, c1, Deliver(AppendRequest(p, args)));
    var c2 := Next(c1, Deliver(AppendRequest(p, args)));
    AnswerWorks(c2, config, n, p, args, reply);
    LeadsToNext(calm, c, c2, Deliver(AppendAnswer(p, args, reply)));
    c' := Next(c2, Deliver(AppendAnswer(p, args, reply)));
  }

  // ---------------------------------------------------------------- a peer with an empty log

  /** An uncompacted log that ends in an entry of the term. */
  ghost predicate EndsIn(log: seq<LogEntry>, term: nat) {
    && |log| >= 2 && log[0] == Sentinel(0, 0) && log[|log| - 1].term == term
    && forall i :: 1 <= i < |log| ==> log[i].index == i && log[i].term >= 1
  }

  /** How a peer with an empty log answers the first message of a leader that has one entry or more. */
  function Rejection(l: Node, p: Id): Message
    requires |l.log| > 0 && !NeedsSnapshot(l, p)
  {
    AppendAnswer(p, BuildArgs(l, p), AppendReply(l.term, false, 0, 1))
  }

  /** A leader whose first message to the peer will be rejected, and the peer. */
  ghost predicate Refused(l: Node, v: Node, p: Id) {
    && l.role == Leader && |l.log| >= 2 && l.log[0] == Sentinel(0, 0) && l.log[1].term >= 1
    && v.log == FRESH_LOG && v.term <= l.term && Index(l.nextIndex, p) == 2
  }

  lemma EmptyLogRejects(l: Node, v: Node, p: Id)
    requires Refused(l, v, p)
    ensures !NeedsSnapshot(l, p)
    ensures var (v', reply) := HandleAppendEntries(v, BuildArgs(l, p));
            && reply == AppendReply(l.term, false, 0, 1)
            && v'.log == FRESH_LOG && v'.term == l.term && v'.commitIndex == v.commitIndex
            && (v.role != Leader ==> v'.role != Leader)
    ensures ReceiveAppendReply(l, p, l.term, BuildArgs(l, p), AppendReply(l.term, false, 0, 1)) ==
            l.(nextIndex := l.nextIndex[p := 1])
  {
    var args := BuildArgs(l, p);
    assert args.prevIndex == 1 && args.term == l.term;
    assert Get(FRESH_LOG, 1).term == 0;
  }

  /** The first message is rejected and sends nextIndex back to 1. */
  lemma FirstRejected(calm: bool, c: Cluster, config: Config, n: Id, p: Id) returns (c': Cluster)
    requires Member(c, config, n) && Member(c, config, p) && p in config[n] && p != n && Refused(c.nodes[n], c.nodes[p], p)
    ensures !NeedsSnapshot(c.nodes[n], p)
    ensures Leads(calm, c, c') && Same(c, c', {n, p}) && Member(c', config, n) && Member(c', config, p)
    ensures c'.nodes[n] == c.nodes[n].(nextIndex := c.nodes[n].nextIndex[p := 1])
    ensures c'.nodes[p].log == FRESH_LOG && c'.nodes[p].term == c.nodes[n].term && c'.nodes[p].commitIndex == c.nodes[p].commitIndex
    ensures c.nodes[p].role != Leader ==> c'.nodes[p].role != Leader
  {
    hide Next, Leads, HandleAppendEntries, ReceiveAppendReply;
    EmptyLogRejects(c.nodes[n], c.nodes[p], p);
    c' := Exchange(calm, c, config, n, p);
  }

  /** Two ticks ask the same before the first answer comes, so a second rejection stays under way. */
  lemma RejectedTwice(calm: bool, c: Cluster, config: Config, n: Id, p: Id) returns (c': Cluster)
    requires Member(c, config, n) && Member(c, config, p) && p in config[n] && p != n && Refused(c.nodes[n], c.nodes[p], p)
    ensures !NeedsSnapshot(c.nodes[n], p)
    ensures Leads(calm, c, c') && Same(c, c', {n, p}) && Member(c', config, n) && Member(c', config, p)
    ensures c'.nodes[n] == c.nodes[n].(nextIndex := c.nodes[n].nextIndex[p := 1])
    ensures c'.nodes[p].log == FRESH_LOG && c'.nodes[p].term == c.nodes[n].term && c'.nodes[p].commitIndex == c.nodes[p].commitIndex
    ensures c.nodes[p].role != Leader ==> c'.nodes[p].role != Leader
    ensures Rejection(c.nodes[n], p) in c'.messages
  {
    hide Next, Leads, HandleAppendEntries, ReceiveAppendReply, BuildArgs;
    var l := c.nodes[n];
    EmptyLogRejects(l, c.nodes[p], p);
    var args := BuildArgs(l, p);
    SendWorks(c, config, n, p);
    LeadsBy(calm, c, Send(n, p));
    var c1 := Next(c, Send(n, p));
    SendWorks(c1, config, n, p);
    LeadsToNext(calm, c, c1, Send(n, p));
    var c2 := Next(c1, Send(n, p));
    RequestWorks(c2, config, p, args);
    LeadsToNext(calm, c, c2, Deliver(AppendRequest(p, args)));
    var c3 := Next(c2, Deliver(AppendRequest(p, args)));
    EmptyLogRejects(l, c3.nodes[p], p);
    RequestWorks(c3, config, p, args);
    LeadsToNext(calm, c, c3, Deliver(AppendRequest(p, args)));
    var c4 := Next(c3, Deliver(AppendRequest(p, args)));
    AnswerWorks(c4, config, n, p, args, AppendReply(l.term, false, 0, 1)) by {
      BuiltBy(l, p);
    }
    LeadsToNext(calm, c, c4, Deliver(Rejection(l, p)));
    c' := Next(c4, Deliver(Rejection(l, p)));
    BuiltBy(l, p);
  }

  lemma BuiltBy(l: Node, p: Id)
    requires |l.log| > 0 && !NeedsSnapshot(l, p)
    ensures BuildArgs(l, p).leader == l.id && BuildArgs(l, p).term == l.term
  {
  }

  /** The leader after the peer's acknowledgement of the whole log, before it counts. */
  function Acknowledged(l: Node, p: Id): Node
    requires |l.log| > 0
  {
    l.(matchIndex := l.matchIndex[p := |l.log| - 1], nextIndex := l.nextIndex[p := |l.log|])
  }

  /** The message from the start brings the whole log. */
  lemma WholeLogAccepted(l: Node, v: Node, p: Id)
    requires l.role == Leader && EndsIn(l.log, l.term) && v.log == FRESH_LOG && v.term <= l.term
    requires Index(l.nextIndex, p) == 1 && Index(l.matchIndex, p) == 0
    ensures !NeedsSnapshot(l, p)
    ensures var (l', v', _) := Backtracking.Round(l, v, p);
            && l' == MaybeCommit(Acknowledged(l, p))
            && v'.log == l.log && v'.term == l.term
            && v'.commitIndex <= (if l.commitIndex > v.commitIndex then l.commitIndex else v.commitIndex)
  {
    hide MaybeCommit;
    var args := BuildArgs(l, p);
    assert args == AppendArgs(l.term, l.id, 0, 0, l.log[1..], l.commitIndex);
    assert l.log[1..][0] == l.log[1];
    assert AppendLoop(FRESH_LOG, l.log[1..]) == FRESH_LOG + l.log[1..];
    assert FRESH_LOG + l.log[1..] == l.log;
    var (v', reply) := HandleAppendEntries(v, args);
    assert reply == AppendReply(l.term, true, 0, 0);
  }

  /** A heartbeat tells an up-to-date follower what is committed. */
  lemma HeartbeatCommits(v: Node, leader: Id, term: nat)
    requires EndsIn(v.log, term) && v.term == term && v.commitIndex <= |v.log| - 1
    ensures var (v', _) := HandleAppendEntries(v, AppendArgs(term, leader, |v.log| - 1, term, [], |v.log| - 1));
            v'.log == v.log && v'.term == term && v'.commitIndex == |v.log| - 1
  {
    assert Get(v.log, |v.log| - 1) == v.log[|v.log| - 1];
  }

  // ---------------------------------------------------------------- replication to a majority

  /** A follower with an empty log, and one that holds everything. */
  ghost predicate Behind(c: Cluster, config: Config, b: Id, p: Id)
    requires b in c.nodes
  {
    && p != b && Member(c, config, p) && c.nodes[p].log == FRESH_LOG && c.nodes[p].term <= c.nodes[b].term
    && c.nodes[p].commitIndex == 0
    && 1 <= Index(c.nodes[b].nextIndex, p) <= 2 && Index(c.nodes[b].matchIndex, p) == 0
  }

  ghost predicate Abreast(c: Cluster, config: Config, b: Id, p: Id)
    requires b in c.nodes
  {
    && p != b && Member(c, config, p) && c.nodes[p].log == c.nodes[b].log && c.nodes[p].term == c.nodes[b].term
    && c.nodes[p].commitIndex < |c.nodes[b].log|
    && Index(c.nodes[b].nextIndex, p) == |c.nodes[b].log| && Index(c.nodes[b].matchIndex, p) == |c.nodes[b].log| - 1
  }

  /** The leader with its own log, none of it known committed beyond the end. */
  ghost predicate Leading(l: Node, term: nat, log: seq<LogEntry>) {
    l.role == Leader && l.term == term && l.log == log && EndsIn(log, term) && l.commitIndex < |log|
  }

  /** b has brought `done` into step and will bring `todo`. */
  ghost predicate Spreading(c: Cluster, config: Config, b: Id, term: nat, log: seq<LogEntry>, todo: set<Id>, done: set<Id>) {
    && Member(c, config, b) && Leading(c.nodes[b], term, log)
    && var l := c.nodes[b];
       && (forall p :: p in todo + done ==> p in config[b])
       && (forall p :: p in todo ==> Behind(c, config, b, p))
       && (forall p :: p in done ==> Abreast(c, config, b, p))
       && (forall p :: p in config[b] ==> Index(l.matchIndex, p) < |log|)
       && (done != {} && 1 + |done| >= MajoritySize(|config[b]| + 1) ==> l.commitIndex == |log| - 1)
  }

  lemma CommitsLast(l: Node, done: set<Id>)
    requires EndsIn(l.log, l.term) && l.commitIndex < |l.log|
    requires forall i, j :: 0 <= i < j < |l.peers| ==> l.peers[i] != l.peers[j]
    requires forall p :: p in done ==> p in l.peers && Index(l.matchIndex, p) == |l.log| - 1
    requires forall p :: p in l.peers ==> Index(l.matchIndex, p) < |l.log|
    ensures MaybeCommit(l).commitIndex < |l.log|
    ensures 1 + |done| >= Majority(l) ==> MaybeCommit(l).commitIndex == |l.log| - 1
  {
    hide QuorumIndex, CountAtLeast, Reached;
    var last := |l.log| - 1;
    assert LastIndex(l.log) == last && Get(l.log, last) == l.log[last];
    QuorumIndexIsGreatest(l, last);
    QuorumIndexIsGreatest(l, last + 1);
    CountProgress(l, last);
    DoneReached(l.peers, l.matchIndex, done, last);
    CountBounded(Progress(l), last + 1);
    assert forall i :: 0 <= i < |Progress(l)| ==> Progress(l)[i] < last + 1;
  }

  lemma DoneReached(peers: seq<Id>, matchIndex: map<Id, nat>, done: set<Id>, last: nat)
    requires forall p :: p in done ==> p in peers && Index(matchIndex, p) == last
    ensures |Reached(peers, matchIndex, last)| >= |done|
  {
    SubsetSize(done, Reached(peers, matchIndex, last));
  }

  /** The leader treats this peer as before. */
  ghost predicate SameNext(c: Cluster, c': Cluster, b: Id, q: Id) {
    b in c.nodes && b in c'.nodes && Index(c'.nodes[b].nextIndex, q) == Index(c.nodes[b].nextIndex, q)
  }

  lemma SameNextOn(c: Cluster, c1: Cluster, c': Cluster, b: Id, p: Id, todo: set<Id>)
    requires p in todo && forall q :: q != p ==> SameNext(c, c1, b, q)
    requires forall q :: q !in todo - {p} ==> SameNext(c1, c', b, q)
    ensures forall q :: q !in todo ==> SameNext(c, c', b, q)
  {
    forall q | q !in todo
      ensures SameNext(c, c', b, q)
    {
      assert SameNext(c, c1, b, q) && SameNext(c1, c', b, q);
    }
  }

  lemma {:induction false} Spread(calm: bool, c: Cluster, config: Config, b: Id, term: nat, log: seq<LogEntry>,
        todo: set<Id>, done: set<Id>) returns (c': Cluster)
    requires ValidConfig(config) && Spreading(c, config, b, term, log, todo, done) && todo !! done
    ensures Leads(calm, c, c') && Same(c, c', todo + {b}) && Spreading(c', config, b, term, log, {}, done + todo)
    ensures forall q :: q !in todo ==> SameNext(c, c', b, q)
    decreases |todo|
  {
    hide Next, Leads, ValidConfig, Spreading, Same, SameNext;
    if todo == {} {
      c' := c;
      LeadsSelf(calm, c);
      SameSelf(c, todo + {b});
      SameNextSelf(c, config, b, term, log, todo, done);
      assert done + todo == done;
    } else {
      var p :| p in todo;
      var rest := todo - {p};
      SplitOff(todo, done, b, p);
      var c1 := SpreadOne(calm, c, config, b, term, log, todo, done, p);
      c' := Spread(calm, c1, config, b, term, log, rest, done + {p});
      LeadsOn(calm, c, c1, c');
      SameOn(c, c1, c', {b, p}, rest + {b}, todo + {b});
      SameNextOn(c, c1, c', b, p, todo);
    }
  }

  lemma SplitOff(todo: set<Id>, done: set<Id>, b: Id, p: Id)
    requires p in todo && todo !! done
    ensures |todo - {p}| < |todo| && (todo - {p}) !! (done + {p})
    ensures {b, p} <= todo + {b} && todo - {p} + {b} <= todo + {b}
    ensures done + {p} + (todo - {p}) == done + todo
  {
    assert |todo - {p}| == |todo| - 1;
  }

  lemma SpreadOne(calm: bool, c: Cluster, config: Config, b: Id, term: nat, log: seq<LogEntry>,
        todo: set<Id>, done: set<Id>, p: Id) returns (c': Cluster)
    requires ValidConfig(config) && Spreading(c, config, b, term, log, todo, done) && todo !! done && p in todo
    ensures Leads(calm, c, c') && Same(c, c', {b, p}) && Spreading(c', config, b, term, log, todo - {p}, done + {p})
    ensures forall q :: q != p ==> SameNext(c, c', b, q)
  {
    hide Next, Leads, ValidConfig, Spreading, Same;
    TodoFacts(c, config, b, term, log, todo, done, p);
    var c1 := c;
    LeadsSelf(calm, c);
    SameSelf(c, {b, p});
    if Index(c.nodes[b].nextIndex, p) == 2 {
      c1 := FirstRejected(calm, c, config, b, p);
      SpreadingBacked(c, c1, config, b, term, log, todo, done, p);
    }
    c' := SpreadDirect(calm, c1, config, b, term, log, todo, done, p);
    LeadsOn(calm, c, c1, c');
    SameOn(c, c1, c', {b, p}, {b, p}, {b, p});
    forall q | q != p
      ensures SameNext(c, c', b, q)
    {
      assert SameNext(c, c1, b, q) && SameNext(c1, c', b, q);
    }
  }

  lemma SameNextSelf(c: Cluster, config: Config, b: Id, term: nat, log: seq<LogEntry>, todo: set<Id>, done: set<Id>)
    requires Spreading(c, config, b, term, log, todo, done)
    ensures forall q :: SameNext(c, c, b, q)
  {
  }

  lemma TodoFacts(c: Cluster, config: Config, b: Id, term: nat, log: seq<LogEntry>, todo: set<Id>, done: set<Id>, p: Id)
    requires Spreading(c, config, b, term, log, todo, done) && p in todo
    ensures Member(c, config, b) && Leading(c.nodes[b], term, log) && p in config[b] && Behind(c, config, b, p)
    ensures Index(c.nodes[b].nextIndex, p) == 2 ==> Refused(c.nodes[b], c.nodes[p], p)
  {
    assert p in todo + done;
  }

  /** The first rejection changes nothing that matters. */
  lemma SpreadingBacked(c: Cluster, c': Cluster, config: Config, b: Id, term: nat, log: seq<LogEntry>, todo: set<Id>,
        done: set<Id>, p: Id)
    requires Spreading(c, config, b, term, log, todo, done) && todo !! done && p in todo
    requires Same(c, c', {b, p}) && Member(c', config, b) && Member(c', config, p)
    requires c'.nodes[b] == c.nodes[b].(nextIndex := c.nodes[b].nextIndex[p := 1])
    requires c'.nodes[p].log == FRESH_LOG && c'.nodes[p].term == term && c'.nodes[p].commitIndex == 0
    ensures Spreading(c', config, b, term, log, todo, done) && Index(c'.nodes[b].nextIndex, p) == 1
  {
    assert Behind(c, config, b, p);
    forall q | q in todo
      ensures Behind(c', config, b, q)
    {
      assert Behind(c, config, b, q);
    }
    forall q | q in done
      ensures Abreast(c', config, b, q)
    {
      assert Abreast(c, config, b, q);
    }
  }

  lemma SpreadDirect(calm: bool, c: Cluster, config: Config, b: Id, term: nat, log: seq<LogEntry>,
        todo: set<Id>, done: set<Id>, p: Id) returns (c': Cluster)
    requires ValidConfig(config) && Spreading(c, config, b, term, log, todo, done) && todo !! done && p in todo
    requires b in c.nodes && Index(c.nodes[b].nextIndex, p) == 1
    ensures Leads(calm, c, c') && Same(c, c', {b, p}) && Spreading(c', config, b, term, log, todo - {p}, done + {p})
    ensures forall q :: q != p ==> SameNext(c, c', b, q)
  {
    hide Next, Leads, Backtracking.Round, MaybeCommit, ValidConfig, Spreading, Same, EndsIn;
    TodoFacts(c, config, b, term, log, todo, done, p);
    WholeLogAccepted(c.nodes[b], c.nodes[p], p);
    c' := Exchange(calm, c, config, b, p);
    StillSpreading(c, c', config, b, term, log, todo, done, p);
    CountedKeeps(Acknowledged(c.nodes[b], p));
  }

  lemma CountedKeeps(l: Node)
    requires |l.log| > 0
    ensures MaybeCommit(l) == l.(commitIndex := MaybeCommit(l).commitIndex)
  {
  }

  lemma OthersStay(c: Cluster, c': Cluster, config: Config, b: Id, p: Id, q: Id)
    requires b in c.nodes && b in c'.nodes && |c.nodes[b].log| > 0 && q != p
    requires Same(c, c', {b, p}) && c'.nodes[b] == MaybeCommit(Acknowledged(c.nodes[b], p))
    ensures Behind(c, config, b, q) ==> Behind(c', config, b, q)
    ensures Abreast(c, config, b, q) ==> Abreast(c', config, b, q)
  {
    hide MaybeCommit;
    CountedKeeps(Acknowledged(c.nodes[b], p));
  }

  lemma AllStay(c: Cluster, c': Cluster, config: Config, b: Id, p: Id, group: set<Id>)
    requires b in c.nodes && b in c'.nodes && |c.nodes[b].log| > 0 && p !in group
    requires Same(c, c', {b, p}) && c'.nodes[b] == MaybeCommit(Acknowledged(c.nodes[b], p))
    ensures (forall q :: q in group ==> Behind(c, config, b, q)) ==> forall q :: q in group ==> Behind(c', config, b, q)
    ensures (forall q :: q in group ==> Abreast(c, config, b, q)) ==> forall q :: q in group ==> Abreast(c', config, b, q)
  {
    hide MaybeCommit, Same, Behind, Abreast, Acknowledged;
    forall q | q in group
      ensures Behind(c, config, b, q) ==> Behind(c', config, b, q)
      ensures Abreast(c, config, b, q) ==> Abreast(c', config, b, q)
    {
      OthersStay(c, c', config, b, p, q);
    }
  }

  lemma StillSpreading(c: Cluster, c': Cluster, config: Config, b: Id, term: nat, log: seq<LogEntry>, todo: set<Id>,
        done: set<Id>, p: Id)
    requires ValidConfig(config) && Spreading(c, config, b, term, log, todo, done) && todo !! done && p in todo
    requires Same(c, c', {b, p}) && Member(c', config, b) && Member(c', config, p)
    requires c'.nodes[b] == MaybeCommit(Acknowledged(c.nodes[b], p))
    requires c'.nodes[p].log == log && c'.nodes[p].term == term && c'.nodes[p].commitIndex < |log|
    ensures Spreading(c', config, b, term, log, todo - {p}, done + {p})
  {
    hide MaybeCommit, Same, Behind, Abreast, ValidConfig, Acknowledged, EndsIn;
    AcknowledgedKeeps(c.nodes[b], p);
    CountedKeeps(Acknowledged(c.nodes[b], p));
    AllStay(c, c', config, b, p, todo - {p});
    AllStay(c, c', config, b, p, done);
    assert Behind(c, config, b, p);
    assert todo - {p} + (done + {p}) == todo + done;
    NowAbreast(c, c', config, b, p);
    NowCommits(c, config, b, term, log, todo, done, p);
  }

  lemma AcknowledgedKeeps(l: Node, p: Id)
    requires |l.log| > 0
    ensures Acknowledged(l, p) == l.(matchIndex := Acknowledged(l, p).matchIndex, nextIndex := Acknowledged(l, p).nextIndex)
  {
  }

  lemma NowAbreast(c: Cluster, c': Cluster, config: Config, b: Id, p: Id)
    requires b in c.nodes && b in c'.nodes && |c.nodes[b].log| > 0 && Behind(c, config, b, p) && Member(c', config, p)
    requires c'.nodes[b] == MaybeCommit(Acknowledged(c.nodes[b], p))
    requires c'.nodes[p].log == c.nodes[b].log && c'.nodes[p].term == c.nodes[b].term
    requires c'.nodes[p].commitIndex < |c.nodes[b].log|
    ensures Abreast(c', config, b, p)
  {
    hide MaybeCommit;
    CountedKeeps(Acknowledged(c.nodes[b], p));
  }

  lemma NowCommits(c: Cluster, config: Config, b: Id, term: nat, log: seq<LogEntry>, todo: set<Id>, done: set<Id>, p: Id)
    requires ValidConfig(config) && Spreading(c, config, b, term, log, todo, done) && p in todo
    ensures var l := Acknowledged(c.nodes[b], p);
            && MaybeCommit(l).commitIndex < |log|
            && (1 + |done + {p}| >= MajoritySize(|config[b]| + 1) ==> MaybeCommit(l).commitIndex == |log| - 1)
            && forall q :: q in config[b] ==> Index(l.matchIndex, q) < |log|
  {
    hide MaybeCommit, EndsIn, Spreading, Member, ValidConfig;
    SpreadFacts(c, config, b, term, log, todo, done);
    var l := Acknowledged(c.nodes[b], p);
    TodoFacts(c, config, b, term, log, todo, done, p);
    CommitsLast(l, done + {p});
  }

  lemma SpreadFacts(c: Cluster, config: Config, b: Id, term: nat, log: seq<LogEntry>, todo: set<Id>, done: set<Id>)
    requires ValidConfig(config) && Spreading(c, config, b, term, log, todo, done)
    ensures b in c.nodes && b in config && |c.nodes[b].log| > 0 && c.nodes[b].peers == config[b] && Distinct(config[b])
    ensures forall q :: q in config[b] ==> Index(c.nodes[b].matchIndex, q) < |log|
    ensures forall q :: q in done ==> q in config[b] && Index(c.nodes[b].matchIndex, q) == |log| - 1
  {
    forall q | q in done
      ensures q in config[b] && Index(c.nodes[b].matchIndex, q) == |log| - 1
    {
      assert q in todo + done && Abreast(c, config, b, q);
    }
  }

  /** b has committed its log and tells v. */
  lemma Notified(calm: bool, c: Cluster, config: Config, b: Id, term: nat, log: seq<LogEntry>, done: set<Id>,
        v: Id) returns (c': Cluster)
    requires Spreading(c, config, b, term, log, {}, done) && v in done && c.nodes[b].commitIndex == |log| - 1
    ensures Leads(calm, c, c') && Same(c, c', {v}) && Member(c', config, v)
    ensures c'.nodes[v].log == log && c'.nodes[v].term == term && c'.nodes[v].commitIndex == |log| - 1
  {
    hide Next, Leads, HandleAppendEntries;
    assert Abreast(c, config, b, v) && v in {} + done;
    var last := |log| - 1;
    var notice := AppendArgs(term, b, last, term, [], last);
    assert Get(log, last) == log[last];
    assert BuildArgs(c.nodes[b], v) == notice;
    SendWorks(c, config, b, v);
    LeadsBy(calm, c, Send(b, v));
    var c1 := Next(c, Send(b, v));
    RequestWorks(c1, config, v, notice);
    LeadsToNext(calm, c, c1, Deliver(AppendRequest(v, notice)));
    c' := Next(c1, Deliver(AppendRequest(v, notice)));
    HeartbeatCommits(c.nodes[v], b, term);
  }

  // ---------------------------------------------------------------- elections by nodes that store nothing

  /** Members of the term or an earlier one that store nothing. */
  ghost predicate Blank(c: Cluster, config: Config, group: set<Id>, term: nat) {
    forall v :: v in group ==>
      Member(c, config, v) && c.nodes[v].term <= term && c.nodes[v].log == FRESH_LOG && c.nodes[v].commitIndex == 0
      && c.nodes[v].role != Leader
  }

  lemma BlankGrants(c: Cluster, config: Config, group: set<Id>, term: nat, n: Id)
    requires Blank(c, config, group, term) && Member(c, config, n) && c.nodes[n].term >= term
    ensures forall w :: w in group ==> Willing(c, config, w, NextArgs(c.nodes[n]))
  {
  }

  /** Those who store nothing back the probe of anyone. */
  lemma BlankBacks(c: Cluster, config: Config, group: set<Id>, term: nat, n: Id)
    requires Blank(c, config, group, term) && Member(c, config, n)
    ensures forall w :: w in group ==> WouldBack(c, w, BuildPreVoteArgs(c.nodes[n]))
  {
  }

  lemma VotedBlank(c: Cluster, c': Cluster, config: Config, group: set<Id>, before: nat, term: nat)
    requires Blank(c, config, group, before)
    requires forall w :: w in group ==> HasVoted(c, c', config, w, term)
    ensures Blank(c', config, group, term) && forall w :: w in group ==> w in c'.nodes && c'.nodes[w].term == term
  {
  }

  lemma BlankMember(c: Cluster, config: Config, group: set<Id>, term: nat, v: Id)
    requires Blank(c, config, group, term) && v in group
    ensures Member(c, config, v) && c.nodes[v].term <= term && c.nodes[v].log == FRESH_LOG && c.nodes[v].commitIndex == 0
            && c.nodes[v].role != Leader
  {
  }

  lemma BlankPart(c: Cluster, config: Config, group: set<Id>, part: set<Id>, term: nat)
    requires Blank(c, config, group, term) && part <= group
    ensures Blank(c, config, part, term)
  {
  }

  lemma BlankStays(c: Cluster, c': Cluster, config: Config, group: set<Id>, term: nat, except: set<Id>)
    requires Blank(c, config, group, term) && Same(c, c', except) && group !! except
    ensures Blank(c', config, group, term)
  {
    forall v | v in group
      ensures Member(c', config, v) && c'.nodes[v] == c.nodes[v]
    {
      SameMember(c, c', config, except, v);
    }
  }

  lemma BlankExcept(c: Cluster, c': Cluster, config: Config, group: set<Id>, term: nat, a: Id, v: Id)
    requires Blank(c, config, group, term) && Same(c, c', {a, v}) && a !in group
    requires Member(c', config, v) && c'.nodes[v].term <= term && c'.nodes[v].log == FRESH_LOG && c'.nodes[v].commitIndex == 0
             && c'.nodes[v].role != Leader
    ensures Blank(c', config, group, term)
  {
    BlankStays(c, c', config, group - {v}, term, {a, v});
  }

  lemma StartBlank(config: Config, group: set<Id>)
    requires group <= config.Keys
    ensures Blank(Init(config), config, group, 0)
    ensures forall n :: n in group ==> Init(config).nodes[n].role == Follower && Init(config).nodes[n].term == 0
  {
    forall n | n in config
      ensures Member(Init(config), config, n) && Init(config).nodes[n] == NewNode(n, config[n], EMPTY_DISK)
    {
      StartMember(config, n);
    }
  }

  /** A node that is no leader is elected by the blank group. */
  lemma ElectedByBlank(calm: bool, config: Config, c: Cluster, n: Id, group: set<Id>,
        term: nat) returns (c': Cluster, round: nat)
    requires ValidConfig(config) && n in config && n !in group && group != {} && group <= config.Keys
    requires 1 + |group| == MajoritySize(|config.Keys|)
    requires Blank(c, config, group, term) && Member(c, config, n) && c.nodes[n].role != Leader && c.nodes[n].term >= term
    ensures Leads(calm, c, c') && Same(c, c', group + {n}) && Blank(c', config, group, c.nodes[n].term + 1)
    ensures FreshLeader(c', config, n) && c'.nodes[n].term == c.nodes[n].term + 1
    ensures c'.nodes[n].log == c.nodes[n].log && c'.nodes[n].commitIndex == c.nodes[n].commitIndex
    ensures forall p :: p in config[n] ==> VoteRequest(p, round, NextArgs(c.nodes[n])) in c'.messages
    ensures forall w :: w in group ==> w in c'.nodes && c'.nodes[w].term == c.nodes[n].term + 1
  {
    hide Next, Leads, Willing, HasVoted, ValidConfig, Blank, Same, FreshLeader;
    BlankGrants(c, config, group, term, n);
    c', round := WinElection(calm, c, config, n, group);
    VotedBlank(c, c', config, group, term, c.nodes[n].term + 1);
  }

  /** A new leader with something to send to a blank group. */
  lemma SpreadingStarts(c: Cluster, config: Config, b: Id, term: nat, log: seq<LogEntry>, group: set<Id>)
    requires Member(c, config, b) && Leading(c.nodes[b], term, log) && Blank(c, config, group, term) && b !in group
    requires forall p :: p in config[b] ==>
               1 <= Index(c.nodes[b].nextIndex, p) <= 2 && Index(c.nodes[b].matchIndex, p) == 0
    requires forall p :: p in group ==> p in config[b]
    ensures Spreading(c, config, b, term, log, group, {})
  {
    assert forall p :: p in group ==> Behind(c, config, b, p);
  }
}
