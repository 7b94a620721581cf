/**
 State Machine Safety for the code as it is. With two leaders in one term a late
 message of the first can undo what the second committed, so the law holds in
 every session exactly where the erased vote cannot elect a second leader.
 */
module SafetyLimits {
  import opened Entries
  import opened Logs
  import opened Quorums
  import opened Nodes
  import opened Cluster
  import opened Program
  import opened Scenarios
  import opened Exchanges
  import ElectionLimits
  import Recovery
  import Safety

  /** Both nodes know the index committed and still store it. */
  ghost predicate BothCommitted(c: Cluster, a: Id, b: Id, i: nat) {
    && a in c.nodes && b in c.nodes && |c.nodes[a].log| > 0 && |c.nodes[b].log| > 0
    && SnapshotIndex(c.nodes[a].log) < i <= c.nodes[a].commitIndex
    && SnapshotIndex(c.nodes[b].log) < i <= c.nodes[b].commitIndex
  }

  /** In no session do two nodes hold different entries at an index both know committed. */
  ghost predicate CommittedAgree(config: Config) {
    forall actions, a, b, i ::
      BothCommitted(Session(config, actions).cluster, a, b, i) ==>
        Get(Session(config, actions).cluster.nodes[a].log, i) == Get(Session(config, actions).cluster.nodes[b].log, i)
  }

  // ---------------------------------------------------------------- the logs of the run

  const COMMAND: Command := Raw([])

  /** The entry of term 1 that only its leader ever stored. */
  const X: LogEntry := CommandEntry(1, 1, COMMAND)
  const Y: LogEntry := CommandEntry(2, 1, COMMAND)
  const Z: LogEntry := CommandEntry(3, 2, COMMAND)

  const WITH_X: seq<LogEntry> := [Sentinel(0, 0), X]
  const WITH_Y: seq<LogEntry> := [Sentinel(0, 0), Y]
  const WITH_YZ: seq<LogEntry> := [Sentinel(0, 0), Y, Z]

  /** The late message of the term's first leader replaces a committed entry. */
  lemma LateMessageTruncates(v: Node, leader: Id)
    requires v.log == WITH_YZ && v.term == 3 && v.commitIndex >= 2
    ensures var (v', _) := HandleAppendEntries(v, AppendArgs(3, leader, 0, 0, [X], 0));
            v'.log == WITH_X && v'.commitIndex >= 2
  {
    assert Get(WITH_YZ, 1) == Y;
    assert TruncateFrom(WITH_YZ, 1) == [Sentinel(0, 0)];
    assert AppendLoop(WITH_YZ, [X]) == WITH_X;
  }

  // ---------------------------------------------------------------- the run, term by term

  /** A member seen from outside: its role, its term, its log, nothing known committed. */
  ghost predicate Stands(c: Cluster, config: Config, n: Id, role: Role, term: nat, log: seq<LogEntry>) {
    && Member(c, config, n) && c.nodes[n].role == role && c.nodes[n].term == term && c.nodes[n].log == log
    && c.nodes[n].commitIndex == 0
  }

  /** The two nodes, and the group one short of a majority that elects both of them. */
  ghost predicate Cast(config: Config, a: Id, b: Id, first: set<Id>) {
    && ValidConfig(config) && a in config && b in config && a != b && |config.Keys| >= 3
    && a !in first && b !in first && first != {} && first <= config.Keys
    && 1 + |first| == MajoritySize(|config.Keys|)
  }

  /** It then stores one entry. */
  lemma LeadAndStore(config: Config, c: Cluster, n: Id, first: set<Id>, term: nat,
        log: seq<LogEntry>) returns (c': Cluster, round: nat)
    requires ValidConfig(config) && n in config && n !in first && first != {} && first <= config.Keys
    requires 1 + |first| == MajoritySize(|config.Keys|)
    requires Blank(c, config, first, term) && Member(c, config, n) && c.nodes[n].role != Leader
    requires c.nodes[n].term >= term && c.nodes[n].log == FRESH_LOG && c.nodes[n].commitIndex == 0
    requires log == [Sentinel(0, 0), CommandEntry(c.nodes[n].term + 1, 1, COMMAND)]
    ensures Leads(false, c, c') && Same(c, c', first + {n})
    ensures Stands(c', config, n, Leader, c.nodes[n].term + 1, log) && Blank(c', config, first, c.nodes[n].term + 1)
    ensures forall p :: p in config[n] ==> VoteRequest(p, round, NextArgs(c.nodes[n])) in c'.messages
  {
    hide Next, Leads, ValidConfig, Blank, Same;
    var t := c.nodes[n].term + 1;
    var c1;
    c1, round := ElectedByBlank(false, config, c, n, first, term);
    SubmitWorks(c1, config, n, COMMAND);
    LeadsToNext(false, c, c1, ClientSubmit(n, COMMAND));
    c' := Next(c1, ClientSubmit(n, COMMAND));
    SameOn(c, c1, c', first + {n}, {n}, first + {n});
    BlankStays(c1, c', config, first, t, {n});
    assert FRESH_LOG + [CommandEntry(t, 1, COMMAND)] == log;
    forall p | p in config[n]
      ensures VoteRequest(p, round, NextArgs(c.nodes[n])) in c'.messages
    {
      MessagesStay(c1, c', {n}, VoteRequest(p, round, NextArgs(c.nodes[n])));
    }
  }

  lemma AsStands(c: Cluster, config: Config, group: set<Id>, n: Id)
    requires Blank(c, config, group + {n}, 0) && c.nodes[n].role == Follower
    ensures Blank(c, config, group, 0) && Stands(c, config, n, Follower, 0, FRESH_LOG)
  {
    assert n in group + {n};
  }

  /** Term 1: a leads and stores x. */
  lemma FirstTerm(config: Config, a: Id, b: Id, first: set<Id>) returns (c: Cluster)
    requires Cast(config, a, b, first)
    ensures Leads(false, Init(config), c) && Same(Init(config), c, first + {a})
    ensures Stands(c, config, a, Leader, 1, WITH_X) && Blank(c, config, first, 1)
  {
    hide Next, Leads, ValidConfig, Same, Blank;
    StartBlank(config, first + {a});
    AsStands(Init(config), config, first, a);
    var round;
    c, round := LeadAndStore(config, Init(config), a, first, 0, WITH_X);
  }

  /** Term 2: b leads and stores y; a hears of the term and keeps x. */
  lemma SecondTerm(config: Config, c: Cluster, a: Id, b: Id, first: set<Id>) returns (c': Cluster)
    requires Cast(config, a, b, first)
    requires Stands(c, config, a, Leader, 1, WITH_X) && Blank(c, config, first, 1)
    requires Stands(c, config, b, Follower, 0, FRESH_LOG)
    ensures Leads(false, c, c') && Same(c, c', first + {a, b})
    ensures Stands(c', config, a, Follower, 2, WITH_X) && Stands(c', config, b, Leader, 2, WITH_Y)
            && Blank(c', config, first, 2)
  {
    hide Next, Leads, ValidConfig, Same, Blank;
    PeersOf(config, b);
    StandWorks(c, config, b);
    BlankBacks(c, config, first, 1, b);
    StandLeads(false, c, config, b, first);
    var c1 := Next(c, Stand(b));
    BlankStays(c, c1, config, first, 1, {b});
    SameMember(c, c1, config, {b}, a);
    var c2, round := LeadAndStore(config, c1, b, first, 1, WITH_Y);
    LeadsOn(false, c, c1, c2);
    SameOn(c, c1, c2, {b}, first + {b}, first + {b});
    SameMember(c1, c2, config, first + {b}, a);
    c' := LearnsTerm(config, c2, a, b, round);
    LeadsOn(false, c, c2, c');
    SameOn(c, c2, c', first + {b}, {a}, first + {a, b});
    BlankStays(c2, c', config, first, 2, {a});
    SameMember(c2, c', config, {a}, b);
  }

  lemma LearnsTerm(config: Config, c: Cluster, a: Id, b: Id, round: nat) returns (c': Cluster)
    requires Member(c, config, a) && c.nodes[a].term == 1 && c.nodes[a].log == WITH_X
    requires VoteRequest(a, round, VoteArgs(2, b, 0, 0, false)) in c.messages
    ensures Leads(false, c, c') && Same(c, c', {a}) && Member(c', config, a) && c'.nodes[a] == BecomeFollower(c.nodes[a], 2)
  {
    hide Next, Leads;
    var args := VoteArgs(2, b, 0, 0, false);
    assert LastTerm(WITH_X) == 1;
    HearsTerm(c, config, a, round, args);
    LeadsBy(false, c, Deliver(VoteRequest(a, round, args)));
    c' := Next(c, Deliver(VoteRequest(a, round, args)));
  }

  /** What a's message to v says. */
  function LateMessage(a: Id, v: Id): Message {
    AppendRequest(v, AppendArgs(3, a, 0, 0, [X], 0))
  }

  /** Term 3: a leads again, leaves a message carrying x under way and fails its quorum check. */
  lemma ThirdTerm(config: Config, c: Cluster, a: Id, b: Id, first: set<Id>, v: Id) returns (c': Cluster)
    requires Cast(config, a, b, first) && v in first
    requires Stands(c, config, a, Follower, 2, WITH_X) && Blank(c, config, first, 2)
    ensures Leads(false, c, c') && Same(c, c', first + {a}) && LateMessage(a, v) in c'.messages
    ensures Stands(c', config, a, Follower, 3, WITH_X) && c'.nodes[a].votedFor == "" && Blank(c', config, first, 3)
  {
    hide Next, Leads, ValidConfig, Same, Backtracking.Round;
    PeersOf(config, a);
    var c1, round := ElectedByBlank(false, config, c, a, first, 2);
    var c2 := FirstRejected(false, c1, config, a, v);
    LeadsOn(false, c, c1, c2);
    SameOn(c, c1, c2, first + {a}, {a, v}, first + {a});
    BlankExcept(c1, c2, config, first, 3, a, v);
    var c3 := SendLate(config, c2, a, v);
    LeadsOn(false, c, c2, c3);
    SameOn(c, c2, c3, first + {a}, {}, first + {a});
    BlankStays(c2, c3, config, first, 3, {});
    StepDownWorks(c3, config, a);
    LeadsToNext(false, c, c3, QuorumCheck(a, 1));
    c' := Next(c3, QuorumCheck(a, 1));
    SameOn(c, c3, c', first + {a}, {a}, first + {a});
    BlankStays(c3, c', config, first, 3, {a});
    MessagesStay(c3, c', {a}, LateMessage(a, v));
  }

  lemma SendLate(config: Config, c: Cluster, a: Id, v: Id) returns (c': Cluster)
    requires Stands(c, config, a, Leader, 3, WITH_X) && v in config[a] && Index(c.nodes[a].nextIndex, v) == 1
    ensures Leads(false, c, c') && Same(c, c', {}) && c'.nodes == c.nodes && LateMessage(a, v) in c'.messages
    ensures Member(c', config, a)
  {
    hide Next, Leads;
    assert BuildArgs(c.nodes[a], v) == AppendArgs(3, a, 0, 0, [X], 0);
    SendWorks(c, config, a, v);
    LeadsBy(false, c, Send(a, v));
    c' := Next(c, Send(a, v));
  }

  /** b gives up term 2. */
  lemma GivesUp(config: Config, c: Cluster, a: Id, b: Id, first: set<Id>, others: set<Id>) returns (c': Cluster)
    requires Cast(config, a, b, first) && a !in others && b !in others
    requires Member(c, config, a) && Blank(c, config, first, 3)
    requires Stands(c, config, b, Leader, 2, WITH_Y) && Blank(c, config, others, 0)
    ensures Leads(false, c, c') && Same(c, c', {b}) && Member(c', config, a) && c'.nodes[a] == c.nodes[a]
    ensures Stands(c', config, b, Follower, 2, WITH_Y) && Blank(c', config, first, 3) && Blank(c', config, others, 0)
  {
    hide Next, Leads, ValidConfig, Same, Blank;
    PeersOf(config, b);
    StepDownWorks(c, config, b);
    LeadsBy(false, c, QuorumCheck(b, 1));
    c' := Next(c, QuorumCheck(b, 1));
    SameMember(c, c', config, {b}, a);
    BlankStays(c, c', config, others, 0, {b});
    BlankStays(c, c', config, first, 3, {b});
  }

  /** b is elected in term 3 by the others and a's freed vote. */
  lemma ElectedAgain(config: Config, c: Cluster, a: Id, b: Id, first: set<Id>, others: set<Id>) returns (c': Cluster)
    requires ValidConfig(config) && a in config && b in config && a != b && first !! others
             && a !in first + others && b !in first + others
    requires others <= config.Keys && 2 + |others| == MajoritySize(|config.Keys|)
    requires Stands(c, config, a, Follower, 3, WITH_X) && c.nodes[a].votedFor == "" && Blank(c, config, first, 3)
    requires Stands(c, config, b, Follower, 2, WITH_Y) && Blank(c, config, others, 0)
    ensures Leads(false, c, c') && Same(c, c', others + {a, b}) && Blank(c', config, first, 3)
    ensures FreshLeader(c', config, b) && Stands(c', config, b, Leader, 3, WITH_Y)
  {
    hide Next, Leads, WouldGrant, HasVoted, ValidConfig, Same, Blank;
    BlankGrants(c, config, others, 0, b);
    FreedGrants(c.nodes[a], c.nodes[b]);
    assert |others + {a}| == |others| + 1;
    var round;
    c', round := WinElection(false, c, config, b, others + {a});
    assert others + {a} + {b} == others + {a, b};
    BlankStays(c, c', config, first, 3, others + {a, b});
  }

  /** Term 3 once more: b is elected with a's freed vote and stores z. */
  lemma ThirdTermAgain(config: Config, c: Cluster, a: Id, b: Id, first: set<Id>, others: set<Id>) returns (c': Cluster)
    requires Cast(config, a, b, first) && first !! others && a !in others && b !in others && others <= config.Keys
    requires 2 + |others| == MajoritySize(|config.Keys|)
    requires Stands(c, config, a, Follower, 3, WITH_X) && c.nodes[a].votedFor == "" && Blank(c, config, first, 3)
    requires Stands(c, config, b, Leader, 2, WITH_Y) && Blank(c, config, others, 0)
    ensures Leads(false, c, c') && Same(c, c', others + {a, b}) && Spreading(c', config, b, 3, WITH_YZ, first, {})
  {
    hide Next, Leads, ValidConfig, Same, Spreading, Blank, FreshLeader;
    var c1 := GivesUp(config, c, a, b, first, others);
    var c2 := ElectedAgain(config, c1, a, b, first, others);
    LeadsOn(false, c, c1, c2);
    SameOn(c, c1, c2, {b}, others + {a, b}, others + {a, b});
    c' := StoresZ(config, c2, b, first);
    LeadsOn(false, c, c2, c');
    SameOn(c, c2, c', others + {a, b}, {b}, others + {a, b});
  }

  lemma StoresZ(config: Config, c: Cluster, b: Id, first: set<Id>) returns (c': Cluster)
    requires ValidConfig(config) && b in config && b !in first && first <= config.Keys
    requires FreshLeader(c, config, b) && Stands(c, config, b, Leader, 3, WITH_Y) && Blank(c, config, first, 3)
    ensures Leads(false, c, c') && Same(c, c', {b}) && Spreading(c', config, b, 3, WITH_YZ, first, {})
  {
    hide Next, Leads, ValidConfig, Same, Spreading, Blank;
    SubmitWorks(c, config, b, COMMAND);
    LeadsBy(false, c, ClientSubmit(b, COMMAND));
    c' := Next(c, ClientSubmit(b, COMMAND));
    BlankStays(c, c', config, first, 3, {b});
    assert WITH_Y + [Z] == WITH_YZ;
    PeersOf(config, b);
    SpreadingStarts(c', config, b, 3, WITH_YZ, first);
  }

  lemma FreedGrants(x: Node, y: Node)
    requires x.log == WITH_X && x.term == 3 && x.votedFor == "" && y.log == WITH_Y && y.term == 2
    ensures WouldGrant(x, NextArgs(y))
  {
  }

  /** b commits y and z, v learns of it, and a's late message puts x in their place. */
  lemma Clash(config: Config, c: Cluster, a: Id, b: Id, first: set<Id>, v: Id) returns (c': Cluster)
    requires Cast(config, a, b, first) && v in first
    requires Spreading(c, config, b, 3, WITH_YZ, first, {}) && LateMessage(a, v) in c.messages
    ensures Leads(false, c, c') && BothCommitted(c', b, v, 1)
    ensures Get(c'.nodes[b].log, 1) != Get(c'.nodes[v].log, 1)
  {
    hide Next, Leads, ValidConfig, HandleAppendEntries, Same, Behind, Abreast;
    PeersOf(config, b);
    var c1 := Spread(false, c, config, b, 3, WITH_YZ, first, {});
    assert {} + first == first;
    var c2 := Notified(false, c1, config, b, 3, WITH_YZ, first, v);
    LeadsOn(false, c, c1, c2);
    MessagesStay(c, c1, first + {b}, LateMessage(a, v));
    MessagesStay(c1, c2, {v}, LateMessage(a, v));
    SameMember(c1, c2, config, {v}, b);
    RequestWorks(c2, config, v, AppendArgs(3, a, 0, 0, [X], 0));
    LeadsToNext(false, c, c2, Deliver(LateMessage(a, v)));
    c' := Next(c2, Deliver(LateMessage(a, v)));
    LateMessageTruncates(c2.nodes[v], a);
    SameMember(c2, c', config, {v}, b);
    assert Get(WITH_YZ, 1) == Y && Get(WITH_X, 1) == X;
  }

  /** Some run of every odd cluster of three or more ends with two nodes that committed different entries. */
  lemma CommittedClash(config: Config) returns (c: Cluster, a: Id, b: Id)
    requires ValidConfig(config) && |config.Keys| % 2 == 1 && |config.Keys| >= 3
    ensures Leads(false, Init(config), c) && BothCommitted(c, a, b, 1) && Get(c.nodes[a].log, 1) != Get(c.nodes[b].log, 1)
  {
    hide Next, Leads, ValidConfig, Same, Spreading, BothCommitted, Get;
    var x, y, first, others := SplitOdd(config);
    var v :| v in first;
    var start := Init(config);
    var c1 := FirstTerm(config, x, y, first);
    Unseen(config, start, c1, first + {x}, others, y);
    var c2 := SecondTerm(config, c1, x, y, first);
    LeadsOn(false, start, c1, c2);
    BlankStays(c1, c2, config, others, 0, first + {x, y});
    var c3 := ThirdTerm(config, c2, x, y, first, v);
    LeadsOn(false, start, c2, c3);
    BlankStays(c2, c3, config, others, 0, first + {x});
    SameMember(c2, c3, config, first + {x}, y);
    var c4 := ThirdTermAgain(config, c3, x, y, first, others);
    LeadsOn(false, start, c3, c4);
    MessagesStay(c3, c4, others + {x, y}, LateMessage(x, v));
    c := Clash(config, c4, x, y, first, v);
    LeadsOn(false, start, c4, c);
    a, b := y, v;
  }

  lemma Unseen(config: Config, c: Cluster, c': Cluster, except: set<Id>, others: set<Id>, y: Id)
    requires c == Init(config) && Same(c, c', except) && others !! except && others <= config.Keys
             && y in config && y !in except
    ensures Blank(c', config, others, 0) && Stands(c', config, y, Follower, 0, FRESH_LOG)
  {
    forall n | n in config && n !in except
      ensures Member(c', config, n) && c'.nodes[n] == NewNode(n, config[n], EMPTY_DISK)
    {
      StartMember(config, n);
      SameMember(c, c', config, except, n);
    }
  }

  // ---------------------------------------------------------------- the exact condition

  lemma SessionAgrees(config: Config, actions: seq<Action>, a: Id, b: Id, i: nat)
    requires ValidConfig(config) && (|config.Keys| % 2 == 0 || |config.Keys| == 1)
    requires BothCommitted(Session(config, actions).cluster, a, b, i)
    ensures Get(Session(config, actions).cluster.nodes[a].log, i) == Get(Session(config, actions).cluster.nodes[b].log, i)
  {
    hide Session, Get, Run, Events, ValidConfig;
    var events := Events(config, actions);
    SessionIsRun(config, actions);
    Recovery.RunNodes(config, events);
    if |config.Keys| == 1 {
      ElectionLimits.SingleMember(config, a, b);
    } else {
      assert events + [] == events;
      Safety.CommittedEntriesEqual(config, events, [], a, b, i);
    }
  }

  /** State Machine Safety holds in every session exactly for even memberships and single nodes. */
  lemma StateMachineSafetyIff(config: Config)
    requires ValidConfig(config)
    ensures CommittedAgree(config) <==> |config.Keys| % 2 == 0 || |config.Keys| == 1
  {
    hide Session, Get, ValidConfig, Leads;
    if |config.Keys| % 2 == 0 || |config.Keys| == 1 {
      forall actions, a, b, i | BothCommitted(Session(config, actions).cluster, a, b, i)
        ensures Get(Session(config, actions).cluster.nodes[a].log, i) == Get(Session(config, actions).cluster.nodes[b].log, i)
      {
        SessionAgrees(config, actions, a, b, i);
      }
    } else {
      var c, a, b := CommittedClash(config);
      LeadsSelf(false, c);
      var actions, more := SessionsOf(config, false, c, c);
      assert !(BothCommitted(Session(config, actions).cluster, a, b, 1) ==>
               Get(Session(config, actions).cluster.nodes[a].log, 1) == Get(Session(config, actions).cluster.nodes[b].log, 1));
    }
  }
}
