/**
 Election Safety for the code as it is, where a failed quorum check erases the
 leader's vote within its term. It holds for every run of an even-sized cluster,
 where two majorities share two nodes and the erased vote is only one of them,
 and it fails in some run of every odd-sized cluster of three or more.
 */
module ElectionLimits {
  import opened Entries
  import opened Quorums
  import opened Nodes
  import opened Cluster
  import opened Program
  import opened Scenarios
  import Recovery
  import Safety

  ghost predicate LeaderOf(c: Cluster, n: Id, term: nat) {
    n in c.nodes && c.nodes[n].role == Leader && c.nodes[n].term == term
  }

  /** In no session do two nodes lead one term, at the same time or one after the other. */
  ghost predicate OneLeaderPerTerm(config: Config) {
    forall actions, more, a, b, term ::
      LeaderOf(Session(config, actions).cluster, a, term) && LeaderOf(Session(config, actions + more).cluster, b, term) ==> a == b
  }

  /** Nodes that start afresh would vote for one another. */
  lemma FreshWilling(config: Config, n: Id, group: set<Id>)
    requires n in config && group <= config.Keys
    ensures Member(Init(config), config, n) && Init(config).nodes[n] == NewNode(n, config[n], EMPTY_DISK)
    ensures forall w :: w in group ==> Willing(Init(config), config, w, NextArgs(NewNode(n, config[n], EMPTY_DISK)))
  {
    hide Init;
    StartMember(config, n);
    forall w | w in group
      ensures Willing(Init(config), config, w, NextArgs(NewNode(n, config[n], EMPTY_DISK)))
    {
      StartMember(config, w);
      FreshGrants(config, n, w);
    }
  }

  lemma FreshGrants(config: Config, n: Id, w: Id)
    requires n in config && w in config
    ensures WouldGrant(NewNode(w, config[w], EMPTY_DISK), NextArgs(NewNode(n, config[n], EMPTY_DISK)))
  {
  }

  /** Elected by some voters, a fails its quorum check and is free to vote again. */
  lemma FirstLeader(config: Config, a: Id, first: set<Id>) returns (c: Cluster, c': Cluster)
    requires ValidConfig(config) && a in config && a !in first && first != {} && first <= config.Keys
    requires 1 + |first| == MajoritySize(|config.Keys|) && |config.Keys| >= 3
    ensures Leads(false, Init(config), c) && LeaderOf(c, a, 1)
    ensures Leads(false, c, c') && Same(Init(config), c', first + {a}) && Member(c', config, a)
    ensures c'.nodes[a].log == FRESH_LOG && c'.nodes[a].term == 1 && c'.nodes[a].votedFor == ""
  {
    hide Next, ValidConfig, Willing, Leads, HasVoted, Init, Same;
    var start := Init(config);
    FreshWilling(config, a, first);
    var round;
    c, round := WinElection(false, start, config, a, first);
    PeersOf(config, a);
    StepDownWorks(c, config, a);
    c' := Next(c, QuorumCheck(a, 1));
    LeadsBy(false, c, QuorumCheck(a, 1));
    SameOn(start, c, c', first + {a}, {a}, first + {a});
  }

  /** The other half, which has seen nothing yet, elects b in the same term with a's help. */
  lemma SecondLeader(config: Config, c: Cluster, a: Id, b: Id, first: set<Id>, others: set<Id>) returns (c': Cluster)
    requires ValidConfig(config) && a != b && b in config && others <= config.Keys
    requires a !in others && b !in others && b !in first && first !! others
    requires 2 + |others| == MajoritySize(|config.Keys|)
    requires Same(Init(config), c, first + {a}) && Member(c, config, a)
    requires c.nodes[a].log == FRESH_LOG && c.nodes[a].term == 1 && c.nodes[a].votedFor == ""
    ensures Leads(false, c, c') && LeaderOf(c', b, 1)
  {
    hide Next, ValidConfig, WouldGrant, Leads, HasVoted, Same, Init;
    FreshWilling(config, b, others);
    SameMember(Init(config), c, config, first + {a}, b);
    forall n | n in others
      ensures Willing(c, config, n, NextArgs(NewNode(b, config[b], EMPTY_DISK)))
    {
      StartMember(config, n);
      SameMember(Init(config), c, config, first + {a}, n);
    }
    FreedGrants(c.nodes[a], config, b);
    assert |others + {a}| == |others| + 1;
    var round;
    c', round := WinElection(false, c, config, b, others + {a});
  }

  lemma FreedGrants(x: Node, config: Config, n: Id)
    requires n in config && x.log == FRESH_LOG && x.term == 1 && x.votedFor == ""
    ensures WouldGrant(x, NextArgs(NewNode(n, config[n], EMPTY_DISK)))
  {
  }

  /** First a leads term 1, then, after a failed quorum check and with a's own vote, b does. */
  lemma TwoLeaders(config: Config) returns (actions: seq<Action>, more: seq<Action>, a: Id, b: Id)
    requires ValidConfig(config) && |config.Keys| % 2 == 1 && |config.Keys| >= 3
    ensures a != b && LeaderOf(Session(config, actions).cluster, a, 1) && LeaderOf(Session(config, actions + more).cluster, b, 1)
  {
    hide Next, ValidConfig, Leads, Same, Member, LeaderOf, Session;
    var first, others;
    a, b, first, others := SplitOdd(config);
    var c, c' := FirstLeader(config, a, first);
    var d := SecondLeader(config, c', a, b, first, others);
    LeadsOn(false, c, c', d);
    actions, more := SessionsOf(config, false, c, d);
  }

  lemma SingleMember(config: Config, a: Id, b: Id)
    requires |config.Keys| == 1 && a in config && b in config
    ensures a == b
  {
    assert |config.Keys - {a}| == 0;
    assert b !in config.Keys - {a};
  }

  /** Two moments of a session as two moments of a run. */
  lemma SessionPair(config: Config, actions: seq<Action>, more: seq<Action>) returns (events: seq<Event>, later: seq<Event>)
    ensures events == Events(config, actions) && events + later == Events(config, actions + more)
    ensures Session(config, actions).cluster == Run(config, events)
    ensures Session(config, actions + more).cluster == Run(config, events + later)
  {
    hide Session, Run, Events;
    events := Events(config, actions);
    EventsContinue(config, actions, more);
    later := Events(config, actions + more)[|events|..];
    SessionIsRun(config, actions);
    SessionIsRun(config, actions + more);
  }

  /** Election Safety holds in every session exactly for even memberships and single nodes. */
  lemma ElectionSafetyIff(config: Config)
    requires ValidConfig(config)
    ensures OneLeaderPerTerm(config) <==> |config.Keys| % 2 == 0 || |config.Keys| == 1
  {
    hide Run, Session;
    if |config.Keys| % 2 == 0 || |config.Keys| == 1 {
      forall actions, more, a, b, term |
        LeaderOf(Session(config, actions).cluster, a, term) && LeaderOf(Session(config, actions + more).cluster, b, term)
        ensures a == b
      {
        var events, later := SessionPair(config, actions, more);
        Recovery.RunNodes(config, events);
        Recovery.RunNodes(config, events + later);
        if |config.Keys| == 1 {
          SingleMember(config, a, b);
        } else {
          Safety.ElectionSafety(config, events, later, a, b);
        }
      }
    } else {
      var actions, more, a, b := TwoLeaders(config);
      assert !OneLeaderPerTerm(config);
    }
  }
}
