/** Building particular sessions: clusters reached from one another, and elections won at will, probes included. */
module Scenarios {
  import opened Entries
  import opened Logs
  import opened Quorums
  import opened Nodes
  import opened Cluster
  import opened Program
  import opened Runs
  import ClusterElections

  // ---------------------------------------------------------------- reaching

  ghost function Follow(s: System, actions: seq<Action>): System {
    if |actions| == 0 then s else Step(Follow(s, actions[..|actions| - 1]), actions[|actions| - 1])
  }

  /** An event between nodes: not one of the apply loop's, no crash, no snapshot, and no quorum check when calm. */
  predicate Plain(calm: bool, e: Event) {
    || e.Launch? || e.ClientSubmit? || e.Send?
    || (e.QuorumCheck? && !calm)
    || (e.Deliver? && !e.m.SnapshotRequest?)
  }

  /** Such events and probes. */
  predicate Usual(calm: bool, a: Action) {
    (a.Core? && Plain(calm, a.e)) || a.Ask? || a.Answer? || a.Count? || a.Proceed?
  }

  ghost predicate AllUsual(calm: bool, actions: seq<Action>) {
    forall i :: 0 <= i < |actions| ==> Usual(calm, actions[i])
  }

  /** Usual actions lead from the system to one with the given cluster, the apply loops at rest meanwhile. */
  ghost predicate Goes(calm: bool, s: System, c: Cluster) {
    exists actions ::
      AllUsual(calm, actions) && Follow(s, actions).cluster == c && Follow(s, actions).appliers == s.appliers
  }

  /** Whatever else is going on, some actions lead from one cluster to the other. */
  ghost predicate Leads(calm: bool, c: Cluster, c': Cluster) {
    forall s: System :: s.cluster == c ==> Goes(calm, s, c')
  }

  lemma {:induction false} FollowOn(s: System, a: seq<Action>, b: seq<Action>)
    ensures Follow(s, a + b) == Follow(Follow(s, a), b)
  {
    hide Step;
    if |b| == 0 {
      assert a + b == a;
    } else {
      FollowOn(s, a, b[..|b| - 1]);
      assert (a + b)[..|a + b| - 1] == a + b[..|b| - 1];
    }
  }

  lemma UsualOn(calm: bool, a: seq<Action>, b: seq<Action>)
    requires AllUsual(calm, a) && AllUsual(calm, b)
    ensures AllUsual(calm, a + b)
  {
    hide Usual;
  }

  lemma {:induction false} SessionIsFollow(config: Config, actions: seq<Action>)
    ensures Session(config, actions) == Follow(Begin(config), actions)
  {
    hide Step;
    if |actions| > 0 {
      SessionIsFollow(config, actions[..|actions| - 1]);
    }
  }

  lemma LeadsSelf(calm: bool, c: Cluster)
    ensures Leads(calm, c, c)
  {
    forall s: System | s.cluster == c
      ensures Goes(calm, s, c)
    {
      assert Follow(s, []) == s;
    }
  }

  lemma FollowOne(s: System, a: Action)
    ensures Follow(s, [a]) == Step(s, a)
  {
    hide Step;
    assert [a][..0] == [];
  }

  lemma LeadsBy(calm: bool, c: Cluster, e: Event)
    requires Plain(calm, e)
    ensures Leads(calm, c, Next(c, e))
  {
    hide Next;
    forall s: System | s.cluster == c
      ensures Goes(calm, s, Next(c, e))
    {
      FollowOne(s, Core(e));
      assert AllUsual(calm, [Core(e)]);
      assert Follow(s, [Core(e)]).cluster == Next(c, e);
    }
  }

  lemma LeadsOn(calm: bool, a: Cluster, b: Cluster, c: Cluster)
    requires Leads(calm, a, b) && Leads(calm, b, c)
    ensures Leads(calm, a, c)
  {
    hide Follow;
    forall s: System | s.cluster == a
      ensures Goes(calm, s, c)
    {
      assert Goes(calm, s, b);
      var x :| AllUsual(calm, x) && Follow(s, x).cluster == b && Follow(s, x).appliers == s.appliers;
      var s1 := Follow(s, x);
      assert Goes(calm, s1, c);
      var y :| AllUsual(calm, y) && Follow(s1, y).cluster == c && Follow(s1, y).appliers == s1.appliers;
      FollowOn(s, x, y);
      UsualOn(calm, x, y);
    }
  }

  lemma LeadsToNext(calm: bool, a: Cluster, b: Cluster, e: Event)
    requires Leads(calm, a, b) && Plain(calm, e)
    ensures Leads(calm, a, Next(b, e))
  {
    hide Leads, Next;
    LeadsBy(calm, b, e);
    LeadsOn(calm, a, b, Next(b, e));
  }

  /** Sessions that pass through both clusters. */
  lemma SessionsOf(config: Config, calm: bool, c: Cluster, d: Cluster) returns (actions: seq<Action>, more: seq<Action>)
    requires Leads(calm, Init(config), c) && Leads(calm, c, d)
    ensures Session(config, actions).cluster == c && Session(config, actions + more).cluster == d
    ensures Session(config, actions + more).appliers == map[] && AllUsual(calm, actions + more)
  {
    hide Follow, Session;
    var s := Begin(config);
    assert Goes(calm, s, c);
    actions :| AllUsual(calm, actions) && Follow(s, actions).cluster == c && Follow(s, actions).appliers == s.appliers;
    var s1 := Follow(s, actions);
    assert Goes(calm, s1, d);
    more :| AllUsual(calm, more) && Follow(s1, more).cluster == d && Follow(s1, more).appliers == s1.appliers;
    FollowOn(s, actions, more);
    SessionIsFollow(config, actions);
    SessionIsFollow(config, actions + more);
  }

  // ---------------------------------------------------------------- no quorum check, no erased vote

  ghost predicate Calm(actions: seq<Action>) {
    forall i :: 0 <= i < |actions| ==> !(actions[i].Core? && actions[i].e.QuorumCheck?)
  }

  lemma {:induction false} CalmEvents(config: Config, actions: seq<Action>)
    requires Calm(actions)
    ensures forall e :: e in Events(config, actions) ==> !e.QuorumCheck?
  {
    hide Step;
    if |actions| > 0 {
      var before := actions[..|actions| - 1];
      assert forall i :: 0 <= i < |before| ==> before[i] == actions[i];
      CalmEvents(config, before);
    }
  }

  /** A session without quorum checks keeps votes. */
  lemma CalmKeepsVotes(config: Config, actions: seq<Action>)
    requires Calm(actions)
    ensures VotesKept(config, Events(config, actions))
  {
    var events := Events(config, actions);
    CalmEvents(config, actions);
    hide Events, Run, GrantsVote;
    forall i | 0 <= i < |events|
      ensures !CastsAgain(config, events[..i], events[i])
    {
      forall j | 0 <= j < i
        ensures !ErasesVote(Run(config, events[..i][..j]), events[..i][j])
      {
        assert events[..i][j] in events;
      }
    }
  }

  // ---------------------------------------------------------------- members

  ghost predicate Member(c: Cluster, config: Config, n: Id) {
    && n in c.nodes && n in c.history.peers && n in config
    && var x := c.nodes[n];
       x.id == n && x.peers == config[n] && |x.log| > 0 && |x.disk.entries| > 0
  }

  /** Nodes outside the set are as before, and no message is lost. */
  ghost predicate Same(c: Cluster, c': Cluster, except: set<Id>) {
    && c'.nodes.Keys == c.nodes.Keys
    && c'.history.peers.Keys == c.history.peers.Keys
    && (forall x :: x in c.nodes && x !in except ==> c'.nodes[x] == c.nodes[x])
    && c.messages <= c'.messages
  }

  lemma SameOn(a: Cluster, b: Cluster, c: Cluster, x: set<Id>, y: set<Id>, except: set<Id>)
    requires Same(a, b, x) && Same(b, c, y) && x <= except && y <= except
    ensures Same(a, c, except)
  {
  }

  lemma SameMember(c: Cluster, c': Cluster, config: Config, except: set<Id>, n: Id)
    requires Same(c, c', except) && n !in except && Member(c, config, n)
    ensures Member(c', config, n) && c'.nodes[n] == c.nodes[n]
  {
  }

  lemma StartMember(config: Config, n: Id)
    requires n in config
    ensures Member(Init(config), config, n) && Init(config).nodes[n] == NewNode(n, config[n], EMPTY_DISK)
    ensures Init(config).history.peers.Keys == config.Keys == Init(config).nodes.Keys
  {
  }

  lemma PeersOf(config: Config, n: Id)
    requires ValidConfig(config) && n in config
    ensures |config[n]| + 1 == |config.Keys| && n != ""
    ensures forall p :: p in config && p != n ==> p in config[n]
  {
    ClusterElections.DistinctSize(config[n]);
    assert config.Keys == PeerSet(config[n]) + {n};
    forall p | p in config && p != n
      ensures p in config[n]
    {
      assert p in PeerSet(config[n]);
    }
  }

  // ---------------------------------------------------------------- elections

  ghost predicate WouldGrant(x: Node, args: VoteArgs)
    requires |x.log| > 0
  {
    && !args.isPreVote
    && (x.term < args.term || (x.term == args.term && x.votedFor == ""))
    && UpToDate(args, x.log)
  }

  /** A vote changes nothing else that matters here. */
  ghost predicate Voted(x: Node, x': Node, term: nat) {
    x'.term == term && x'.log == x.log && x'.commitIndex == x.commitIndex && x'.votedFor != "" && (x.role != Leader ==> x'.role != Leader)
  }

  lemma Grants(c: Cluster, config: Config, round: nat, args: VoteArgs, w: Id)
    requires Member(c, config, w) && VoteRequest(w, round, args) in c.messages
    requires WouldGrant(c.nodes[w], args) && args.candidate != ""
    ensures var c' := Next(c, Deliver(VoteRequest(w, round, args)));
            && Same(c, c', {w}) && c'.rounds == c.rounds
            && VoteAnswer(w, round, args, VoteReply(args.term, true)) in c'.messages
            && Member(c', config, w) && Voted(c.nodes[w], c'.nodes[w], args.term)
  {
    hide UpToDate;
    assert Receiver(VoteRequest(w, round, args)) == w && Live(c, w);
  }

  ghost predicate Collecting(c: Cluster, config: Config, n: Id, round: nat, granted: set<Id>) {
    && Member(c, config, n) && c.nodes[n].role == Candidate
    && round < |c.rounds| && c.rounds[round] == Round(BuildVoteArgs(c.nodes[n]), granted)
    && forall p :: p in config[n] ==> VoteRequest(p, round, BuildVoteArgs(c.nodes[n])) in c.messages
  }

  lemma CollectingMember(c: Cluster, config: Config, n: Id, round: nat, granted: set<Id>)
    requires Collecting(c, config, n, round, granted)
    ensures n in c.nodes && n in config && |c.nodes[n].log| > 0 && c.nodes[n].id == n
  {
  }

  /** A leader that has heard from nobody yet. */
  ghost predicate FreshLeader(c: Cluster, config: Config, n: Id) {
    && Member(c, config, n) && c.nodes[n].role == Leader
    && forall p :: p in config[n] ==>
         Index(c.nodes[n].nextIndex, p) == LastIndex(c.nodes[n].log) + 1 && Index(c.nodes[n].matchIndex, p) == 0
  }

  /** Winning changes the role and the tracking maps only. */
  ghost predicate Unmoved(x: Node, x': Node) {
    x'.term == x.term && x'.log == x.log && x'.commitIndex == x.commitIndex
  }

  lemma AnswerCounts(c: Cluster, config: Config, n: Id, round: nat, granted: set<Id>, w: Id)
    requires Collecting(c, config, n, round, granted) && w !in granted
    requires VoteAnswer(w, round, BuildVoteArgs(c.nodes[n]), VoteReply(c.nodes[n].term, true)) in c.messages
    ensures var c' := Next(c, Deliver(VoteAnswer(w, round, BuildVoteArgs(c.nodes[n]), VoteReply(c.nodes[n].term, true))));
            && Same(c, c', {n}) && n in c'.nodes && Unmoved(c.nodes[n], c'.nodes[n])
            && (if |granted| + 2 >= MajoritySize(|config[n]| + 1) then FreshLeader(c', config, n)
                else Collecting(c', config, n, round, granted + {w}))
  {
    var x := c.nodes[n];
    var reply := VoteReply(x.term, true);
    var m := VoteAnswer(w, round, BuildVoteArgs(x), reply);
    AnswerStep(c, n, round, w, m);
    VoteReceived(x, 1 + |granted|);
    hide Next, ReceiveVote, MajoritySize, BuildVoteArgs, LastIndex;
    UnmovedSend(c, n, w, round, reply);
  }

  /** Only the candidate and its round change. */
  lemma UnmovedSend(c: Cluster, n: Id, w: Id, round: nat, reply: VoteReply)
    requires n in c.nodes && n in c.history.peers && |c.nodes[n].log| > 0 && round < |c.rounds|
    requires w !in c.rounds[round].granted && reply.term <= c.nodes[n].term
    ensures var c' := OnVoteAnswer(c, n, w, round, reply);
            var r := c.rounds[round];
            var (x', votes) := ReceiveVote(c.nodes[n], r.args.term, 1 + |r.granted|, reply);
            && Same(c, c', {n}) && c'.nodes == c.nodes[n := x'] && c'.messages == c.messages && n in c'.history.peers
            && c'.rounds == c.rounds[round := r.(granted := if votes > 1 + |r.granted| then r.granted + {w} else r.granted)]
  {
    hide ReceiveVote;
  }

  lemma AnswerStep(c: Cluster, n: Id, round: nat, w: Id, m: Message)
    requires Live(c, n) && round < |c.rounds| && m in c.messages
    requires m.VoteAnswer? && m.from == w && m.round == round && m.args.candidate == n
    ensures Next(c, Deliver(m)) == OnVoteAnswer(c, n, w, round, m.voteReply)
  {
    hide ReceiveVote, OnVoteAnswer;
  }

  /** A granted vote is counted, and makes a leader when it completes a majority. */
  lemma VoteReceived(x: Node, votes: nat)
    requires |x.log| > 0 && x.role == Candidate
    ensures var (x', votes') := ReceiveVote(x, x.term, votes, VoteReply(x.term, true));
            && votes' == votes + 1 && Unmoved(x, x') && x'.id == x.id && x'.peers == x.peers && x'.disk == x.disk
            && (if votes + 1 >= Majority(x)
                then x'.role == Leader && forall p :: p in x.peers ==> Index(x'.nextIndex, p) == LastIndex(x.log) + 1 && Index(x'.matchIndex, p) == 0
                else x' == x)
  {
  }

  ghost predicate Willing(c: Cluster, config: Config, w: Id, args: VoteArgs) {
    Member(c, config, w) && WouldGrant(c.nodes[w], args)
  }

  ghost predicate HasVoted(c: Cluster, c': Cluster, config: Config, w: Id, term: nat) {
    w in c.nodes && Member(c', config, w) && Voted(c.nodes[w], c'.nodes[w], term)
  }

  /** One voter is asked and its answer counted. */
  lemma OneVoter(calm: bool, c: Cluster, config: Config, n: Id, round: nat, args: VoteArgs, granted: set<Id>,
        w: Id) returns (c': Cluster)
    requires Collecting(c, config, n, round, granted) && args == BuildVoteArgs(c.nodes[n]) && w !in granted
             && w != n && n != ""
    requires w in config[n] && Willing(c, config, w, args)
    ensures Leads(calm, c, c') && Same(c, c', {w, n})
    ensures n in c'.nodes && Unmoved(c.nodes[n], c'.nodes[n]) && HasVoted(c, c', config, w, args.term)
    ensures if |granted| + 2 >= MajoritySize(|config[n]| + 1) then FreshLeader(c', config, n)
            else Collecting(c', config, n, round, granted + {w})
  {
    hide Next, Leads, WouldGrant, Voted;
    Grants(c, config, round, args, w);
    LeadsBy(calm, c, Deliver(VoteRequest(w, round, args)));
    var mid := Next(c, Deliver(VoteRequest(w, round, args)));
    var answer := VoteAnswer(w, round, args, VoteReply(c.nodes[n].term, true));
    AnswerCounts(mid, config, n, round, granted, w);
    LeadsToNext(calm, c, mid, Deliver(answer));
    c' := Next(mid, Deliver(answer));
  }

  /** The voters answer one after the other until the candidate wins. */
  lemma {:induction false} CollectVotes(calm: bool, c: Cluster, config: Config, n: Id, round: nat, args: VoteArgs,
        granted: set<Id>, voters: set<Id>)
    returns (c': Cluster)
    requires n != "" && Collecting(c, config, n, round, granted) && args == BuildVoteArgs(c.nodes[n])
    requires voters != {} && voters !! granted && n !in voters
    requires forall w :: w in voters ==> w in config[n] && Willing(c, config, w, args)
    requires |granted| + 1 + |voters| == MajoritySize(|config[n]| + 1)
    ensures Leads(calm, c, c') && Same(c, c', voters + {n})
    ensures FreshLeader(c', config, n) && Unmoved(c.nodes[n], c'.nodes[n])
    ensures forall w :: w in voters ==> HasVoted(c, c', config, w, args.term)
    decreases |voters|
  {
    hide Next, Leads;
    CollectingMember(c, config, n, round, granted);
    hide Willing, HasVoted, FreshLeader, Same, Unmoved, BuildVoteArgs, MajoritySize, Collecting, Member;
    var w :| w in voters;
    var rest := voters - {w};
    TakeOne(voters, granted, w);
    var c1 := OneVoter(calm, c, config, n, round, args, granted, w);
    if rest == {} {
      c' := c1;
      assert voters + {n} == {w, n};
    } else {
      CollectingMember(c1, config, n, round, granted + {w});
      UnmovedArgs(c.nodes[n], c1.nodes[n]);
      StillWilling(c, c1, config, n, w, args, rest);
      c' := CollectVotes(calm, c1, config, n, round, args, granted + {w}, rest);
      Merge(calm, c, c1, c', config, n, w, rest, args.term);
    }
  }

  lemma TakeOne(voters: set<Id>, granted: set<Id>, w: Id)
    requires w in voters && voters !! granted
    ensures |voters - {w}| == |voters| - 1 && |granted + {w}| == |granted| + 1
    ensures (voters - {w}) !! (granted + {w}) && voters == voters - {w} + {w} && w !in granted
  {
  }

  /** One voter, then the rest. */
  lemma Merge(calm: bool, c: Cluster, c1: Cluster, c': Cluster, config: Config, n: Id, w: Id, rest: set<Id>, term: nat)
    requires Leads(calm, c, c1) && Leads(calm, c1, c') && Same(c, c1, {w, n}) && Same(c1, c', rest + {n}) && w !in rest
             && n !in rest && w != n
    requires n in c.nodes && n in c1.nodes && n in c'.nodes && Unmoved(c.nodes[n], c1.nodes[n])
             && Unmoved(c1.nodes[n], c'.nodes[n])
    requires HasVoted(c, c1, config, w, term) && forall x :: x in rest ==> HasVoted(c1, c', config, x, term)
    ensures Leads(calm, c, c') && Same(c, c', rest + {w} + {n}) && Unmoved(c.nodes[n], c'.nodes[n])
    ensures forall x :: x in rest + {w} ==> HasVoted(c, c', config, x, term)
  {
    hide Next, Leads, Same, HasVoted;
    LeadsOn(calm, c, c1, c');
    SameOn(c, c1, c', {w, n}, rest + {n}, rest + {w} + {n});
    AllVoted(c, c1, c', config, n, w, rest, term);
  }

  lemma StillWilling(c: Cluster, c': Cluster, config: Config, n: Id, w: Id, args: VoteArgs, rest: set<Id>)
    requires Same(c, c', {w, n}) && w !in rest && n !in rest
    requires forall x :: x in rest ==> Willing(c, config, x, args)
    ensures forall x :: x in rest ==> Willing(c', config, x, args)
  {
    hide WouldGrant, Same;
    forall x | x in rest
      ensures Willing(c', config, x, args)
    {
      SameMember(c, c', config, {w, n}, x);
    }
  }

  lemma AllVoted(c: Cluster, c1: Cluster, c': Cluster, config: Config, n: Id, w: Id, rest: set<Id>, term: nat)
    requires Same(c, c1, {w, n}) && Same(c1, c', rest + {n}) && w !in rest && n !in rest && w != n
    requires HasVoted(c, c1, config, w, term) && forall x :: x in rest ==> HasVoted(c1, c', config, x, term)
    ensures forall x :: x in rest + {w} ==> HasVoted(c, c', config, x, term)
  {
    hide Voted;
  }

  lemma UnmovedArgs(x: Node, x': Node)
    requires Unmoved(x, x') && |x.log| > 0 && x.id == x'.id
    ensures BuildVoteArgs(x') == BuildVoteArgs(x) && x'.term == x.term
  {
  }

  /** The candidate a node becomes. */
  ghost predicate Stood(x: Node, x': Node) {
    x'.term == x.term + 1 && x'.role == Candidate && x'.log == x.log && x'.commitIndex == x.commitIndex
  }

  lemma StandWorks(c: Cluster, config: Config, n: Id)
    requires Member(c, config, n) && c.nodes[n].role != Leader && |config[n]| > 0
    ensures var c' := Next(c, Stand(n));
            && Same(c, c', {n}) && Member(c', config, n) && Stood(c.nodes[n], c'.nodes[n]) && n in c'.launching
  {
  }

  lemma LaunchWorks(c: Cluster, config: Config, n: Id)
    requires Member(c, config, n) && c.nodes[n].role == Candidate && n in c.launching
    ensures var c' := Next(c, Launch(n));
            && Same(c, c', {}) && Member(c', config, n) && c'.nodes[n] == c.nodes[n]
            && Collecting(c', config, n, |c.rounds|, {})
  {
  }

  /** What a node would send if it stood now. */
  function NextArgs(x: Node): VoteArgs
    requires |x.log| > 0
  {
    VoteArgs(x.term + 1, x.id, LastIndex(x.log), LastTerm(x.log), false)
  }

  // ---------------------------------------------------------------- standing

  /** The probe under way, with its counted grants. */
  ghost predicate ProbedBy(s: System, i: nat, n: Id, args: VoteArgs, peers: seq<Id>, counted: set<Id>) {
    && i < |s.probes| && s.probes[i].n == n && s.probes[i].args == args && s.probes[i].peers == peers
    && s.probes[i].counted == counted && s.probes[i].counted <= s.probes[i].granted
  }

  /** A peer that would grant the probe. */
  ghost predicate WouldBack(c: Cluster, p: Id, args: VoteArgs) {
    p in c.nodes && |c.nodes[p].log| > 0 && args.isPreVote && UpToDate(args, c.nodes[p].log)
  }

  lemma OneGrant(s: System, i: nat, n: Id, args: VoteArgs, peers: seq<Id>, counted: set<Id>, p: Id)
    requires ProbedBy(s, i, n, args, peers, counted) && WouldBack(s.cluster, p, args) && p in peers
    ensures var s' := Step(Step(s, Answer(i, p, false)), Count(i, p));
            && ProbedBy(s', i, n, args, peers, counted + {p})
            && s'.cluster == s.cluster && s'.appliers == s.appliers
  {
    assert s.cluster.nodes[p := s.cluster.nodes[p]] == s.cluster.nodes;
  }

  lemma FollowTwo(s: System, a: Action, b: Action)
    ensures Follow(s, [a, b]) == Step(Step(s, a), b)
  {
    hide Step;
    FollowOne(s, a);
    assert [a, b][..1] == [a];
  }

  lemma OneGrantFollows(calm: bool, s: System, i: nat, n: Id, args: VoteArgs, peers: seq<Id>, counted: set<Id>, p: Id)
    requires ProbedBy(s, i, n, args, peers, counted) && WouldBack(s.cluster, p, args) && p in peers
    ensures var two := [Answer(i, p, false), Count(i, p)];
            var s' := Follow(s, two);
            && AllUsual(calm, two) && ProbedBy(s', i, n, args, peers, counted + {p})
            && s'.cluster == s.cluster && s'.appliers == s.appliers
  {
    hide Step, ProbedBy, WouldBack, Follow;
    OneGrant(s, i, n, args, peers, counted, p);
    FollowTwo(s, Answer(i, p, false), Count(i, p));
  }

  /** The peers answer the probe one after the other. */
  lemma {:induction false} CollectGrants(calm: bool, s: System, i: nat, n: Id, args: VoteArgs, peers: seq<Id>,
        counted: set<Id>, todo: set<Id>)
    returns (actions: seq<Action>)
    requires ProbedBy(s, i, n, args, peers, counted)
    requires forall p :: p in todo ==> p in peers && WouldBack(s.cluster, p, args)
    ensures AllUsual(calm, actions)
    ensures var s' := Follow(s, actions);
            ProbedBy(s', i, n, args, peers, counted + todo) && s'.cluster == s.cluster && s'.appliers == s.appliers
    decreases |todo|
  {
    hide Step, ProbedBy, WouldBack, Usual;
    if todo == {} {
      actions := [];
      assert counted + todo == counted;
    } else {
      hide Follow, AllUsual;
      var p :| p in todo;
      var two := [Answer(i, p, false), Count(i, p)];
      OneGrantFollows(calm, s, i, n, args, peers, counted, p);
      var s1 := Follow(s, two);
      assert |todo - {p}| < |todo|;
      var rest := CollectGrants(calm, s1, i, n, args, peers, counted + {p}, todo - {p});
      actions := two + rest;
      FollowOn(s, two, rest);
      UsualOn(calm, two, rest);
      assert counted + {p} + (todo - {p}) == counted + todo;
    }
  }

  /** A node stands once a majority has granted its probe. */
  lemma StandLeads(calm: bool, c: Cluster, config: Config, n: Id, quorum: set<Id>)
    requires Member(c, config, n) && |config[n]| > 0 && 1 + |quorum| >= MajoritySize(|config[n]| + 1)
    requires forall p :: p in quorum ==> p in config[n] && WouldBack(c, p, BuildPreVoteArgs(c.nodes[n]))
    ensures Leads(calm, c, Next(c, Stand(n)))
  {
    hide Next, Follow, UpToDate;
    var args := BuildPreVoteArgs(c.nodes[n]);
    forall s: System | s.cluster == c
      ensures Goes(calm, s, Next(c, Stand(n)))
    {
      var i := |s.probes|;
      AskOpens(s, config, n);
      FollowOne(s, Ask(n));
      var s1 := Follow(s, [Ask(n)]);
      var grants := CollectGrants(calm, s1, i, n, args, config[n], {}, quorum);
      assert {} + quorum == quorum;
      var s2 := Follow(s1, grants);
      ProceedStands(s2, i, n, args, config[n], quorum);
      FollowOne(s2, Proceed(i));
      FollowOn(s, [Ask(n)], grants);
      FollowOn(s, [Ask(n)] + grants, [Proceed(i)]);
      var actions := [Ask(n)] + grants + [Proceed(i)];
      UsualOn(calm, [Ask(n)], grants);
      UsualOn(calm, [Ask(n)] + grants, [Proceed(i)]);
      assert Follow(s, actions).cluster == Next(c, Stand(n)) && Follow(s, actions).appliers == s.appliers;
    }
  }

  lemma AskOpens(s: System, config: Config, n: Id)
    requires Member(s.cluster, config, n) && |config[n]| > 0
    ensures var s' := Step(s, Ask(n));
            && ProbedBy(s', |s.probes|, n, BuildPreVoteArgs(s.cluster.nodes[n]), config[n], {})
            && s'.cluster == s.cluster && s'.appliers == s.appliers
  {
  }

  lemma ProceedStands(s: System, i: nat, n: Id, args: VoteArgs, peers: seq<Id>, counted: set<Id>)
    requires ProbedBy(s, i, n, args, peers, counted) && 1 + |counted| >= MajoritySize(|peers| + 1)
    ensures Step(s, Proceed(i)).cluster == Next(s.cluster, Stand(n)) && Step(s, Proceed(i)).appliers == s.appliers
  {
    hide Next;
  }

  /** Those who would vote for the node back its probe as well. */
  lemma VotersBack(c: Cluster, config: Config, n: Id, voters: set<Id>)
    requires Member(c, config, n) && forall w :: w in voters ==> Willing(c, config, w, NextArgs(c.nodes[n]))
    ensures forall w :: w in voters ==> WouldBack(c, w, BuildPreVoteArgs(c.nodes[n]))
  {
  }

  /** Any node that is not a leader wins the next term, given a majority that would vote for it. */
  lemma WinElection(calm: bool, c: Cluster, config: Config, n: Id, voters: set<Id>) returns (c': Cluster, round: nat)
    requires ValidConfig(config) && Member(c, config, n) && c.nodes[n].role != Leader
    requires voters != {} && n !in voters && voters <= config.Keys && 1 + |voters| == MajoritySize(|config.Keys|)
    requires forall w :: w in voters ==> Willing(c, config, w, NextArgs(c.nodes[n]))
    ensures Leads(calm, c, c') && Same(c, c', voters + {n})
    ensures FreshLeader(c', config, n) && c'.nodes[n].term == c.nodes[n].term + 1
    ensures c'.nodes[n].log == c.nodes[n].log && c'.nodes[n].commitIndex == c.nodes[n].commitIndex
    ensures forall w :: w in voters ==> HasVoted(c, c', config, w, c.nodes[n].term + 1)
    ensures forall p :: p in config[n] ==> VoteRequest(p, round, NextArgs(c.nodes[n])) in c'.messages
  {
    hide Next, Leads, Willing, HasVoted, ValidConfig, Same, FreshLeader;
    PeersOf(config, n);
    StandWorks(c, config, n);
    VotersBack(c, config, n, voters);
    StandLeads(calm, c, config, n, voters);
    var c1 := Next(c, Stand(n));
    LaunchWorks(c1, config, n);
    LeadsToNext(calm, c, c1, Launch(n));
    var c2 := Next(c1, Launch(n));
    round := |c1.rounds|;
    var args := NextArgs(c.nodes[n]);
    assert BuildVoteArgs(c2.nodes[n]) == args;
    SameOn(c, c1, c2, {n}, {}, {n});
    StillWilling(c, c2, config, n, n, args, voters) by {
      assert {n, n} == {n};
    }
    c' := CollectVotes(calm, c2, config, n, round, args, {}, voters);
    LeadsOn(calm, c, c2, c');
    SameOn(c, c2, c', {n}, voters + {n}, voters + {n});
    VotedSince(c, c2, c', config, n, voters, args.term);
    RequestsStay(c2, c', config, n, round, args, voters + {n});
  }

  lemma VotedSince(c: Cluster, c1: Cluster, c': Cluster, config: Config, n: Id, voters: set<Id>, term: nat)
    requires Same(c, c1, {n}) && n !in voters && forall w :: w in voters ==> HasVoted(c1, c', config, w, term)
    ensures forall w :: w in voters ==> HasVoted(c, c', config, w, term)
  {
    hide Voted;
  }

  lemma RequestsStay(c: Cluster, c': Cluster, config: Config, n: Id, round: nat, args: VoteArgs, except: set<Id>)
    requires Same(c, c', except) && n in config && forall p :: p in config[n] ==> VoteRequest(p, round, args) in c.messages
    ensures forall p :: p in config[n] ==> VoteRequest(p, round, args) in c'.messages
  {
  }

  /** A failed quorum check: the leader steps down within its term and its vote is free again. */
  lemma StepDownWorks(c: Cluster, config: Config, n: Id)
    requires Member(c, config, n) && c.nodes[n].role == Leader && MajoritySize(|config[n]| + 1) > 1
    ensures var c' := Next(c, QuorumCheck(n, 1));
            && Same(c, c', {n}) && Member(c', config, n) && Unmoved(c.nodes[n], c'.nodes[n])
            && c'.nodes[n].role == Follower && c'.nodes[n].votedFor == ""
  {
  }

  lemma {:induction false} Pick(s: set<Id>, size: nat) returns (part: set<Id>)
    requires size <= |s|
    ensures part <= s && |part| == size
  {
    if size == 0 {
      part := {};
    } else {
      var x :| x in s;
      part := Pick(s - {x}, size - 1);
      part := part + {x};
    }
  }

  /** An odd membership as two nodes and two groups that are each one short of a majority. */
  lemma SplitOdd(config: Config) returns (a: Id, b: Id, first: set<Id>, others: set<Id>)
    requires |config.Keys| % 2 == 1 && |config.Keys| >= 3
    ensures a in config && b in config && a != b
    ensures config.Keys == {a, b} + first + others
    ensures a !in first + others && b !in first + others && first !! others && first != {}
    ensures 1 + |first| == MajoritySize(|config.Keys|) && 2 + |others| == MajoritySize(|config.Keys|)
  {
    var members := config.Keys;
    var half := |members| / 2;
    a :| a in members;
    assert |members - {a}| == |members| - 1;
    first := Pick(members - {a}, half);
    var second := members - {a} - first;
    assert |second| == half;
    b :| b in second;
    others := second - {b};
    assert |others| == half - 1;
  }
}
