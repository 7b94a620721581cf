/**
 The pre-vote phase of section 9.6 of Ongaro's dissertation: a node probes its
 peers with the term it would use, and stands only after a majority granted one
 probe round. Sessions with probes are runs without them (Program.SessionIsRun).
 */
module PreVote {
  import opened Entries
  import opened Logs
  import opened Quorums
  import opened Nodes
  import opened Cluster
  import opened Program
  import P = Protocol

  // ---------------------------------------------------------------- what a candidacy rests on

  /** At this moment the prober asked, with its own next term and log, the peers it had. */
  ghost predicate AskedAt(config: Config, actions: seq<Action>, j: nat, i: nat, probe: Probe) {
    && j < |actions| && actions[j] == Ask(probe.n)
    && var s := Session(config, actions[..j]);
       && |s.probes| == i && Live(s.cluster, probe.n)
       && probe.args == BuildPreVoteArgs(s.cluster.nodes[probe.n]) && probe.peers == s.cluster.nodes[probe.n].peers
  }

  /** At this moment the peer, not hearing from a leader, found the prober's log up to date. */
  ghost predicate GrantedAt(config: Config, actions: seq<Action>, j: nat, i: nat, args: VoteArgs, p: Id) {
    && j < |actions| && actions[j] == Answer(i, p, false)
    && var s := Session(config, actions[..j]);
       && i < |s.probes| && s.probes[i].args == args && p in s.probes[i].peers
       && p in s.cluster.nodes && |s.cluster.nodes[p].log| > 0 && UpToDate(args, s.cluster.nodes[p].log)
  }

  ghost predicate ProbeOk(config: Config, actions: seq<Action>, i: nat, probe: Probe) {
    && probe.counted <= probe.granted
    && (exists j: nat :: AskedAt(config, actions, j, i, probe))
    && (forall p :: p in probe.granted ==>
          p in probe.peers && exists j: nat :: GrantedAt(config, actions, j, i, probe.args, p))
  }

  /** The same question, whoever has answered it since. */
  ghost predicate SameQuestion(a: Probe, b: Probe) {
    a.n == b.n && a.args == b.args && a.peers == b.peers
  }

  lemma AskedLater(config: Config, actions: seq<Action>, a: Action, j: nat, i: nat, probe: Probe, probe': Probe)
    requires AskedAt(config, actions, j, i, probe) && SameQuestion(probe, probe')
    ensures AskedAt(config, actions + [a], j, i, probe')
  {
    assert (actions + [a])[..j] == actions[..j];
  }

  lemma GrantedLater(config: Config, actions: seq<Action>, a: Action, j: nat, i: nat, args: VoteArgs, p: Id)
    requires GrantedAt(config, actions, j, i, args, p)
    ensures GrantedAt(config, actions + [a], j, i, args, p)
  {
    assert (actions + [a])[..j] == actions[..j];
  }

  lemma ProbeLater(config: Config, actions: seq<Action>, a: Action, i: nat, probe: Probe)
    requires ProbeOk(config, actions, i, probe)
    ensures ProbeOk(config, actions + [a], i, probe)
  {
    hide GrantedAt, AskedAt;
    var asked: nat :| AskedAt(config, actions, asked, i, probe);
    AskedLater(config, actions, a, asked, i, probe, probe);
    forall p | p in probe.granted
      ensures p in probe.peers && exists j: nat :: GrantedAt(config, actions + [a], j, i, probe.args, p)
    {
      var j: nat :| GrantedAt(config, actions, j, i, probe.args, p);
      GrantedLater(config, actions, a, j, i, probe.args, p);
    }
  }

  lemma NewGrant(config: Config, actions: seq<Action>, i: nat, p: Id, heardLeader: bool)
    requires ProbesOnly(Session(config, actions)) && i < |Session(config, actions).probes|
    requires p in Session(config, actions).probes[i].peers && p in Session(config, actions).cluster.nodes
    requires |Session(config, actions).cluster.nodes[p].log| > 0
    requires var s := Session(config, actions); HandleRequestVote(s.cluster.nodes[p], s.probes[i].args, heardLeader).1.granted
    ensures GrantedAt(config, actions + [Answer(i, p, heardLeader)], |actions|, i, Session(config, actions).probes[i].args, p)
  {
    var all := actions + [Answer(i, p, heardLeader)];
    assert all[..|actions|] == actions;
  }

  lemma QuestionStays(s: System, a: Action, i: nat)
    requires i < |s.probes|
    ensures i < |Step(s, a).probes| && SameQuestion(s.probes[i], Step(s, a).probes[i])
  {
    hide Next, HandleRequestVote, OnApplier, OnSnapshotting, OnCall, Happen;
    if !a.Ask? && !a.Answer? && !a.Count? {
      OthersKeepProbes(s, a);
    }
  }

  lemma ProbeStep(config: Config, actions: seq<Action>, a: Action, i: nat)
    requires ProbesOnly(Session(config, actions)) && i < |Session(config, actions).probes|
    requires ProbeOk(config, actions, i, Session(config, actions).probes[i])
    ensures i < |Step(Session(config, actions), a).probes|
    ensures ProbeOk(config, actions + [a], i, Step(Session(config, actions), a).probes[i])
  {
    hide Next, HandleRequestVote, GrantedAt, AskedAt, Session, OnApplier, OnSnapshotting, OnCall, Happen, SameQuestion;
    var s := Session(config, actions);
    var asked: nat :| AskedAt(config, actions, asked, i, s.probes[i]);
    QuestionStays(s, a, i);
    if !a.Ask? && !a.Answer? && !a.Count? {
      OthersKeepProbes(s, a);
    }
    AskedLater(config, actions, a, asked, i, s.probes[i], Step(s, a).probes[i]);
    ProbeLater(config, actions, a, i, s.probes[i]);
    if a.Answer? && a.probe == i && a.p in s.probes[i].peers && a.p in s.cluster.nodes && |s.cluster.nodes[a.p].log| > 0 {
      if HandleRequestVote(s.cluster.nodes[a.p], s.probes[i].args, a.heardLeader).1.granted {
        NewGrant(config, actions, i, a.p, a.heardLeader);
      }
    }
  }

  lemma {:induction false} ProbesHold(config: Config, actions: seq<Action>, i: nat)
    requires i < |Session(config, actions).probes|
    ensures ProbeOk(config, actions, i, Session(config, actions).probes[i])
  {
    if |actions| > 0 {
      var before := actions[..|actions| - 1];
      var a := actions[|actions| - 1];
      assert before + [a] == actions;
      var s := Session(config, before);
      SessionIsRun(config, before);
      hide Step, GrantedAt, AskedAt;
      if i < |s.probes| {
        ProbesHold(config, before, i);
        ProbeStep(config, before, a, i);
      } else {
        FreshProbe(config, before, a, i);
      }
    }
  }

  lemma FreshProbe(config: Config, actions: seq<Action>, a: Action, i: nat)
    requires |Session(config, actions).probes| <= i < |Step(Session(config, actions), a).probes|
    ensures var probe := Step(Session(config, actions), a).probes[i];
            && probe.granted == {} == probe.counted
            && AskedAt(config, actions + [a], |actions|, i, probe)
  {
    hide Next, HandleRequestVote, OnApplier, OnSnapshotting, OnCall, Happen, Session;
    assert (actions + [a])[..|actions|] == actions;
    if !a.Ask? && !a.Answer? && !a.Count? {
      OthersKeepProbes(Session(config, actions), a);
    }
  }

  // ---------------------------------------------------------------- nothing else stands

  /** The node did not become a candidate in this step. */
  ghost predicate NoCandidacy(n: Node, n': Node) {
    n'.role == Candidate ==> n.role == Candidate && n'.term == n.term
  }

  lemma VotesElectNoCandidate(n: Node, args: VoteArgs, term: nat, votes: nat, reply: VoteReply)
    requires |n.log| > 0
    ensures NoCandidacy(n, HandleRequestVote(n, args, false).0) && NoCandidacy(n, ReceiveVote(n, term, votes, reply).0)
  {
  }

  lemma EntriesElectNoCandidate(n: Node, args: AppendArgs, p: Id, term: nat, reply: AppendReply)
    requires |n.log| > 0
    ensures NoCandidacy(n, HandleAppendEntries(n, args).0) && NoCandidacy(n, ReceiveAppendReply(n, p, term, args, reply))
  {
    hide AppendLoop, Get, FirstIndexForTerm, BackUp, QuorumIndex;
  }

  lemma SnapshotsElectNoCandidate(n: Node, args: SnapshotArgs, p: Id, term: nat, reply: SnapshotReply)
    requires |n.log| > 0
    ensures NoCandidacy(n, HandleInstallSnapshot(n, args).0)
            && NoCandidacy(n, ReceiveSnapshotReply(n, p, term, args, reply))
  {
    hide CompactTo;
  }

  lemma DeliveryElectsNoCandidate(c: Cluster, m: Message, n: Id)
    requires Live(c, Receiver(m)) && n in c.nodes
    ensures n in OnDeliver(c, m).nodes && NoCandidacy(c.nodes[n], OnDeliver(c, m).nodes[n])
  {
    hide HandleRequestVote, ReceiveVote, HandleAppendEntries, ReceiveAppendReply, HandleInstallSnapshot,
         ReceiveSnapshotReply, Holders;
    var node := c.nodes[Receiver(m)];
    match m
    case VoteRequest(_, _, args) => VotesElectNoCandidate(node, args, 0, 0, VoteReply(0, false));
    case VoteAnswer(_, i, args, reply) =>
      if i < |c.rounds| {
        VotesElectNoCandidate(node, args, c.rounds[i].args.term, 1 + |c.rounds[i].granted|, reply);
      }
    case AppendRequest(_, args) => EntriesElectNoCandidate(node, args, "", 0, AppendReply(0, false, 0, 0));
    case AppendAnswer(from, args, reply) => EntriesElectNoCandidate(node, args, from, args.term, reply);
    case SnapshotRequest(_, args) => SnapshotsElectNoCandidate(node, args, "", 0, SnapshotReply(0));
    case SnapshotAnswer(from, args, reply) => SnapshotsElectNoCandidate(node, args, from, args.term, reply);
  }

  /** Only the election timeout makes a candidate. */
  lemma OnlyStandingMakesCandidates(c: Cluster, e: Event, n: Id)
    requires !e.Stand? && n in c.nodes
    ensures n in Next(c, e).nodes && NoCandidacy(c.nodes[n], Next(c, e).nodes[n])
  {
    if e.Deliver? {
      hide OnDeliver;
      if Live(c, Receiver(e.m)) {
        DeliveryElectsNoCandidate(c, e.m, n);
      }
    } else {
      hide Next;
      if e.Crash? || e.CrashFollowing? || e.CrashSaving? || e.CrashInstalling? {
        CrashOutcome(c, e, n);
      } else {
        WorkElectsNoCandidate(c, e, n);
      }
    }
  }

  lemma WorkElectsNoCandidate(c: Cluster, e: Event, n: Id)
    requires n in c.nodes && !e.Stand? && !e.Deliver?
    requires !e.Crash? && !e.CrashFollowing? && !e.CrashSaving? && !e.CrashInstalling?
    ensures n in Next(c, e).nodes && NoCandidacy(c.nodes[n], Next(c, e).nodes[n])
  {
    hide CompactTo, Get, Skews, BuildVoteArgs, BuildArgs, BuildSnapshotArgs, P.Compact, P.LeaderAppend, P.Forget;
  }

  /**
   A node becomes a candidate of a new term only after it asked its peers with its own log, and a majority, itself
   included, granted that probe.
   */
  lemma CandidacyNeedsMajority(config: Config, actions: seq<Action>, a: Action, n: Id)
    requires n in Session(config, actions).cluster.nodes && n in Session(config, actions + [a]).cluster.nodes
    requires !NoCandidacy(Session(config, actions).cluster.nodes[n], Session(config, actions + [a]).cluster.nodes[n])
    ensures a.Proceed? && a.probe < |Session(config, actions).probes|
    ensures var probe := Session(config, actions).probes[a.probe];
            && probe.n == n && (exists j: nat :: AskedAt(config, actions, j, a.probe, probe))
            && 1 + |probe.counted| >= MajoritySize(|probe.peers| + 1)
            && (forall p :: p in probe.counted ==>
                  p in probe.peers && exists j: nat :: GrantedAt(config, actions, j, a.probe, probe.args, p))
  {
    hide Next, GrantedAt, AskedAt;
    var all := actions + [a];
    assert all[..|all| - 1] == actions;
    var s := Session(config, actions);
    SessionIsRun(config, actions);
    StepIsEvent(s, a);
    OnlyProceeding(s, a, n);
    ProbesHold(config, actions, a.probe);
  }

  lemma OnlyProceeding(s: System, a: Action, n: Id)
    requires ProbesOnly(s) && n in s.cluster.nodes
    ensures n in Step(s, a).cluster.nodes
    ensures !NoCandidacy(s.cluster.nodes[n], Step(s, a).cluster.nodes[n]) ==>
              a.Proceed? && a.probe < |s.probes| && Succeeded(s.probes[a.probe]) && s.probes[a.probe].n == n
  {
    hide Next, Step;
    StepIsEvent(s, a);
    if EventOf(s, a) != [] {
      if EventOf(s, a)[0].Stand? {
        StandsAlone(s.cluster, EventOf(s, a)[0].n, n);
      } else {
        OnlyStandingMakesCandidates(s.cluster, EventOf(s, a)[0], n);
      }
    }
  }

  lemma StandsAlone(c: Cluster, x: Id, n: Id)
    requires n in c.nodes
    ensures n in Next(c, Stand(x)).nodes && (n != x ==> Next(c, Stand(x)).nodes[n] == c.nodes[n])
  {
  }
}
