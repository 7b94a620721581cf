/**
 A leader's record of its peers: what a reply confirms, and that nothing confirmed
 is ever taken back while it leads, however replies are lost, repeated or late.
 */
module Confirmations {
  import opened Entries
  import opened Logs
  import opened Nodes
  import opened Cluster
  import opened ClusterInv
  import opened Runs
  import opened Safety
  import opened Program
  import AppendSpec
  import Recovery
  import P = Protocol

  // ---------------------------------------------------------------- replies

  /** An acceptance moves the peer's indices to the furthest confirmed entry; no other peer's move, nor the log. */
  lemma AcceptanceConfirms(l: Node, q: Id, args: AppendArgs, reply: AppendReply)
    requires |l.log| > 0 && l.role == Leader && args.term == l.term && reply.term <= l.term && reply.success
    ensures var l' := ReceiveAppendReply(l, q, args.term, args, reply);
            var m := Max(args.prevIndex + |args.entries|, Index(l.matchIndex, q));
            && Index(l'.matchIndex, q) == m && Index(l'.nextIndex, q) == m + 1
            && (forall p :: p != q ==> Index(l'.matchIndex, p) == Index(l.matchIndex, p) && Index(l'.nextIndex, p) == Index(l.nextIndex, p))
            && l' == l.(matchIndex := l'.matchIndex, nextIndex := l'.nextIndex, commitIndex := l'.commitIndex)
            && l'.commitIndex >= l.commitIndex
  {
    hide QuorumIndex, Get;
  }

  /** A rejection moves nextIndex of that peer and nothing else. */
  lemma RejectionConfirmsNothing(l: Node, q: Id, args: AppendArgs, reply: AppendReply)
    requires |l.log| > 0 && l.role == Leader && args.term == l.term && reply.term <= l.term && !reply.success
    ensures var l' := ReceiveAppendReply(l, q, args.term, args, reply);
            && l' == l.(nextIndex := l'.nextIndex)
            && forall p :: p != q ==> Index(l'.nextIndex, p) == Index(l.nextIndex, p)
  {
    hide BackUp;
  }

  // ---------------------------------------------------------------- one step of a leader

  /** Who leads after a step led before it or was a candidate of the same term; who led before takes nothing back. */
  ghost predicate Leading(x: Node, x': Node) {
    x'.role == Leader ==>
      && x'.term == x.term && (x.role == Leader || x.role == Candidate)
      && (x.role == Leader ==> forall p :: Index(x'.matchIndex, p) >= Index(x.matchIndex, p))
  }

  lemma VotingLeads(x: Node, args: VoteArgs, asked: nat, votes: nat, reply: VoteReply)
    requires |x.log| > 0
    ensures Leading(x, HandleRequestVote(x, args, false).0) && Leading(x, ReceiveVote(x, asked, votes, reply).0)
  {
    hide UpToDate, Filled;
  }

  lemma HandlersLead(x: Node, append: AppendArgs, snapshot: SnapshotArgs)
    requires |x.log| > 0
    ensures Leading(x, HandleAppendEntries(x, append).0) && Leading(x, HandleInstallSnapshot(x, snapshot).0)
  {
    hide AppendLoop, Get, FirstIndexForTerm, CompactTo;
  }

  lemma RepliesLead(x: Node, p: Id, asked: nat, append: AppendArgs, appended: AppendReply, snapshot: SnapshotArgs,
        installed: SnapshotReply)
    requires |x.log| > 0
    ensures Leading(x, ReceiveAppendReply(x, p, asked, append, appended))
    ensures Leading(x, ReceiveSnapshotReply(x, p, asked, snapshot, installed))
  {
    hide BackUp, QuorumIndex, Get;
  }

  lemma DeliveryLeads(c: Cluster, m: Message, n: Id)
    requires Live(c, Receiver(m)) && n in c.nodes
    ensures n in OnDeliver(c, m).nodes && (n == Receiver(m) || OnDeliver(c, m).nodes[n] == c.nodes[n])
    ensures Leading(c.nodes[n], OnDeliver(c, m).nodes[n]) || OnDeliver(c, m).nodes[n] == c.nodes[n]
  {
    hide HandleRequestVote, ReceiveVote, HandleAppendEntries, ReceiveAppendReply, HandleInstallSnapshot,
         ReceiveSnapshotReply, Holders, Leading;
    var x := c.nodes[Receiver(m)];
    var noAppend, noSnapshot := AppendArgs(0, "", 0, 0, [], 0), SnapshotArgs(0, "", 0, 0, map[]);
    match m
    case VoteRequest(_, _, args) => VotingLeads(x, args, 0, 0, VoteReply(0, false));
    case VoteAnswer(_, i, args, reply) =>
      if i < |c.rounds| {
        VotingLeads(x, args, c.rounds[i].args.term, 1 + |c.rounds[i].granted|, reply);
      }
    case AppendRequest(_, args) => HandlersLead(x, args, noSnapshot);
    case SnapshotRequest(_, args) => HandlersLead(x, noAppend, args);
    case AppendAnswer(from, args, reply) => RepliesLead(x, from, args.term, args, reply, noSnapshot, SnapshotReply(0));
    case SnapshotAnswer(from, args, reply) => RepliesLead(x, from, args.term, noAppend, AppendReply(0, false, 0, 0), args, reply);
  }

  // ---------------------------------------------------------------- other events

  lemma WorkLeads(c: Cluster, e: Event, n: Id)
    requires n in c.nodes && !e.Deliver? && !e.Crash? && !e.CrashFollowing? && !e.CrashSaving? && !e.CrashInstalling?
    ensures n in Next(c, e).nodes && (Leading(c.nodes[n], Next(c, e).nodes[n]) || Next(c, e).nodes[n] == c.nodes[n])
  {
    hide Skews, BuildVoteArgs, BuildArgs, BuildSnapshotArgs, P.Compact, P.Stand, P.LeaderAppend, P.Forget, CompactTo, Get;
  }

  /** No event makes a leader of anything but a candidate, or takes a confirmation back from one. */
  lemma NextLeads(c: Cluster, e: Event, n: Id)
    requires n in c.nodes
    ensures n in Next(c, e).nodes
    ensures Leading(c.nodes[n], Next(c, e).nodes[n]) || Next(c, e).nodes[n] == c.nodes[n]
  {
    if e.Deliver? {
      hide OnDeliver, Leading;
      if e.m in c.messages && Live(c, Receiver(e.m)) {
        DeliveryLeads(c, e.m, n);
      }
    } else {
      hide Next;
      if e.Crash? || e.CrashFollowing? || e.CrashSaving? || e.CrashInstalling? {
        CrashOutcome(c, e, n);
      } else {
        WorkLeads(c, e, n);
      }
    }
  }

  // ---------------------------------------------------------------- the commit index

  lemma HandlersKeepCommit(x: Node, vote: VoteArgs, append: AppendArgs, snapshot: SnapshotArgs)
    requires |x.log| > 0
    ensures HandleRequestVote(x, vote, false).0.commitIndex == x.commitIndex
    ensures !HandleAppendEntries(x, append).1.success ==> HandleAppendEntries(x, append).0.commitIndex == x.commitIndex
    ensures HandleInstallSnapshot(x, snapshot).0.commitIndex >= x.commitIndex
  {
    hide HandleRequestVote, AppendLoop, Get, FirstIndexForTerm, CompactTo, LastIndex;
    VotingKeepsCommit(x, vote);
  }

  lemma VotingKeepsCommit(x: Node, vote: VoteArgs)
    requires |x.log| > 0
    ensures HandleRequestVote(x, vote, false).0.commitIndex == x.commitIndex
  {
    hide UpToDate;
  }

  lemma RepliesKeepCommit(x: Node, p: Id, asked: nat, votes: nat, vote: VoteReply, append: AppendArgs, appended: AppendReply,
        snapshot: SnapshotArgs, installed: SnapshotReply)
    requires |x.log| > 0
    ensures ReceiveVote(x, asked, votes, vote).0.commitIndex == x.commitIndex
    ensures ReceiveAppendReply(x, p, asked, append, appended).commitIndex >= x.commitIndex
    ensures ReceiveSnapshotReply(x, p, asked, snapshot, installed).commitIndex == x.commitIndex
  {
    hide BackUp, QuorumIndex, Get;
  }

  lemma DeliveryKeepsCommit(c: Cluster, m: Message, n: Id)
    requires Live(c, Receiver(m)) && n in c.nodes
    requires m.AppendRequest? && HandleAppendEntries(c.nodes[m.to], m.append).1.success ==>
               HandleAppendEntries(c.nodes[m.to], m.append).0.commitIndex >= c.nodes[m.to].commitIndex
    ensures n in OnDeliver(c, m).nodes && OnDeliver(c, m).nodes[n].commitIndex >= c.nodes[n].commitIndex
  {
    hide HandleRequestVote, ReceiveVote, HandleAppendEntries, ReceiveAppendReply, HandleInstallSnapshot,
         ReceiveSnapshotReply, Holders;
    var x := c.nodes[Receiver(m)];
    var noVote, noAppend, noSnapshot := VoteArgs(0, "", 0, 0, false), AppendArgs(0, "", 0, 0, [], 0), SnapshotArgs(0, "", 0, 0, map[]);
    match m
    case VoteRequest(_, _, args) => HandlersKeepCommit(x, args, noAppend, noSnapshot);
    case AppendRequest(_, args) => HandlersKeepCommit(x, noVote, args, noSnapshot);
    case SnapshotRequest(_, args) => HandlersKeepCommit(x, noVote, noAppend, args);
    case VoteAnswer(_, i, _, reply) =>
      if i < |c.rounds| {
        RepliesKeepCommit(x, "", c.rounds[i].args.term, 1 + |c.rounds[i].granted|, reply, noAppend, AppendReply(0, false, 0, 0),
                          noSnapshot, SnapshotReply(0));
      }
    case AppendAnswer(from, args, reply) =>
      RepliesKeepCommit(x, from, args.term, 0, VoteReply(0, false), args, reply, noSnapshot, SnapshotReply(0));
    case SnapshotAnswer(from, args, reply) =>
      RepliesKeepCommit(x, from, args.term, 0, VoteReply(0, false), noAppend, AppendReply(0, false, 0, 0), args, reply);
  }

  lemma WorkKeepsCommit(c: Cluster, e: Event, n: Id)
    requires n in c.nodes && !e.Deliver? && !e.Crash? && !e.CrashFollowing? && !e.CrashSaving? && !e.CrashInstalling?
    ensures n in Next(c, e).nodes && Next(c, e).nodes[n].commitIndex == c.nodes[n].commitIndex
  {
    hide Skews, BuildVoteArgs, BuildArgs, BuildSnapshotArgs, P.Compact, P.Stand, P.LeaderAppend, P.Forget, CompactTo, Get;
  }

  /** In every run a commit index falls only where its node's process ends. */
  lemma CommitNeverFalls(config: Config, events: seq<Event>, e: Event, n: Id)
    requires ValidConfig(config) && VotesKept(config, events)
    requires n in Run(config, events).nodes && !(Crashes(Run(config, events), e) && Victim(e) == n)
    ensures var c, c' := Run(config, events), Next(Run(config, events), e);
            n in c'.nodes && c'.nodes[n].commitIndex >= c.nodes[n].commitIndex
  {
    hide Run, ValidConfig, Runs.VotesKept, AppendSpec.Follows;
    var c := Run(config, events);
    if e.Deliver? {
      hide OnDeliver, HandleAppendEntries;
      if e.m in c.messages && Live(c, Receiver(e.m)) {
        if e.m.AppendRequest? {
          AppendSpec.AcceptedMessage(config, events, e.m.to, e.m.append);
        }
        DeliveryKeepsCommit(c, e.m, n);
      }
    } else {
      hide Next;
      if e.Crash? || e.CrashFollowing? || e.CrashSaving? || e.CrashInstalling? {
        CrashOutcome(c, e, n);
      } else {
        WorkKeepsCommit(c, e, n);
      }
    }
  }

  // ---------------------------------------------------------------- a term of office

  /** Within the term it won a node is never a candidate again. */
  lemma NoSecondCandidacy(c: Cluster, n: Id, t: nat)
    requires Good(c) && n in c.nodes && c.nodes[n].term == t && t in c.history.elected && c.history.elected[t].leader == n
    ensures c.nodes[n].role != Candidate
  {
    hide Good, P.PeerLogOk, Replayed, Applied;
    NodeFacts(c, n);
  }

  lemma WonTerm(c: Cluster, n: Id)
    requires Good(c) && n in c.nodes && c.nodes[n].role == Leader
    ensures c.nodes[n].term in c.history.elected && c.history.elected[c.nodes[n].term].leader == n
  {
    hide Good, P.PeerLogOk, Replayed, Applied;
    NodeFacts(c, n);
  }

  /** In one term of office matchIndex and the commit index of a leader only grow. */
  lemma {:induction false} ConfirmationsStay(config: Config, events: seq<Event>, more: seq<Event>, n: Id, q: Id)
    requires ValidConfig(config) && VotesKept(config, events + more)
    requires n in Run(config, events).nodes && n in Run(config, events + more).nodes
    requires Run(config, events).nodes[n].role == Run(config, events + more).nodes[n].role == Leader
    requires Run(config, events).nodes[n].term == Run(config, events + more).nodes[n].term
    ensures var l, l' := Run(config, events).nodes[n], Run(config, events + more).nodes[n];
            Index(l'.matchIndex, q) >= Index(l.matchIndex, q) && l'.commitIndex >= l.commitIndex
    decreases |more|
  {
    hide Good, Next, ValidConfig, Runs.VotesKept, Grows;
    if |more| == 0 {
      assert events + more == events;
    } else {
      var less, e := more[..|more| - 1], more[|more| - 1];
      assert events + more == (events + less) + [e];
      KeptEarlier(config, events + less, [e]);
      assert (events + more)[..|events + more| - 1] == events + less;
      Recovery.RunDurable(config, events, less, n);
      Recovery.RunDurable(config, events + less, [e], n);
      LedThroughout(config, events, less, n);
      NextLeads(Run(config, events + less), e, n);
      CommitStays(config, events + less, e, n);
      ConfirmationsStay(config, events, less, n, q);
    }
  }

  lemma CommitStays(config: Config, events: seq<Event>, e: Event, n: Id)
    requires ValidConfig(config) && VotesKept(config, events)
    requires n in Run(config, events).nodes && n in Next(Run(config, events), e).nodes
    requires Next(Run(config, events), e).nodes[n].role == Leader
    ensures Next(Run(config, events), e).nodes[n].commitIndex >= Run(config, events).nodes[n].commitIndex
  {
    hide Run, Next, ValidConfig, Runs.VotesKept;
    var c := Run(config, events);
    if Crashes(c, e) && Victim(e) == n {
      CrashOutcome(c, e, n);
    } else {
      CommitNeverFalls(config, events, e, n);
    }
  }

  lemma LedThroughout(config: Config, events: seq<Event>, more: seq<Event>, n: Id)
    requires ValidConfig(config) && VotesKept(config, events + more)
    requires n in Run(config, events).nodes && n in Run(config, events + more).nodes
    requires Run(config, events).nodes[n].role == Leader
    requires Run(config, events).nodes[n].term == Run(config, events + more).nodes[n].term
    ensures Run(config, events + more).nodes[n].role != Candidate
  {
    hide Run, Good, ValidConfig, Runs.VotesKept, Durable;
    RunGrows(config, events, more);
    WonTerm(Run(config, events), n);
    NoSecondCandidacy(Run(config, events + more), n, Run(config, events).nodes[n].term);
  }
}
