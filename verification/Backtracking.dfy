/**
 Fast backtracking of section 5.3: with a stable leader and uncompacted logs, how
 far each rejection moves nextIndex and how many rejections there can be.
 */
module Backtracking {
  import opened Entries
  import opened Logs
  import opened Nodes
  import opened Protocol
  import opened ProtocolFacts
  import opened ClusterAppends
  import opened Cluster
  import opened ClusterInv
  import opened Runs
  import opened Safety
  import Quorums

  /** Length of the longest common prefix. */
  function Lcp(a: seq<LogEntry>, b: seq<LogEntry>): (k: nat)
    ensures k <= |a| && k <= |b| && a[..k] == b[..k]
    ensures k < |a| && k < |b| ==> a[k] != b[k]
  {
    if |a| == 0 || |b| == 0 || a[0] != b[0] then 0
    else
      var k := 1 + Lcp(a[1..], b[1..]);
      assert a[..k] == [a[0]] + a[1..][..k - 1];
      assert b[..k] == [b[0]] + b[1..][..k - 1];
      k
  }

  lemma LcpAgrees(a: seq<LogEntry>, b: seq<LogEntry>, i: nat)
    requires i < |a| && i < |b|
    ensures i < Lcp(a, b) ==> a[i] == b[i]
  {
    var k := Lcp(a, b);
    assert a[..k] == b[..k];
    if i < k {
      assert a[..k][i] == b[..k][i];
    }
  }

  /** Both logs are prefixes of leaders' logs: what the per-term leader logs give. */
  ghost predicate Related(elected: map<nat, Election>, ll: LeaderLogs, lead: seq<LogEntry>, log: seq<LogEntry>) {
    && elected.Keys == ll.Keys && LeaderLogsOk(elected, ll)
    && Clean(ll, lead) && Clean(ll, log)
    && WellIndexed(lead) && WellIndexed(log)
    && (forall i :: 0 <= i < |lead| ==> lead[i].term > 0)
    && (forall i :: 0 <= i < |log| ==> log[i].term > 0)
  }

  /** What the two logs' common origin means for them alone. */
  ghost predicate Decided(lead: seq<LogEntry>, log: seq<LogEntry>) {
    && Monotone(lead) && Monotone(log)
    && (forall i :: 0 <= i < |lead| ==> lead[i].term > 0)
    && (forall i :: 0 <= i < |log| ==> log[i].term > 0)
    && (forall i, j :: 0 <= i < |log| && i <= j < |lead| && log[i].term == lead[j].term ==> log[i] == lead[i])
    && (forall i :: 0 <= i < |log| && i < |lead| && log[i].term == lead[i].term ==> log[..i + 1] == lead[..i + 1])
  }

  lemma DecidedAt(lead: seq<LogEntry>, log: seq<LogEntry>, i: nat, j: nat)
    requires Decided(lead, log) && i < |log| && i < |lead| && j < |lead|
    ensures i <= j && log[i].term == lead[j].term ==> log[i] == lead[i]
  {
  }

  /** Pairwise Log Matching is not enough here: a term found later in one log decides earlier entries. */
  lemma RelatedIsDecided(elected: map<nat, Election>, ll: LeaderLogs, lead: seq<LogEntry>, log: seq<LogEntry>)
    requires Related(elected, ll, lead, log)
    ensures Decided(lead, log)
  {
    hide LeaderLogsOk;
    CleanPrefix(elected, ll, lead, 0);
    CleanPrefix(elected, ll, log, 0);
    forall i, j | 0 <= i < |log| && i <= j < |lead| && log[i].term == lead[j].term
      ensures log[i] == lead[i]
    {
      CleanPrefix(elected, ll, lead, j + 1);
      CleanPrefix(elected, ll, log, i + 1);
      var u := log[i].term;
      assert LastTermOf(lead[..j + 1]) == u == LastTermOf(log[..i + 1]);
      assert ll[u][i] == lead[..j + 1][i] && ll[u][i] == log[..i + 1][i];
    }
    forall i | 0 <= i < |log| && i < |lead| && log[i].term == lead[i].term
      ensures log[..i + 1] == lead[..i + 1]
    {
      AgreeAt(elected, ll, log, lead, i + 1);
    }
  }

  // ---------------------------------------------------------------- the two scans

  /** The follower's scan: the first index of the conflicting term. */
  lemma FirstIndexInLog(log: seq<LogEntry>, term: nat, at: nat) returns (first: nat)
    requires WellIndexed(log) && term > 0 && 1 <= at <= |log| && log[at - 1].term == term
    ensures 1 <= first <= at && first == FirstIndexForTerm(Compacted(log, 0), term)
    ensures log[first - 1].term == term && forall i :: 0 <= i < first - 1 ==> log[i].term != term
    decreases at
  {
    if i :| 0 <= i < at - 1 && log[i].term == term {
      first := FirstIndexInLog(log, term, i + 1);
    } else {
      first := at;
      FirstIndexSkips([Sentinel(0, 0)] + log, term, at);
    }
  }

  lemma {:induction false} FirstIndexSkips(es: seq<LogEntry>, term: nat, at: nat)
    requires at < |es| && es[at].term == term && forall i :: 0 <= i < at ==> es[i].term != term
    ensures FirstIndexForTerm(es, term) == es[at].index
  {
    if at > 0 {
      assert es[0].term != term;
      FirstIndexSkips(es[1..], term, at - 1);
    }
  }

  /** The leader's scan: the last index of the term, or 0. */
  lemma {:induction false} LastIndexInLog(lead: seq<LogEntry>, term: nat, from: nat)
    requires term > 0 && from <= |lead|
    ensures var found := LastIndexForTerm(Compacted(lead, 0), term, from);
            && found <= from
            && (found > 0 ==> lead[found - 1].term == term)
            && forall i :: found <= i < from ==> lead[i].term != term
  {
    if from > 0 {
      GetCompacted(lead, 0, from);
      if lead[from - 1].term != term {
        LastIndexInLog(lead, term, from - 1);
      }
    }
  }

  // ---------------------------------------------------------------- one rejection

  /** The follower has an entry at the previous index of a message starting at `next` and the leader not the same. */
  ghost predicate Mismatch(lead: seq<LogEntry>, log: seq<LogEntry>, next: nat) {
    1 <= next - 1 <= |log| && (next - 1 <= |lead| ==> log[next - 2].term != lead[next - 2].term)
  }

  /** The reply of a follower whose log disagrees there. */
  function ConflictReply(log: seq<LogEntry>, next: nat, term: nat): AppendReply
    requires 1 <= next - 1 <= |log|
  {
    var t := log[next - 2].term;
    AppendReply(term, false, t, FirstIndexForTerm(Compacted(log, 0), t))
  }

  /** The leader's last entry of the conflicting term lies before the mismatch, not after it. */
  lemma FoundBelow(lead: seq<LogEntry>, log: seq<LogEntry>, next: nat, found: nat)
    requires Decided(lead, log) && Mismatch(lead, log, next)
    requires 1 <= found <= |lead|
    ensures lead[found - 1].term == log[next - 2].term ==> found < next - 1
  {
    if next - 1 <= |lead| {
      DecidedAt(lead, log, next - 2, found - 1);
    }
  }

  /** A mismatch lies past the common prefix. */
  lemma MismatchPastPrefix(lead: seq<LogEntry>, log: seq<LogEntry>, next: nat)
    requires Mismatch(lead, log, next)
    ensures Lcp(lead, log) < next - 1
  {
    if next - 1 <= |lead| {
      LcpAgrees(lead, log, next - 2);
    }
  }

  /** Just after the leader's last entry of the conflicting term. */
  lemma FoundPastPrefix(lead: seq<LogEntry>, log: seq<LogEntry>, next: nat, found: nat)
    requires Decided(lead, log) && Mismatch(lead, log, next)
    requires 1 <= found < next - 1 && found <= |lead| && lead[found - 1].term == log[next - 2].term
    requires forall i :: found <= i < |lead| ==> lead[i].term != log[next - 2].term
    ensures Lcp(lead, log) < found + 1
    ensures Mismatch(lead, log, found + 1) ==> log[found - 1].term < log[next - 2].term
  {
    assert log[found - 1].term <= log[next - 2].term;
    if found < |lead| {
      LcpAgrees(lead, log, found);
      assert lead[found - 1].term <= lead[found].term;
      assert log[found].term <= log[next - 2].term;
    }
  }

  /** At the follower's first entry of a term the leader never had. */
  lemma NotFoundPastPrefix(lead: seq<LogEntry>, log: seq<LogEntry>, next: nat, first: nat)
    requires Decided(lead, log) && Mismatch(lead, log, next)
    requires 1 <= first <= next - 1 && log[first - 1].term == log[next - 2].term
    requires forall i :: 0 <= i < first - 1 ==> log[i].term != log[next - 2].term
    requires forall i :: 0 <= i < |lead| ==> lead[i].term != log[next - 2].term
    ensures Lcp(lead, log) < first
    ensures Mismatch(lead, log, first) ==> log[first - 2].term < log[next - 2].term
  {
    if first <= |lead| {
      LcpAgrees(lead, log, first - 1);
    }
    if first >= 2 {
      assert log[first - 2].term <= log[next - 2].term;
    }
  }

  /** A mismatch moves nextIndex back, never past the common prefix, and to an older term. */
  lemma MismatchBacksUp(lead: seq<LogEntry>, log: seq<LogEntry>, next: nat, term: nat)
    requires Decided(lead, log) && WellIndexed(log) && Mismatch(lead, log, next)
    ensures var next' := BackUp(Compacted(lead, 0), ConflictReply(log, next, term));
            && Lcp(lead, log) < next' < next
            && next' <= |log| + 1
            && (Mismatch(lead, log, next') ==> log[next' - 2].term < log[next - 2].term)
  {
    var t := log[next - 2].term;
    var first := FirstIndexInLog(log, t, next - 1);
    LastCompacted(lead, 0);
    LastIndexInLog(lead, t, |lead|);
    MismatchPastPrefix(lead, log, next);
    var found := LastIndexForTerm(Compacted(lead, 0), t, |lead|);
    if found > 0 {
      FoundBelow(lead, log, next, found);
      FoundPastPrefix(lead, log, next, found);
    } else {
      NotFoundPastPrefix(lead, log, next, first);
    }
  }

  // ---------------------------------------------------------------- one round trip

  /** The leader sends to the peer, the peer answers, the leader takes the answer in. */
  function Round(l: Node, f: Node, p: Id): (Node, Node, bool)
    requires |l.log| > 0 && |f.log| > 0 && !NeedsSnapshot(l, p)
  {
    var args := BuildArgs(l, p);
    var (f', reply) := HandleAppendEntries(f, args);
    (ReceiveAppendReply(l, p, l.term, args, reply), f', reply.success)
  }

  /** A stable leader bringing one follower into step, no log compacted. */
  ghost predicate Chasing(l: Node, f: Node, p: Id, lead: seq<LogEntry>, log: seq<LogEntry>) {
    && l.role == Leader && f.term <= l.term
    && l.log == Compacted(lead, 0) && f.log == Compacted(log, 0)
    && WellIndexed(lead) && WellIndexed(log) && Decided(lead, log)
    && Index(l.nextIndex, p) >= 1
  }

  /** The message starts after `next - 1`; past the leader's own end it carries no term and no entries. */
  lemma RequestBuilt(l: Node, p: Id, lead: seq<LogEntry>)
    requires l.log == Compacted(lead, 0) && 1 <= Index(l.nextIndex, p)
    ensures !NeedsSnapshot(l, p)
    ensures var prev := Index(l.nextIndex, p) - 1;
            BuildArgs(l, p) == AppendArgs(l.term, l.id, prev, if prev <= |lead| then TermAt(lead, prev) else 0,
                                          if prev <= |lead| then lead[prev..] else [], l.commitIndex)
  {
    var next := Index(l.nextIndex, p);
    LastCompacted(lead, 0);
    GetCompacted(lead, 0, next - 1);
    SliceCompacted(lead, 0, next);
  }

  /** The follower's answer, and what it keeps. */
  lemma FollowerAnswers(f: Node, log: seq<LogEntry>, args: AppendArgs)
    requires f.log == Compacted(log, 0) && f.term <= args.term
    requires forall i :: 0 <= i < |log| ==> log[i].term > 0
    ensures var (f', reply) := HandleAppendEntries(f, args);
            && f'.term == args.term == reply.term
            && (reply.success <==> args.prevIndex == 0 || (args.prevIndex <= |log| && log[args.prevIndex - 1].term == args.prevTerm))
            && (reply.success ==> f'.log == AppendLoop(f.log, args.entries))
            && (!reply.success ==> f'.log == f.log)
            && (!reply.success && args.prevIndex > |log| ==> reply == AppendReply(args.term, false, 0, |log| + 1))
            && (!reply.success && args.prevIndex <= |log| ==> reply == ConflictReply(log, args.prevIndex + 1, args.term))
  {
    hide AppendLoop, FirstIndexForTerm, Get, Compacted, LastIndex;
    GetCompacted(log, 0, args.prevIndex);
    LastCompacted(log, 0);
  }

  /** A round either ends with the follower holding the leader's log, or backs up. */
  lemma RoundOutcome(l: Node, f: Node, p: Id, lead: seq<LogEntry>, log: seq<LogEntry>)
    requires Chasing(l, f, p, lead, log)
    ensures |l.log| > 0 && |f.log| > 0 && !NeedsSnapshot(l, p) && Index(l.nextIndex, p) >= 1 && Monotone(log)
    ensures var (l', f', accepted) := Round(l, f, p);
            && (accepted ==> f'.log == Compacted(Adopt(log, lead), 0))
            && (!accepted ==>
                  && Chasing(l', f', p, lead, log)
                  && Lcp(lead, log) < Index(l'.nextIndex, p) < Index(l.nextIndex, p)
                  && Index(l'.nextIndex, p) <= |log| + 1)
            && (!accepted && Index(l.nextIndex, p) <= |log| + 1 ==>
                  && Mismatch(lead, log, Index(l.nextIndex, p))
                  && (Mismatch(lead, log, Index(l'.nextIndex, p)) ==>
                        log[Index(l'.nextIndex, p) - 2].term < log[Index(l.nextIndex, p) - 2].term))
  {
    hide HandleAppendEntries, AppendLoop, Decided, Compacted, BuildArgs, BackUp, ConflictReply, MaybeCommit;
    var next := Index(l.nextIndex, p);
    RequestBuilt(l, p, lead);
    var args := BuildArgs(l, p);
    Positive(lead, log);
    FollowerAnswers(f, log, args);
    var (f', reply) := HandleAppendEntries(f, args);
    if reply.success {
      Accepted(lead, log, next);
    } else {
      Rejected(lead, log, next, reply);
    }
  }

  lemma Positive(lead: seq<LogEntry>, log: seq<LogEntry>)
    requires Decided(lead, log)
    ensures forall i :: 0 <= i < |lead| ==> lead[i].term > 0
    ensures forall i :: 0 <= i < |log| ==> log[i].term > 0
    ensures Monotone(log)
  {
  }

  lemma Accepted(lead: seq<LogEntry>, log: seq<LogEntry>, next: nat)
    requires Decided(lead, log) && WellIndexed(lead) && WellIndexed(log) && 1 <= next <= |lead| + 1
    requires next == 1 || (next - 1 <= |log| && log[next - 2].term == TermAt(lead, next - 1))
    ensures AppendLoop(Compacted(log, 0), lead[next - 1..]) == Compacted(Adopt(log, lead), 0)
  {
    hide AppendLoop, Adopt, Compacted;
    assert log[..next - 1] == lead[..next - 1];
    assert lead[..|lead|] == lead && lead[next - 1..|lead|] == lead[next - 1..];
    AppendLoopAdopts(log, 0, lead, next - 1, |lead|);
  }

  lemma Rejected(lead: seq<LogEntry>, log: seq<LogEntry>, next: nat, reply: AppendReply)
    requires Decided(lead, log) && WellIndexed(log) && next > 1
    requires next - 1 <= |log| && next - 1 <= |lead| ==> log[next - 2].term != TermAt(lead, next - 1)
    requires reply == if next - 1 > |log| then AppendReply(reply.term, false, 0, |log| + 1) else ConflictReply(log, next, reply.term)
    ensures var next' := BackUp(Compacted(lead, 0), reply);
            && Lcp(lead, log) < next' < next && next' <= |log| + 1
            && (next - 1 <= |log| ==>
                  && Mismatch(lead, log, next)
                  && (Mismatch(lead, log, next') ==> log[next' - 2].term < log[next - 2].term))
  {
    hide Decided, ConflictReply, Compacted;
    if next - 1 <= |log| {
      hide BackUp;
      MismatchBacksUp(lead, log, next, reply.term);
    }
  }

  // ---------------------------------------------------------------- how many rounds

  /** Rejections before the follower first accepts. */
  ghost function Rejections(l: Node, f: Node, p: Id, lead: seq<LogEntry>, log: seq<LogEntry>): nat
    requires Chasing(l, f, p, lead, log)
    decreases Index(l.nextIndex, p)
  {
    RoundOutcome(l, f, p, lead, log);
    var (l', f', accepted) := Round(l, f, p);
    if accepted then 0 else 1 + Rejections(l', f', p, lead, log)
  }

  /** The distinct terms in a log. */
  function TermsIn(log: seq<LogEntry>): set<nat> {
    set e | e in log :: e.term
  }

  /** Rejections number at most one, for a log too short, plus the distinct terms before nextIndex. */
  lemma {:induction false} RejectionsBelow(l: Node, f: Node, p: Id, lead: seq<LogEntry>, log: seq<LogEntry>)
    requires Chasing(l, f, p, lead, log) && Index(l.nextIndex, p) <= |log| + 1
    ensures Rejections(l, f, p, lead, log) <= |TermsIn(log[..Index(l.nextIndex, p) - 1])|
    decreases Index(l.nextIndex, p)
  {
    hide Round, TermsIn;
    RoundOutcome(l, f, p, lead, log);
    var (l', f', accepted) := Round(l, f, p);
    if !accepted {
      RejectionsBelow(l', f', p, lead, log);
      FewerTerms(lead, log, Index(l.nextIndex, p), Index(l'.nextIndex, p));
      NoMismatchAccepts(l', f', p, lead, log);
    }
  }

  lemma NoMismatchAccepts(l: Node, f: Node, p: Id, lead: seq<LogEntry>, log: seq<LogEntry>)
    requires Chasing(l, f, p, lead, log) && Index(l.nextIndex, p) <= |log| + 1
    ensures !Mismatch(lead, log, Index(l.nextIndex, p)) ==> Rejections(l, f, p, lead, log) == 0
  {
    hide Round;
    RoundOutcome(l, f, p, lead, log);
  }

  lemma FewerTerms(lead: seq<LogEntry>, log: seq<LogEntry>, next: nat, next': nat)
    requires Monotone(log) && Mismatch(lead, log, next) && 1 <= next' < next
    ensures |TermsIn(log[..next - 1])| >= 1
    ensures Mismatch(lead, log, next') && log[next' - 2].term < log[next - 2].term ==>
              |TermsIn(log[..next' - 1])| + 1 <= |TermsIn(log[..next - 1])|
  {
    var t := log[next - 2].term;
    var here := TermsIn(log[..next - 1]);
    assert log[..next - 1][next - 2] == log[next - 2];
    assert t in here;
    Quorums.SubsetSize({t}, here);
    if Mismatch(lead, log, next') && log[next' - 2].term < t {
      var before := TermsIn(log[..next' - 1]);
      forall u | u in before
        ensures u in here && u != t
      {
        var i :| 0 <= i < next' - 1 && log[..next' - 1][i].term == u;
        assert log[..next - 1][i] == log[i];
      }
      Quorums.SubsetSize(before + {t}, here);
    }
  }

  /** The bound promised for fast backtracking. */
  lemma BacktrackingConverges(l: Node, f: Node, p: Id, lead: seq<LogEntry>, log: seq<LogEntry>)
    requires Chasing(l, f, p, lead, log)
    ensures Rejections(l, f, p, lead, log) <= 1 + |TermsIn(log)|
  {
    hide Round, TermsIn;
    RoundOutcome(l, f, p, lead, log);
    var (l', f', accepted) := Round(l, f, p);
    if Index(l.nextIndex, p) <= |log| + 1 {
      RejectionsBelow(l, f, p, lead, log);
      PrefixTerms(log, Index(l.nextIndex, p) - 1);
    } else if !accepted {
      RejectionsBelow(l', f', p, lead, log);
      PrefixTerms(log, Index(l'.nextIndex, p) - 1);
    }
  }

  lemma PrefixTerms(log: seq<LogEntry>, k: nat)
    requires k <= |log|
    ensures |TermsIn(log[..k])| <= |TermsIn(log)|
  {
    Quorums.SubsetSize(TermsIn(log[..k]), TermsIn(log));
  }

  // ---------------------------------------------------------------- in every run

  /** A log never compacted is a prefix of some leader's. */
  lemma Uncompacted(c: Cluster, n: Id)
    requires Good(c) && n in c.nodes && |c.nodes[n].log| > 0 && SnapshotIndex(c.nodes[n].log) == 0
    ensures var log := WholeLog(c, n);
            && c.nodes[n].log == Compacted(log, 0) && WellIndexed(log) && Clean(c.history.leaderLog, log)
            && forall i :: 0 <= i < |log| ==> log[i].term > 0
  {
    hide Good, RoleOk, Covered;
    NodeFacts(c, n);
  }

  /** In every run a leader and a follower that have not compacted converge so, wherever nextIndex stands. */
  lemma RunBacktracks(config: Config, events: seq<Event>, n: Id, q: Id)
    requires ValidConfig(config) && Runs.VotesKept(config, events)
    requires n in Run(config, events).nodes && q in Run(config, events).nodes
    requires |Run(config, events).nodes[n].log| > 0 && |Run(config, events).nodes[q].log| > 0
    requires Run(config, events).nodes[n].role == Leader
    requires Run(config, events).nodes[q].term <= Run(config, events).nodes[n].term
    requires SnapshotIndex(Run(config, events).nodes[n].log) == 0 == SnapshotIndex(Run(config, events).nodes[q].log)
    requires !NeedsSnapshot(Run(config, events).nodes[n], q)
    ensures var c := Run(config, events);
            var lead, log := WholeLog(c, n), WholeLog(c, q);
            && Chasing(c.nodes[n], c.nodes[q], q, lead, log)
            && Rejections(c.nodes[n], c.nodes[q], q, lead, log) <= 1 + |TermsIn(log)|
  {
    hide Run, Good, Rejections, ValidConfig, Runs.VotesKept, WholeLog, LeaderLogsOk, Clean, Decided, Compacted;
    RunGood(config, events);
    var c := Run(config, events);
    var lead, log := WholeLog(c, n), WholeLog(c, q);
    Uncompacted(c, n);
    Uncompacted(c, q);
    HistoryCommits(c);
    LastCompacted(lead, 0);
    RelatedIsDecided(c.history.elected, c.history.leaderLog, lead, log);
    BacktrackingConverges(c.nodes[n], c.nodes[q], q, lead, log);
  }
}
