/** Consequences of the invariant that several transitions rely on. */
module ProtocolFacts {
  import opened Entries
  import opened Protocol

  /** Every prefix of a clean log is clean, and a clean log has monotone terms. */
  lemma CleanPrefix(elected: map<nat, Election>, ll: LeaderLogs, log: seq<LogEntry>, i: nat)
    requires LeaderLogsOk(elected, ll) && elected.Keys == ll.Keys
    requires Clean(ll, log) && i <= |log|
    ensures Clean(ll, log[..i]) && Monotone(log)
  {
    if |log| > 0 {
      var t := LastTermOf(log);
      assert LeaderLogOk(ll, t, elected[t], ll[t]);
      assert log[..i] == ll[t][..i];
    }
  }

  /** Log Matching: clean logs that agree on a term at an index agree up to that index. */
  lemma LogMatching(elected: map<nat, Election>, ll: LeaderLogs, a: seq<LogEntry>, b: seq<LogEntry>, i: nat)
    requires LeaderLogsOk(elected, ll) && elected.Keys == ll.Keys
    requires Clean(ll, a) && Clean(ll, b)
    requires 1 <= i <= |a| && i <= |b| && a[i - 1].term == b[i - 1].term
    ensures a[..i] == b[..i]
  {
    CleanPrefix(elected, ll, a, i);
    CleanPrefix(elected, ll, b, i);
    assert LastTermOf(a[..i]) == LastTermOf(b[..i]);
  }

  /** What a counted commit covers, the leader of any later or equal term holds. */
  lemma CoveredIsHeld(members: set<Id>, ll: LeaderLogs, acks: set<Ack>, commits: set<Commit>,
                      log: seq<LogEntry>, k: nat, t: nat)
    requires CommitsOk(members, ll, acks, commits) && t in ll
    requires Covered(ll, commits, log, k, t)
    ensures k <= |ll[t]| && k <= |log| && log[..k] == ll[t][..k]
  {
    if k > 0 {
      var cm :| cm in commits && Covers(ll, cm, log, k, t);
      assert CommitOk(members, ll, acks, cm);
      if cm.term < t {
        assert Has(ll, t, cm.term, cm.index);
        assert ll[t][..k] == ll[t][..cm.index][..k] == ll[cm.term][..k];
      }
    }
  }

  /** Clean logs that agree on the entry at an index agree up to that index. */
  lemma AgreeAt(elected: map<nat, Election>, ll: LeaderLogs, a: seq<LogEntry>, b: seq<LogEntry>, i: nat)
    requires LeaderLogsOk(elected, ll) && elected.Keys == ll.Keys
    requires Clean(ll, a) && Clean(ll, b)
    requires 1 <= i <= |a| && i <= |b|
    ensures a[i - 1].term == b[i - 1].term ==> a[..i] == b[..i]
  {
    if a[i - 1].term == b[i - 1].term {
      LogMatching(elected, ll, a, b, i);
    }
  }

  /** A leader's log never meets a stale suffix: agreement stops at the boundary. */
  lemma StaleNeverMatches(elected: map<nat, Election>, ll: LeaderLogs, p: Peer, t: nat, i: nat)
    requires LeaderLogsOk(elected, ll) && elected.Keys == ll.Keys && t in ll
    requires Dirty(ll, p) && p.base <= |ll[t]| && ll[t][..p.base] == p.log[..p.base]
    ensures p.base < i <= |p.log| && i <= |ll[t]| ==> p.log[i - 1].term != ll[t][i - 1].term
  {
    if p.base < i <= |p.log| && i <= |ll[t]| {
      assert Clean(ll, ll[t][..i]) by {
        assert LeaderLogOk(ll, t, elected[t], ll[t]);
      }
      BoundaryInLeader(ll, p, t, i);
    }
  }

  lemma BoundaryInLeader(ll: LeaderLogs, p: Peer, t: nat, i: nat)
    requires t in ll && 1 <= p.base < i <= |ll[t]| && p.base <= |p.log| && ll[t][..p.base] == p.log[..p.base]
    requires Clean(ll, ll[t][..i])
    ensures var w := ll[t][i - 1].term;
            w in ll && p.base <= |ll[w]| && ll[w][p.base - 1] == p.log[p.base - 1]
  {
    var prefix := ll[t][..i];
    var w := LastTermOf(prefix);
    assert ll[w][p.base - 1] == prefix[p.base - 1] == ll[t][..p.base][p.base - 1] == p.log[p.base - 1];
  }

  /** Agreement through k includes every shorter prefix. */
  lemma ShorterAgrees(a: seq<LogEntry>, b: seq<LogEntry>, k: nat, i: nat)
    requires k <= |a| && k <= |b| && a[..k] == b[..k]
    ensures i <= k ==> a[..i] == b[..i]
  {
    if i <= k {
      assert a[..i] == a[..k][..i] && b[..i] == b[..k][..i];
    }
  }

  lemma KeepsIsUpToDate(log: seq<LogEntry>, lead: seq<LogEntry>, k: nat)
    requires 1 <= k <= |lead| && Keeps(log, lead, k)
    ensures AtLeast(LastTermOf(log), |log|, lead[k - 1].term, k)
  {
    assert log[..k][k - 1] == lead[..k][k - 1];
  }

  /** A clean log at least as up to date as (c, k) holds what the leader of c committed at k. */
  lemma UpToDateHolds(elected: map<nat, Election>, ll: LeaderLogs, c: nat, k: nat, log: seq<LogEntry>)
    requires LeaderLogsOk(elected, ll) && elected.Keys == ll.Keys
    requires c in ll && 1 <= k <= |ll[c]| && ll[c][k - 1].term == c && c >= 1
    requires Clean(ll, log)
    requires AtLeast(LastTermOf(log), |log|, c, k)
    requires AllHave(ll, c, k, LastTermOf(log) + 1)
    ensures ll[c][..k] <= log
  {
    var last := LastTermOf(log);
    assert LeaderLogOk(ll, last, elected[last], ll[last]);
    assert Has(ll, last, c, k);
    assert ll[last][..k][k - 1].term == c;
    assert log[|log| - 1] == ll[last][|log| - 1];
    assert log[..k] == ll[last][..k] == ll[c][..k];
  }
}
