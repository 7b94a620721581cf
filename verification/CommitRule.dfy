/** maybeCommit: what the sorted array computes, and that it is the best the paper allows. */
module CommitRule {
  import opened Entries
  import opened Logs
  import opened Nodes

  function CountAtLeast(s: seq<nat>, k: nat): nat {
    if |s| == 0 then 0 else (if s[0] >= k then 1 else 0) + CountAtLeast(s[1..], k)
  }

  ghost predicate Descending(s: seq<nat>) {
    forall i, j :: 0 <= i <= j < |s| ==> s[i] >= s[j]
  }

  lemma {:induction false} InsertSorted(s: seq<nat>, x: nat, k: nat)
    requires Descending(s)
    ensures Descending(InsertDescending(s, x))
    ensures CountAtLeast(InsertDescending(s, x), k) == CountAtLeast(s, k) + if x >= k then 1 else 0
    ensures forall y :: y in InsertDescending(s, x) ==> y == x || y in s
  {
    var r := InsertDescending(s, x);
    if |s| == 0 || x >= s[0] {
      assert r[1..] == s;
    } else {
      InsertSorted(s[1..], x, k);
      assert r[1..] == InsertDescending(s[1..], x);
      forall j | 0 < j < |r|
        ensures s[0] >= r[j]
      {
        assert r[j] in InsertDescending(s[1..], x);
      }
    }
  }

  /** Sorting orders the array and keeps every count. */
  lemma {:induction false} SortSorts(s: seq<nat>, k: nat)
    ensures Descending(SortDescending(s))
    ensures CountAtLeast(SortDescending(s), k) == CountAtLeast(s, k)
  {
    if |s| > 0 {
      SortSorts(s[1..], k);
      InsertSorted(SortDescending(s[1..]), s[0], k);
    }
  }

  lemma {:induction false} CountBounded(s: seq<nat>, k: nat)
    ensures CountAtLeast(s, k) <= |s|
    ensures (forall i :: 0 <= i < |s| ==> s[i] < k) ==> CountAtLeast(s, k) == 0
  {
    if |s| > 0 {
      CountBounded(s[1..], k);
    }
  }

  /** In a descending array, position m reaches k exactly when more than m elements do. */
  lemma {:induction false} SortedPosition(s: seq<nat>, m: nat, k: nat)
    requires Descending(s) && m < |s|
    ensures s[m] >= k <==> CountAtLeast(s, k) >= m + 1
  {
    CountBounded(s, k);
    if s[0] >= k && m > 0 {
      SortedPosition(s[1..], m - 1, k);
    }
  }

  /** The quorum index is the greatest index a majority has reached. */
  lemma QuorumIndexIsGreatest(n: Node, k: nat)
    requires |n.log| > 0
    ensures k <= QuorumIndex(n) <==> CountAtLeast(Progress(n), k) >= Majority(n)
  {
    SortedLength(Progress(n));
    SortSorts(Progress(n), k);
    SortedPosition(SortDescending(Progress(n)), Majority(n) - 1, k);
  }

  // ---------------------------------------------------------------- counting nodes

  function Reached(peers: seq<Id>, matchIndex: map<Id, nat>, k: nat): set<Id> {
    set p | p in peers && Index(matchIndex, p) >= k
  }

  lemma {:induction false} CountPeers(peers: seq<Id>, matchIndex: map<Id, nat>, k: nat)
    requires forall i, j :: 0 <= i < j < |peers| ==> peers[i] != peers[j]
    ensures CountAtLeast(MatchIndices(peers, matchIndex), k) == |Reached(peers, matchIndex, k)|
  {
    var s := MatchIndices(peers, matchIndex);
    if |peers| > 0 {
      var rest := peers[1..];
      CountPeers(rest, matchIndex, k);
      assert s[1..] == MatchIndices(rest, matchIndex);
      if s[0] >= k {
        assert Reached(peers, matchIndex, k) == Reached(rest, matchIndex, k) + {peers[0]};
      } else {
        assert Reached(peers, matchIndex, k) == Reached(rest, matchIndex, k);
      }
    }
  }

  /** The count over the progress array counts nodes: the peers that reached k, and the leader. */
  lemma CountProgress(n: Node, k: nat)
    requires |n.log| > 0
    requires forall i, j :: 0 <= i < j < |n.peers| ==> n.peers[i] != n.peers[j]
    ensures CountAtLeast(Progress(n), k) ==
            |Reached(n.peers, n.matchIndex, k)| + if LastIndex(n.log) >= k then 1 else 0
  {
    CountPeers(n.peers, n.matchIndex, k);
    assert Progress(n)[1..] == MatchIndices(n.peers, n.matchIndex);
  }

  // ---------------------------------------------------------------- Figure 2

  /** The commit rule of Figure 2: a majority reached k and its entry is of the current term. */
  ghost predicate MayCommit(n: Node, k: nat)
    requires |n.log| > 0
  {
    && k > n.commitIndex
    && CountAtLeast(Progress(n), k) >= Majority(n)
    && Get(n.log, k).term == n.term
  }

  /** The single term test finds the greatest index Figure 2 allows whenever there is one. */
  lemma MaybeCommitIsBest(n: Node, log: seq<LogEntry>, base: nat, k: nat)
    requires base <= |log| && n.log == Compacted(log, base) && base <= n.commitIndex
    requires Monotone(log) && n.term > 0 && forall i :: 0 <= i < |log| ==> log[i].term <= n.term
    requires forall p :: p in n.peers ==> Index(n.matchIndex, p) <= |log|
    ensures MayCommit(n, k) ==> MaybeCommit(n).commitIndex >= k
    ensures MaybeCommit(n).commitIndex != n.commitIndex ==> MayCommit(n, MaybeCommit(n).commitIndex)
    ensures MaybeCommit(n).commitIndex >= n.commitIndex
  {
    var best := QuorumIndex(n);
    QuorumIndexIsGreatest(n, best);
    QuorumIndexIsGreatest(n, k);
    GetCompacted(log, base, k);
    GetCompacted(log, base, best);
    QuorumIndexIsHeld(n);
    LastCompacted(log, base);
  }

  /** A majority includes a node at or below the leader's last index only if the leader is one. */
  lemma QuorumIndexIsHeld(n: Node)
    requires |n.log| > 0
    ensures QuorumIndex(n) in Progress(n)
  {
    SortedLength(Progress(n));
    SortKeeps(Progress(n), QuorumIndex(n));
  }

  lemma {:induction false} SortKeeps(s: seq<nat>, y: nat)
    ensures y in SortDescending(s) ==> y in s
  {
    if |s| > 0 {
      SortKeeps(s[1..], y);
      SortSorts(s[1..], 0);
      InsertSorted(SortDescending(s[1..]), s[0], 0);
    }
  }
}
