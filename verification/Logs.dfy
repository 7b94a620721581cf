/**
 The log as the code keeps it: a sequence whose first element is a sentinel
 standing for everything up to the snapshot boundary. These functions say what
 the operations of raft/log.go return and leave behind; the lemmas relate them
 to the whole, uncompacted log.
 */
module Logs {
  import opened Entries

  // ---------------------------------------------------------------- operations

  function SnapshotIndex(es: seq<LogEntry>): nat
    requires |es| > 0
  {
    es[0].index
  }

  function SnapshotTerm(es: seq<LogEntry>): nat
    requires |es| > 0
  {
    es[0].term
  }

  function Get(es: seq<LogEntry>, index: nat): LogEntry
    requires |es| > 0
  {
    var offset := es[0].index;
    if index < offset || index - offset >= |es| then NO_ENTRY else es[index - offset]
  }

  function LastIndex(es: seq<LogEntry>): nat
    requires |es| > 0
  {
    es[0].index + |es| - 1
  }

  function LastTerm(es: seq<LogEntry>): nat
    requires |es| > 0
  {
    es[|es| - 1].term
  }

  function TruncateFrom(es: seq<LogEntry>, index: nat): (r: seq<LogEntry>)
    requires |es| > 0
    ensures |r| > 0
  {
    var offset := es[0].index;
    if index <= offset then es
    else if index - offset < |es| then es[..index - offset]
    else es
  }

  function CompactTo(es: seq<LogEntry>, index: nat, term: nat): (r: seq<LogEntry>)
    requires |es| > 0
    ensures |r| > 0
  {
    var offset := es[0].index;
    if index <= offset then es
    else if index - offset >= |es| then [Sentinel(index, term)]
    else [Sentinel(index, term)] + es[index - offset + 1..]
  }

  function FirstIndexForTerm(es: seq<LogEntry>, term: nat): nat {
    if |es| == 0 then 0
    else if es[0].term == term then es[0].index
    else FirstIndexForTerm(es[1..], term)
  }

  function Slice(es: seq<LogEntry>, from: nat, to: nat): seq<LogEntry>
    requires |es| > 0
  {
    var offset := es[0].index;
    var start := if from <= offset then offset + 1 else from;
    if start >= to then []
    else if start - offset >= |es| then []
    else if to - offset > |es| then es[start - offset..]
    else es[start - offset..to - offset]
  }

  // ---------------------------------------------------------------- whole logs

  /** What remains of a whole log once it is compacted through `base`. */
  function Compacted(log: seq<LogEntry>, base: nat): (es: seq<LogEntry>)
    requires base <= |log|
    ensures |es| > 0
  {
    [Sentinel(base, TermAt(log, base))] + log[base..]
  }

  /** The simple meaning of the append loop: adopt the leader's prefix unless already held. */
  function Adopt(log: seq<LogEntry>, prefix: seq<LogEntry>): seq<LogEntry> {
    if prefix <= log then log else prefix
  }

  /** The literal effect of a snapshot on a log: replace the prefix, keep any suffix. */
  function Overlay(log: seq<LogEntry>, prefix: seq<LogEntry>): seq<LogEntry> {
    if |prefix| < |log| then prefix + log[|prefix|..] else prefix
  }

  /** Reading a compacted log: invisible above the boundary, index and term at it, nothing below. */
  lemma GetCompacted(log: seq<LogEntry>, base: nat, index: nat)
    requires base <= |log|
    ensures Get(Compacted(log, base), index) ==
            if index < base then NO_ENTRY
            else if index == base then Sentinel(base, TermAt(log, base))
            else if index <= |log| then log[index - 1]
            else NO_ENTRY
  {
  }

  lemma LastCompacted(log: seq<LogEntry>, base: nat)
    requires base <= |log|
    ensures LastIndex(Compacted(log, base)) == |log|
    ensures LastTerm(Compacted(log, base)) == LastTermOf(log)
    ensures SnapshotIndex(Compacted(log, base)) == base
    ensures SnapshotTerm(Compacted(log, base)) == TermAt(log, base)
  {
  }

  lemma SliceCompacted(log: seq<LogEntry>, base: nat, from: nat)
    requires base < from && base <= |log|
    ensures Slice(Compacted(log, base), from, |log| + 1) == if from <= |log| then log[from - 1..] else []
  {
  }

  lemma AppendCompacted(log: seq<LogEntry>, base: nat, es: seq<LogEntry>)
    requires base <= |log|
    ensures Compacted(log, base) + es == Compacted(log + es, base)
  {
    assert log[base..] + es == (log + es)[base..];
  }

  lemma TruncateCompacted(log: seq<LogEntry>, base: nat, index: nat)
    requires base < index && base <= |log|
    ensures TruncateFrom(Compacted(log, base), index) == Compacted(if index <= |log| then log[..index - 1] else log, base)
  {
    if index <= |log| {
      assert Compacted(log, base)[..index - base] == [Sentinel(base, TermAt(log, base))] + log[base..index - 1];
      assert log[..index - 1][base..] == log[base..index - 1];
    }
  }

  /** Compacting to the boundary of any prefix overlays that prefix on the log. */
  lemma CompactCompacted(log: seq<LogEntry>, base: nat, prefix: seq<LogEntry>)
    requires base < |prefix| && base <= |log|
    ensures |prefix| <= |Overlay(log, prefix)|
    ensures CompactTo(Compacted(log, base), |prefix|, LastTermOf(prefix)) == Compacted(Overlay(log, prefix), |prefix|)
  {
    var index := |prefix|;
    if index < |log| {
      assert Compacted(log, base)[index - base + 1..] == log[index..];
      assert Overlay(log, prefix)[index..] == log[index..];
    } else if index == |log| {
      assert Compacted(log, base)[index - base + 1..] == [];
    }
  }

  /** Compacting with the log's own term changes nothing above the new boundary. */
  lemma CompactOwn(log: seq<LogEntry>, base: nat, index: nat)
    requires base <= |log| && index <= |log|
    ensures CompactTo(Compacted(log, base), index, TermAt(log, index)) ==
            Compacted(log, if index <= base then base else index)
  {
    if index > base {
      CompactCompacted(log, base, log[..index]);
      assert Overlay(log, log[..index]) == log;
    }
  }

  /** Successive compactions compose to the later one. */
  lemma CompactTwice(es: seq<LogEntry>, i: nat, ti: nat, j: nat, tj: nat)
    requires |es| > 0 && i <= j && (i == j ==> ti == tj)
    ensures CompactTo(CompactTo(es, i, ti), j, tj) == CompactTo(es, j, tj)
  {
    var offset := es[0].index;
    if offset < i < j && j - offset < |es| {
      CompactSuffix(es, i, ti, j);
    }
  }

  lemma CompactSuffix(es: seq<LogEntry>, i: nat, ti: nat, j: nat)
    requires |es| > 0 && es[0].index < i < j && j - es[0].index < |es|
    ensures |CompactTo(es, i, ti)| == |es| - (i - es[0].index)
    ensures CompactTo(es, i, ti)[j - i + 1..] == es[j - es[0].index + 1..]
  {
  }

  /** FirstIndexForTerm finds the first position of the term, sentinel included. */
  lemma {:induction false} FirstIndexFinds(es: seq<LogEntry>, term: nat)
    ensures (forall i :: 0 <= i < |es| ==> es[i].term != term) ==> FirstIndexForTerm(es, term) == 0
    ensures forall i :: 0 <= i < |es| && es[i].term == term && (forall j :: 0 <= j < i ==> es[j].term != term) ==>
              FirstIndexForTerm(es, term) == es[i].index
  {
    if |es| > 0 && es[0].term != term {
      FirstIndexFinds(es[1..], term);
      forall i | 0 <= i < |es| && es[i].term == term && (forall j :: 0 <= j < i ==> es[j].term != term)
        ensures FirstIndexForTerm(es, term) == es[i].index
      {
        assert es[1..][i - 1] == es[i];
        forall j | 0 <= j < i - 1
          ensures es[1..][j].term != term
        {
          assert es[1..][j] == es[j + 1];
        }
      }
    }
  }
}
