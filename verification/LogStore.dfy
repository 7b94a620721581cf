/** The log as an object updated in place, with the whole log it stands for kept beside it. */
module LogStore {
  import opened Entries
  import opened Logs

  /** A sequence that can serve as a compacted log: its first element is a boundary and nothing more. */
  ghost predicate HasSentinel(es: seq<LogEntry>) {
    |es| > 0 && es[0] == Sentinel(es[0].index, es[0].term) && (es[0].index == 0 ==> es[0].term == 0)
  }

  /** Any prefix ending at this index and term: what a node knows of entries it never saw. */
  ghost function Unseen(index: nat, term: nat): (prefix: seq<LogEntry>)
    ensures |prefix| == index && (index > 0 ==> LastTermOf(prefix) == term)
  {
    seq(index, (i: nat) => Sentinel(i + 1, term))
  }

  /** The prefix a boundary stands for: the log's own entries when the term agrees with them. */
  ghost function PrefixAt(whole: seq<LogEntry>, index: nat, term: nat): (prefix: seq<LogEntry>)
    ensures |prefix| == index && (index > 0 ==> LastTermOf(prefix) == term)
    ensures index <= |whole| && TermAt(whole, index) == term ==> Overlay(whole, prefix) == whole
  {
    if index <= |whole| && TermAt(whole, index) == term then whole[..index] else Unseen(index, term)
  }

  /** The whole log that stored entries stand for. */
  ghost function WholeOf(es: seq<LogEntry>): (whole: seq<LogEntry>)
    requires HasSentinel(es)
    ensures es[0].index <= |whole| && es == Compacted(whole, es[0].index)
  {
    Unseen(es[0].index, es[0].term) + es[1..]
  }

  /** A slice of the stored entries is the slice of the whole log, as far as it is stored. */
  lemma SliceIsWhole(whole: seq<LogEntry>, base: nat, from: nat, to: nat)
    requires base <= |whole|
    ensures var lo := if from <= base then base + 1 else from;
            var hi := if to > |whole| then |whole| + 1 else to;
            Slice(Compacted(whole, base), from, to) == if lo >= hi then [] else whole[lo - 1..hi - 1]
  {
    var lo := if from <= base then base + 1 else from;
    var hi := if to > |whole| then |whole| + 1 else to;
    hide Compacted;
    if lo < hi {
      StoredRange(whole, base, lo, hi);
      var es := Compacted(whole, base);
      assert es[lo - base..|es|] == es[lo - base..];
    } else {
      LastCompacted(whole, base);
    }
  }

  lemma StoredRange(whole: seq<LogEntry>, base: nat, lo: nat, hi: nat)
    requires base < lo <= hi <= |whole| + 1
    ensures var es := Compacted(whole, base);
            && |es| == |whole| - base + 1 && es[0].index == base
            && es[lo - base..hi - base] == whole[lo - 1..hi - 1]
  {
    var stored, range := Compacted(whole, base)[lo - base..hi - base], whole[lo - 1..hi - 1];
    assert |stored| == |range| && forall i :: 0 <= i < |range| ==> stored[i] == range[i];
  }

  class Log {
    var entries: seq<LogEntry>
    ghost var whole: seq<LogEntry>   // what the log would be, had it never been compacted

    ghost predicate Valid()
      reads this
    {
      |entries| > 0 && entries[0].index <= |whole| && entries == Compacted(whole, entries[0].index)
    }

    constructor ()
      ensures Valid() && whole == [] && entries == [Sentinel(0, 0)]
    {
      entries := [Sentinel(0, 0)];
      whole := [];
    }

    /** The boundary, 0 for a log never compacted. */
    function Base(): (base: nat)
      requires Valid()
      reads this
      ensures base <= |whole| && entries == Compacted(whole, base)
    {
      entries[0].index
    }

    method Append(es: seq<LogEntry>)
      requires Valid()
      modifies this
      ensures Valid() && Base() == old(Base())
      ensures whole == old(whole) + es
      ensures entries == old(entries) + es
    {
      AppendCompacted(whole, Base(), es);
      entries := entries + es;
      whole := whole + es;
    }

    method Get(index: nat) returns (e: LogEntry)
      requires Valid()
      ensures Base() < index <= |whole| ==> e == whole[index - 1]
      ensures index == Base() ==> e == Sentinel(index, TermAt(whole, index))
      ensures index < Base() || index > |whole| ==> e == NO_ENTRY
      ensures e == Logs.Get(entries, index)
    {
      var offset := entries[0].index;
      if index < offset || index - offset >= |entries| {
        return NO_ENTRY;
      }
      var physical: nat := index - offset;
      return entries[physical];
    }

    method LastIndex() returns (index: nat)
      requires Valid()
      ensures index == |whole| == Logs.LastIndex(entries)
    {
      LastCompacted(whole, Base());
      index := entries[0].index + |entries| - 1;
    }

    method LastTerm() returns (term: nat)
      requires Valid()
      ensures term == LastTermOf(whole) == Logs.LastTerm(entries)
    {
      LastCompacted(whole, Base());
      term := entries[|entries| - 1].term;
    }

    /** Entries from the index on are gone; the boundary and what it covers are not. */
    method TruncateFrom(index: nat)
      requires Valid()
      modifies this
      ensures Valid() && Base() == old(Base())
      ensures whole == if Base() < index <= |old(whole)| then old(whole)[..index - 1] else old(whole)
      ensures entries == Logs.TruncateFrom(old(entries), index)
    {
      var offset := entries[0].index;
      if index <= offset {
        return;
      }
      TruncateCompacted(whole, offset, index);
      var physical: nat := index - offset;
      if physical < |entries| {
        entries := entries[..physical];
        whole := whole[..index - 1];
      }
    }

    /**
     The boundary moves up, never down. With the log's own term nothing else changes; a foreign
     term replaces what lies below the boundary and keeps what lies above it.
     */
    method CompactTo(index: nat, term: nat)
      requires Valid()
      modifies this
      ensures Valid() && Base() == if index <= old(Base()) then old(Base()) else index
      ensures index <= |old(whole)| && term == TermAt(old(whole), index) ==> whole == old(whole)
      ensures index > old(Base()) ==> whole == Overlay(old(whole), PrefixAt(old(whole), index, term))
      ensures index <= old(Base()) ==> whole == old(whole)
      ensures entries == Logs.CompactTo(old(entries), index, term)
    {
      var offset := entries[0].index;
      if index <= offset {
        return;
      }
      CompactCompacted(whole, offset, PrefixAt(whole, index, term));
      var physical: nat := index - offset;
      if physical >= |entries| {
        entries := [Sentinel(index, term)];
      } else {
        var remaining := [Sentinel(index, term)];
        remaining := remaining + entries[physical + 1..];
        entries := remaining;
      }
      whole := Overlay(whole, PrefixAt(whole, index, term));
    }

    /** The first stored index of the term, the boundary included; 0 when no stored entry has it. */
    method FirstIndexForTerm(term: nat) returns (index: nat)
      requires Valid()
      ensures (forall i :: 0 <= i < |entries| ==> entries[i].term != term) ==> index == 0
      ensures forall i :: 0 <= i < |entries| && entries[i].term == term && (forall j :: 0 <= j < i ==> entries[j].term != term) ==>
                index == entries[i].index
      ensures index == Logs.FirstIndexForTerm(entries, term)
    {
      FirstIndexFinds(entries, term);
      for i := 0 to |entries|
        invariant forall j :: 0 <= j < i ==> entries[j].term != term
      {
        if entries[i].term == term {
          return entries[i].index;
        }
      }
      return 0;
    }

    /** The stored entries with indices in [from, to). */
    method Slice(from: nat, to: nat) returns (es: seq<LogEntry>)
      requires Valid()
      ensures var lo := if from <= Base() then Base() + 1 else from;
              var hi := if to > |whole| then |whole| + 1 else to;
              es == if lo >= hi then [] else whole[lo - 1..hi - 1]
      ensures es == Logs.Slice(entries, from, to)
    {
      hide Compacted;
      SliceIsWhole(whole, Base(), from, to);
      var offset := entries[0].index;
      var start := from;
      if start <= offset {
        start := offset + 1;
      }
      if start >= to {
        return [];
      }
      var physFrom: nat := start - offset;
      var physTo: nat := to - offset;
      if physFrom >= |entries| {
        return [];
      }
      if physTo > |entries| {
        physTo := |entries|;
      }
      return entries[physFrom..physTo];
    }

    /** Entries read back from the disk. */
    method Load(es: seq<LogEntry>)
      requires HasSentinel(es)
      modifies this
      ensures Valid() && entries == es && whole == WholeOf(es)
    {
      entries := es;
      whole := WholeOf(es);
    }
  }

  // ---------------------------------------------------------------- sequences of operations

  datatype Op = AppendOp(es: seq<LogEntry>) | TruncateOp(index: nat) | CompactOp(index: nat)

  /** An operation on the stored log; compaction reads the term at the index from that log. */
  function Stored(es: seq<LogEntry>, op: Op): (r: seq<LogEntry>)
    requires |es| > 0
    ensures |r| > 0
  {
    match op
    case AppendOp(more) => es + more
    case TruncateOp(index) => Logs.TruncateFrom(es, index)
    case CompactOp(index) => Logs.CompactTo(es, index, Logs.Get(es, index).term)
  }

  function StoredAll(es: seq<LogEntry>, ops: seq<Op>): (r: seq<LogEntry>)
    requires |es| > 0
    ensures |r| > 0
    decreases |ops|
  {
    if |ops| == 0 then es else StoredAll(Stored(es, ops[0]), ops[1..])
  }

  /** The same operation on a log that is never compacted. */
  function Meant(log: seq<LogEntry>, op: Op): seq<LogEntry> {
    match op
    case AppendOp(more) => log + more
    case TruncateOp(index) => if 1 <= index <= |log| then log[..index - 1] else log
    case CompactOp(_) => log
  }

  function MeantAll(log: seq<LogEntry>, ops: seq<Op>): seq<LogEntry>
    decreases |ops|
  {
    if |ops| == 0 then log else MeantAll(Meant(log, ops[0]), ops[1..])
  }

  /** Truncation stays above the boundary and compaction inside the log. */
  ghost predicate Allowed(log: seq<LogEntry>, base: nat, ops: seq<Op>)
    decreases |ops|
  {
    |ops| == 0 ||
    match ops[0]
    case AppendOp(_) => Allowed(Meant(log, ops[0]), base, ops[1..])
    case TruncateOp(index) => base < index && Allowed(Meant(log, ops[0]), base, ops[1..])
    case CompactOp(index) => index <= |log| && Allowed(log, if index <= base then base else index, ops[1..])
  }

  /** The highest boundary reached. */
  function BaseAfter(base: nat, ops: seq<Op>): nat
    decreases |ops|
  {
    if |ops| == 0 then base
    else if ops[0].CompactOp? && ops[0].index > base then BaseAfter(ops[0].index, ops[1..])
    else BaseAfter(base, ops[1..])
  }

  /** Compaction is invisible: after any sequence of operations the stored log is the whole one, compacted. */
  lemma {:induction false} CompactionInvisible(log: seq<LogEntry>, base: nat, ops: seq<Op>)
    requires base <= |log| && Allowed(log, base, ops)
    ensures BaseAfter(base, ops) <= |MeantAll(log, ops)|
    ensures StoredAll(Compacted(log, base), ops) == Compacted(MeantAll(log, ops), BaseAfter(base, ops))
    decreases |ops|
  {
    hide Compacted, TruncateFrom, Logs.Get;
    LastCompacted(log, base);
    if |ops| > 0 {
      match ops[0]
      case AppendOp(more) =>
        AppendCompacted(log, base, more);
        CompactionInvisible(log + more, base, ops[1..]);
      case TruncateOp(index) =>
        TruncateCompacted(log, base, index);
        CompactionInvisible(Meant(log, ops[0]), base, ops[1..]);
      case CompactOp(index) =>
        GetCompacted(log, base, index);
        CompactOwn(log, base, index);
        assert index <= base ==> Stored(Compacted(log, base), ops[0]) == Compacted(log, base);
        CompactionInvisible(log, if index <= base then base else index, ops[1..]);
    }
  }
}
