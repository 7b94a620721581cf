/** The key-value state machine and the replay of a log through it. */
module Machine {
  import opened Entries

  type Store = map<string, string>

  /** What Apply leaves behind: unknown operations and bytes that do not decode change nothing. */
  function ApplyCommand(store: Store, command: Command): Store {
    match command
    case Raw(_) => store
    case Encoded(op) =>
      if op.kind == "SET" then store[op.key := op.value]
      else if op.kind == "DEL" then store - {op.key}
      else store
  }

  datatype ApplyResult = Done | Undecodable | UnknownOp(kind: string)

  /** What applying a command reports. */
  function ResultOf(command: Command): ApplyResult {
    match command
    case Raw(_) => Undecodable
    case Encoded(op) => if op.kind == "SET" || op.kind == "DEL" then Done else UnknownOp(op.kind)
  }

  /** Membership entries never reach the state machine. */
  function ApplyEntry(store: Store, entry: LogEntry): Store {
    if entry.isConfig then store else ApplyCommand(store, entry.command)
  }

  function ReplayFrom(store: Store, log: seq<LogEntry>): Store {
    if |log| == 0 then store
    else ApplyEntry(ReplayFrom(store, log[..|log| - 1]), log[|log| - 1])
  }

  function Replay(log: seq<LogEntry>): Store {
    ReplayFrom(map[], log)
  }

  /** Restoring a snapshot and applying the rest equals applying everything. */
  lemma {:induction false} ReplaySplit(store: Store, a: seq<LogEntry>, b: seq<LogEntry>)
    ensures ReplayFrom(ReplayFrom(store, a), b) == ReplayFrom(store, a + b)
  {
    if |b| == 0 {
      assert a + b == a;
    } else {
      ReplaySplit(store, a, b[..|b| - 1]);
      assert (a + b)[..|a + b| - 1] == a + b[..|b| - 1];
    }
  }

  lemma ReplayStep(log: seq<LogEntry>, i: nat)
    requires i < |log|
    ensures Replay(log[..i + 1]) == ApplyEntry(Replay(log[..i]), log[i])
  {
    assert log[..i + 1][..i] == log[..i];
  }

  // ---------------------------------------------------------------- what a map holds

  /** The entry sets the key to the value. */
  predicate Sets(e: LogEntry, key: string, value: string) {
    !e.isConfig && e.command == Encoded(Op("SET", key, value))
  }

  /** The entry sets the key to something, or deletes it. */
  predicate Names(e: LogEntry, key: string) {
    !e.isConfig && e.command.Encoded? && e.command.op.kind in ["SET", "DEL"] && e.command.op.key == key
  }

  /** The last entry to name the key sets it to the value. */
  ghost predicate LastSets(log: seq<LogEntry>, key: string, value: string) {
    exists i :: 0 <= i < |log| && Sets(log[i], key, value) && forall j :: i < j < |log| ==> !Names(log[j], key)
  }

  /** The last writer wins: a key holds what the last entry to name it set, and nothing if that entry deleted it. */
  lemma {:induction false} LastWriterWins(log: seq<LogEntry>, key: string, value: string)
    ensures key in Replay(log) && Replay(log)[key] == value <==> LastSets(log, key, value)
  {
    if |log| > 0 {
      var before, e := log[..|log| - 1], log[|log| - 1];
      LastWriterWins(before, key, value);
      EntryMoves(Replay(before), e, key, value);
      if Names(e, key) {
        assert LastSets(log, key, value) <==> Sets(e, key, value);
      } else {
        NotNamed(log, key, value);
      }
    }
  }

  lemma EntryMoves(store: Store, e: LogEntry, key: string, value: string)
    ensures var after := ApplyEntry(store, e);
            key in after && after[key] == value <==>
              if Names(e, key) then Sets(e, key, value) else key in store && store[key] == value
  {
  }

  lemma NotNamed(log: seq<LogEntry>, key: string, value: string)
    requires |log| > 0 && !Names(log[|log| - 1], key)
    ensures LastSets(log, key, value) <==> LastSets(log[..|log| - 1], key, value)
  {
    var before := log[..|log| - 1];
    if LastSets(before, key, value) {
      var i :| 0 <= i < |before| && Sets(before[i], key, value) && forall j :: i < j < |before| ==> !Names(before[j], key);
      assert forall j :: i < j < |log| - 1 ==> log[j] == before[j];
      assert Sets(log[i], key, value);
    }
    if LastSets(log, key, value) {
      var i :| 0 <= i < |log| && Sets(log[i], key, value) && forall j :: i < j < |log| ==> !Names(log[j], key);
      assert Names(log[i], key);
      assert Sets(before[i], key, value) && forall j :: i < j < |before| ==> before[j] == log[j];
    }
  }
}
