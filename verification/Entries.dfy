/** The values that travel through the cluster: key-value commands and log entries. */
module Entries {

  /** A node identifier. The empty string means "no node", as votedFor does on disk. */
  type Id = string

  function Max(a: nat, b: nat): nat {
    if a < b then b else a
  }

  function Min(a: nat, b: nat): nat {
    if a < b then a else b
  }

  datatype Role = Follower | Candidate | Leader

  /** One key-value operation, "SET" or "DEL" by its kind. */
  datatype Op = Op(kind: string, key: string, value: string)

  /** Command bytes: either the encoding of an operation or bytes that do not decode. */
  datatype Command = Encoded(op: Op) | Raw(bytes: seq<bv8>)

  /** One log entry. Term 0 marks "no entry"; index is the 1-based logical position. */
  datatype LogEntry = LogEntry(
    term: nat,
    index: nat,
    command: Command,
    isConfig: bool,
    configOp: string,
    configPeer: string)

  /** The entry standing at a snapshot boundary: only its index and term mean anything. */
  function Sentinel(index: nat, term: nat): LogEntry {
    LogEntry(term, index, Raw([]), false, "", "")
  }

  /** The zero value returned for an index the log does not hold. */
  const NO_ENTRY: LogEntry := Sentinel(0, 0)

  /** The entry a leader appends for a submitted command. */
  function CommandEntry(term: nat, index: nat, command: Command): LogEntry {
    LogEntry(term, index, command, false, "", "")
  }

  /** Every entry of an uncompacted log carries its own position. */
  ghost predicate WellIndexed(log: seq<LogEntry>) {
    forall i :: 0 <= i < |log| ==> log[i].index == i + 1
  }

  /** Terms never decrease along the log. */
  ghost predicate Monotone(log: seq<LogEntry>) {
    forall i, j :: 0 <= i <= j < |log| ==> log[i].term <= log[j].term
  }

  /** Term of the entry at a logical index of an uncompacted log, 0 at index 0. */
  function TermAt(log: seq<LogEntry>, index: nat): nat
    requires index <= |log|
  {
    if index == 0 then 0 else log[index - 1].term
  }

  function LastTermOf(log: seq<LogEntry>): nat {
    TermAt(log, |log|)
  }
}
