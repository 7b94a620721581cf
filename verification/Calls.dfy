/** The table of calls a key-value store keeps waiting, and the messages that answer them. */
module Calls {
  import opened Machine

  /** What the apply loop sends on its channel: an applied entry, or a restored snapshot. */
  datatype ApplyMsg = EntryMsg(index: nat, term: nat, result: ApplyResult) | SnapshotMsg

  datatype Outcome = Answer(result: ApplyResult) | NotLeader | TimedOut

  /** A blocked caller: the term it was given, and which call it is. */
  datatype Waiting = Waiting(term: nat, ticket: nat)

  datatype Table = Table(pending: map<nat, Waiting>, answers: map<nat, Outcome>)

  const NO_CALLS: Table := Table(map[], map[])

  function Enter(t: Table, index: nat, term: nat, ticket: nat): Table {
    t.(pending := t.pending[index := Waiting(term, ticket)])
  }

  /** An applied entry reaches whoever waits at its index; another term there means the command was lost. */
  function Route(t: Table, index: nat, term: nat, result: ApplyResult): Table {
    if index !in t.pending then t
    else
      var w := t.pending[index];
      Table(t.pending - {index}, t.answers[w.ticket := if w.term != term then NotLeader else Answer(result)])
  }

  function Tickets(pending: map<nat, Waiting>): set<nat> {
    set i | i in pending :: pending[i].ticket
  }

  /** A snapshot skipped entries: nobody waiting can be told what became of their command. */
  function FailAll(t: Table): Table {
    Table(map[], t.answers + map k | k in Tickets(t.pending) :: NotLeader)
  }

  function Dispatch(t: Table, msg: ApplyMsg): Table {
    match msg
    case EntryMsg(index, term, result) => Route(t, index, term, result)
    case SnapshotMsg => FailAll(t)
  }

  /** A caller that stops waiting removes whatever is registered at its index. */
  function GiveUp(t: Table, index: nat, ticket: nat): Table {
    Table(t.pending - {index}, t.answers[ticket := TimedOut])
  }
}
