/** The key-value store as an object: the map it serves and the calls it keeps waiting. */
module Stores {
  import opened Entries
  import opened Machine
  import opened Calls

  datatype Lookup = Found(value: string) | KeyNotFound

  /** Failing one waiting call and then the rest is failing them all. */
  lemma FailOne(t: Table, i: nat)
    requires i in t.pending
    ensures FailAll(Table(t.pending - {i}, t.answers[t.pending[i].ticket := NotLeader])) == FailAll(t)
  {
    var less := Table(t.pending - {i}, t.answers[t.pending[i].ticket := NotLeader]);
    assert Tickets(t.pending) == Tickets(less.pending) + {t.pending[i].ticket} by {
      forall k | k in Tickets(t.pending)
        ensures k in Tickets(less.pending) + {t.pending[i].ticket}
      {
        var j :| j in t.pending && t.pending[j].ticket == k;
        assert j != i ==> j in less.pending;
      }
    }
  }

  lemma AllRefused(t: Table)
    ensures forall i :: i in t.pending ==>
              t.pending[i].ticket in FailAll(t).answers && FailAll(t).answers[t.pending[i].ticket] == NotLeader
  {
    assert forall i :: i in t.pending ==> t.pending[i].ticket in Tickets(t.pending);
  }

  lemma FailNone(t: Table)
    requires t.pending.Keys == {}
    ensures FailAll(t) == t
  {
    assert t.pending == map[] && Tickets(t.pending) == {};
  }

  class KVStore {
    var data: Store
    var pending: map<nat, Waiting>
    var answers: map<nat, Outcome>   // what each caller's channel was sent
    var applied: nat
    var snapshotThreshold: nat

    ghost function Book(): Table
      reads this
    {
      Table(pending, answers)
    }

    constructor ()
      ensures data == map[] && Book() == NO_CALLS && applied == 0 && snapshotThreshold == 100
    {
      data, pending, answers, applied, snapshotThreshold := map[], map[], map[], 0, 100;
    }

    method Get(key: string) returns (r: Lookup)
      ensures r == if key in data then Found(data[key]) else KeyNotFound
    {
      if key !in data {
        return KeyNotFound;
      }
      return Found(data[key]);
    }

    /** The machine moves exactly as the replay of the log does, and reports what the command was. */
    method Apply(command: Command) returns (r: ApplyResult)
      modifies this`data
      ensures data == ApplyCommand(old(data), command) && r == ResultOf(command)
      ensures r == Done <==> command.Encoded? && command.op.kind in ["SET", "DEL"]
      ensures r == Undecodable <==> command.Raw?
      ensures r.UnknownOp? ==> command.Encoded? && r.kind == command.op.kind
      ensures r != Done ==> data == old(data)
      ensures r == Done ==> forall k :: k != command.op.key ==>
                (k in data <==> k in old(data)) && (k in data ==> data[k] == old(data)[k])
      ensures r == Done && command.op.kind == "SET" ==> command.op.key in data && data[command.op.key] == command.op.value
      ensures r == Done && command.op.kind == "DEL" ==> command.op.key !in data
    {
      match command
      case Raw(_) => return Undecodable;
      case Encoded(op) =>
        if op.kind == "SET" {
          data := data[op.key := op.value];
          return Done;
        } else if op.kind == "DEL" {
          data := data - {op.key};
          return Done;
        } else {
          return UnknownOp(op.kind);
        }
    }

    method Snapshot() returns (bytes: Store)
      ensures bytes == data
    {
      bytes := data;
    }

    method Restore(bytes: Store)
      modifies this`data
      ensures data == bytes
    {
      data := bytes;
    }

    method FailAllPending()
      modifies this`pending, this`answers
      ensures Book() == FailAll(old(Book())) && pending == map[]
    {
      hide FailAll;
      while pending.Keys != {}
        invariant FailAll(Book()) == FailAll(old(Book()))
        decreases |pending.Keys|
      {
        var i :| i in pending.Keys;
        FailOne(Book(), i);
        answers := answers[pending[i].ticket := NotLeader];
        pending := pending - {i};
      }
      FailNone(Book());
    }

    /** One message of the apply channel; says whether a snapshot is due. */
    method Receive(msg: ApplyMsg, snapshotIndex: nat) returns (due: bool)
      modifies this`pending, this`answers, this`applied
      ensures Book() == Dispatch(old(Book()), msg)
      ensures msg.EntryMsg? && msg.index in old(pending) ==>
                var call := old(pending)[msg.index];
                && pending == old(pending) - {msg.index}
                && answers == old(answers)[call.ticket := if call.term == msg.term then Answer(msg.result) else NotLeader]
      ensures msg.EntryMsg? && msg.index !in old(pending) ==> pending == old(pending) && answers == old(answers)
      ensures msg.SnapshotMsg? ==> pending == map[] && forall i :: i in old(pending) ==>
                old(pending)[i].ticket in answers && answers[old(pending)[i].ticket] == NotLeader
      ensures applied == if msg.SnapshotMsg? then snapshotIndex else old(applied) + 1
      ensures due <==> msg.EntryMsg? && snapshotThreshold > 0 && applied % snapshotThreshold == 0
    {
      match msg
      case SnapshotMsg =>
        AllRefused(Book());
        FailAllPending();
        applied := snapshotIndex;
        return false;
      case EntryMsg(index, term, result) =>
        applied := applied + 1;
        if index in pending {
          var call := pending[index];
          pending := pending - {index};
          if call.term != term {
            answers := answers[call.ticket := NotLeader];
          } else {
            answers := answers[call.ticket := Answer(result)];
          }
        }
        return snapshotThreshold > 0 && applied % snapshotThreshold == 0;
    }
  }
}
