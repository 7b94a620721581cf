/**
 A node as the object the program keeps: fields updated in place under one lock,
 the log inside it, and the two files. Every method is one critical section and
 leaves exactly the node its step function describes; `images` collects the disk
 contents in the order they were written.
 */
module Servers {
  import opened Entries
  import opened Logs
  import opened Machine
  import opened Quorums
  import opened Cluster
  import opened Nodes
  import opened LogStore
  import opened Recovery
  import opened Calls
  import opened Stores
  import Program
  import Terms

  datatype SubmitResult = Accepted(index: nat, term: nat) | Refused

  /** Peers a leader heard from within the window, itself excluded. */
  function HeardFrom(peers: seq<Id>, recent: set<Id>): (k: nat)
    ensures k <= |peers|
  {
    if |peers| == 0 then 0
    else HeardFrom(peers[..|peers| - 1], recent) + if peers[|peers| - 1] in recent then 1 else 0
  }

  /** Those of the peers that answered. */
  function Answered(peers: seq<Id>, recent: set<Id>): set<Id> {
    set p | p in peers && p in recent
  }

  /** Each peer is counted once: what is counted is who answered. */
  lemma {:induction false} HeardFromCounts(peers: seq<Id>, recent: set<Id>)
    requires Distinct(peers)
    ensures HeardFrom(peers, recent) == |Answered(peers, recent)|
  {
    hide Answered;
    if |peers| > 0 {
      HeardFromCounts(peers[..|peers| - 1], recent);
      AnsweredBefore(peers, recent);
    } else {
      NobodyAnswered(recent);
    }
  }

  lemma NobodyAnswered(recent: set<Id>)
    ensures Answered([], recent) == {}
  {
  }

  lemma AnsweredBefore(peers: seq<Id>, recent: set<Id>)
    requires |peers| > 0 && Distinct(peers)
    ensures var before, last := peers[..|peers| - 1], peers[|peers| - 1];
            && last !in Answered(before, recent)
            && Answered(peers, recent) == Answered(before, recent) + if last in recent then {last} else {}
  {
    var before, last := peers[..|peers| - 1], peers[|peers| - 1];
    assert peers == before + [last];
  }

  /** The leader and the peers it heard from. */
  function Present(id: Id, peers: seq<Id>, recent: set<Id>): set<Id> {
    {id} + Answered(peers, recent)
  }

  lemma PresentCounts(id: Id, peers: seq<Id>, recent: set<Id>)
    requires Distinct(peers) && id !in peers
    ensures |Present(id, peers, recent)| == 1 + HeardFrom(peers, recent)
  {
    HeardFromCounts(peers, recent);
    assert id !in Answered(peers, recent);
  }

  function Granted(answers: seq<bool>): (k: nat)
    ensures k <= |answers|
  {
    if |answers| == 0 then 0
    else Granted(answers[..|answers| - 1]) + if answers[|answers| - 1] then 1 else 0
  }

  lemma {:induction false} GrantedGrows(answers: seq<bool>, i: nat)
    requires i <= |answers|
    ensures Granted(answers[..i]) <= Granted(answers)
  {
    if i < |answers| {
      GrantedGrows(answers[..|answers| - 1], i);
      assert answers[..|answers| - 1][..i] == answers[..i];
    } else {
      assert answers[..i] == answers;
    }
  }

  /** The peers whose answer was a grant. */
  ghost function Granters(peers: seq<Id>, answers: seq<bool>): set<Id>
    requires |answers| == |peers|
  {
    set i | 0 <= i < |peers| && answers[i] :: peers[i]
  }

  /** Counting grants counts the peers that granted. */
  lemma {:induction false} GrantedCounts(peers: seq<Id>, answers: seq<bool>)
    requires |answers| == |peers| && Distinct(peers)
    ensures Granted(answers) == |Granters(peers, answers)|
  {
    if |peers| > 0 {
      var last := |peers| - 1;
      GrantedCounts(peers[..last], answers[..last]);
      GrantersBefore(peers, answers);
    }
  }

  lemma GrantersBefore(peers: seq<Id>, answers: seq<bool>)
    requires |answers| == |peers| > 0 && Distinct(peers)
    ensures var last := |peers| - 1;
            && peers[last] !in Granters(peers[..last], answers[..last])
            && Granters(peers, answers) == Granters(peers[..last], answers[..last]) + if answers[last] then {peers[last]} else {}
  {
    var last := |peers| - 1;
    var before := Granters(peers[..last], answers[..last]);
    forall p | p in Granters(peers, answers)
      ensures p in before + if answers[last] then {peers[last]} else {}
    {
      var i :| 0 <= i < |peers| && answers[i] && peers[i] == p;
      if i < last {
        assert answers[..last][i] && peers[..last][i] == p;
      }
    }
    forall p | p in before
      ensures p in Granters(peers, answers) && p != peers[last]
    {
      var i :| 0 <= i < last && answers[..last][i] && peers[..last][i] == p;
      assert answers[i] && peers[i] == p;
    }
  }

  lemma FilledAt(m: map<Id, nat>, keys: seq<Id>, value: nat)
    ensures forall p :: p in keys ==> Index(Filled(m, keys, value), p) == value
  {
  }

  lemma FilledNext(m: map<Id, nat>, keys: seq<Id>, i: nat, value: nat)
    requires i < |keys|
    ensures Filled(m, keys[..i + 1], value) == Filled(m, keys[..i], value)[keys[i] := value]
  {
    assert keys[..i + 1] == keys[..i] + [keys[i]];
  }

  /** Exactly one message for every peer, a snapshot where the entries it needs are gone. */
  ghost predicate RoundFrom(n: Node, appends: map<Id, AppendArgs>, snapshots: map<Id, SnapshotArgs>)
    requires |n.log| > 0
  {
    && appends.Keys + snapshots.Keys == (set p | p in n.peers)
    && forall p :: p in n.peers ==>
         if NeedsSnapshot(n, p) then p !in appends && p in snapshots && snapshots[p] == BuildSnapshotArgs(n)
         else p !in snapshots && p in appends && appends[p] == BuildArgs(n, p)
  }

  lemma SameRound(n: Node, heard: nat, appends: map<Id, AppendArgs>, snapshots: map<Id, SnapshotArgs>)
    requires |n.log| > 0 && RoundFrom(CheckQuorum(n, heard), appends, snapshots)
    ensures RoundFrom(n, appends, snapshots)
  {
    hide CheckQuorum, BuildArgs, NeedsSnapshot;
    var n' := CheckQuorum(n, heard);
    SameSends(n, heard, "");
    forall p | p in n.peers
      ensures NeedsSnapshot(n', p) <==> NeedsSnapshot(n, p)
      ensures !NeedsSnapshot(n, p) ==> BuildArgs(n', p) == BuildArgs(n, p)
    {
      SameSends(n, heard, p);
    }
  }

  lemma SameSends(n: Node, heard: nat, p: Id)
    requires |n.log| > 0
    ensures var n' := CheckQuorum(n, heard);
            && |n'.log| > 0 && n'.peers == n.peers && BuildSnapshotArgs(n') == BuildSnapshotArgs(n)
            && (NeedsSnapshot(n', p) <==> NeedsSnapshot(n, p))
            && (!NeedsSnapshot(n, p) ==> BuildArgs(n', p) == BuildArgs(n, p))
  {
    hide Slice, Get;
  }

  /** The apply loop run until nothing committed is left to apply, if nobody interferes. */
  function Drained(n: Node, store: Store): (Node, Store)
    requires |n.log| > 0
    decreases n.commitIndex - n.lastApplied
  {
    if CanApply(n) then Drained(TakeNext(n), ApplyEntry(store, NextEntry(n))) else (n, store)
  }

  /** What a failed quorum check writes. */
  function CheckWrites(n: Node, heard: nat): seq<Disk> {
    if n.role == Leader && heard < Majority(n) then [CheckQuorum(n, heard).disk] else []
  }

  /** The pieces the handlers are made of. */
  function Observed(n: Node, seen: nat): Node {
    if seen > n.term then BecomeFollower(n, seen) else n
  }

  function Checked(n: Node, prevIndex: nat, prevTerm: nat): AppendReply
    requires |n.log| > 0
  {
    var prev := Get(n.log, prevIndex);
    if prevIndex > 0 && prev.term == 0 then AppendReply(n.term, false, 0, LastIndex(n.log) + 1)
    else if prevIndex > 0 && prev.term != prevTerm then
      AppendReply(n.term, false, prev.term, FirstIndexForTerm(n.log, prev.term))
    else AppendReply(n.term, true, 0, 0)
  }

  function AcceptedBy(n: Node, args: AppendArgs): Node
    requires |n.log| > 0
  {
    var lg := AppendLoop(n.log, args.entries);
    Nodes.Persist(n.(log := lg, commitIndex :=
      if args.leaderCommit > n.commitIndex then (if args.leaderCommit < LastIndex(lg) then args.leaderCommit else LastIndex(lg))
      else n.commitIndex))
  }

  function InstalledOn(n: Node, index: nat, term: nat, data: Store): Node
    requires |n.log| > 0
  {
    Nodes.Persist(Nodes.SaveSnapshot(n, index, term, data).(
      snapshotData := data, log := CompactTo(n.log, index, term),
      lastApplied := if n.lastApplied < index then index else n.lastApplied,
      commitIndex := if n.commitIndex < index then index else n.commitIndex))
  }

  lemma AppendSteps(n: Node, args: AppendArgs)
    requires |n.log| > 0
    ensures var m := Observed(n, args.term);
            var m' := if args.term == m.term && m.role == Candidate then m.(role := Follower) else m;
            var f := m'.(leaderId := args.leader);
            && |f.log| > 0
            && HandleAppendEntries(n, args) ==
               if args.term < m'.term then (m', AppendReply(m'.term, false, 0, 0))
               else
                 var reply := Checked(f, args.prevIndex, args.prevTerm);
                 (if reply.success then AcceptedBy(f, args) else f, reply)
  {
    hide AppendLoop, FirstIndexForTerm, Get;
  }

  lemma InstallSteps(n: Node, args: SnapshotArgs)
    requires |n.log| > 0
    ensures var m := Observed(n, args.term);
            var f := m.(leaderId := args.leader);
            && |f.log| > 0 && (Installs(n, args) <==> args.term >= m.term && args.lastIndex > SnapshotIndex(f.log))
            && HandleInstallSnapshot(n, args) ==
               (if args.term < m.term then m
                else if args.lastIndex <= SnapshotIndex(f.log) then f
                else InstalledOn(f, args.lastIndex, args.lastTerm, args.data),
                SnapshotReply(m.term))
            && InstallWrites(n, args) == StepDownWrites(n, args.term) +
               if args.term < m.term || args.lastIndex <= SnapshotIndex(f.log) then []
               else [Nodes.SaveSnapshot(f, args.lastIndex, args.lastTerm, args.data).disk,
                     InstalledOn(f, args.lastIndex, args.lastTerm, args.data).disk]
  {
    hide CompactTo;
  }

  /** Descending order, as the library sort leaves it. */
  method Sort(s: seq<nat>) returns (r: seq<nat>)
    ensures r == SortDescending(s)
  {
    r := [];
    var i := |s|;
    while i > 0
      invariant 0 <= i <= |s| && r == SortDescending(s[i..])
    {
      i := i - 1;
      assert s[i..][1..] == s[i + 1..];
      r := InsertDescending(r, s[i]);
    }
    assert s[0..] == s;
  }

  /** A snapshot handed to the apply loop and not restored yet: the newest one. */
  datatype Handoff = Nothing | Pending(index: nat, term: nat, data: Store)

  /** The one-place channel between the RPC handler and the apply loop. */
  class SnapshotChannel {
    var held: Handoff

    constructor ()
      ensures held == Nothing
    {
      held := Nothing;
    }

    /** Drain whatever is stale, then send. */
    method Put(index: nat, term: nat, data: Store)
      modifies this
      ensures held == Pending(index, term, data)
    {
      held := Pending(index, term, data);
    }
  }

  class RaftNode {
    const id: Id
    var peers: seq<Id>
    var term: nat
    var votedFor: Id
    const log: Log
    var role: Role
    var commitIndex: nat
    var lastApplied: nat
    var nextIndex: map<Id, nat>
    var matchIndex: map<Id, nat>
    var leaderId: Id
    var snapshotData: Store
    var disk: Disk
    const stateMachine: KVStore
    const snapshotNotify: SnapshotChannel
    ghost var images: seq<Disk>

    ghost predicate Valid()
      reads this, log
    {
      log.Valid() && HasSentinel(disk.entries)
    }

    ghost function Value(): Node
      reads this, log
    {
      Node(id, peers, term, votedFor, log.entries, role, commitIndex, lastApplied, nextIndex, matchIndex, leaderId,
           snapshotData, disk)
    }

    constructor (id: Id, peers: seq<Id>, disk: Disk, stateMachine: KVStore)
      requires HasSentinel(disk.entries)
      ensures Valid() && fresh(log) && images == [] && this.stateMachine == stateMachine
      ensures fresh(snapshotNotify) && snapshotNotify.held == Nothing
      ensures Value() == NewNode(id, peers, disk)
    {
      this.id := id;
      this.peers := peers;
      term, votedFor, role := 0, "", Follower;
      commitIndex, lastApplied := 0, 0;
      nextIndex, matchIndex := map[], map[];
      leaderId, snapshotData := "", map[];
      this.disk := disk;
      this.stateMachine := stateMachine;
      images := [];
      log := new Log();
      snapshotNotify := new SnapshotChannel();
    }

    // -------------------------------------------------------------- persistence

    method Persist()
      requires Valid()
      modifies this`disk, this`images
      ensures Valid() && Value() == Nodes.Persist(old(Value())) && images == old(images) + [disk]
    {
      disk := Disk(term, votedFor, log.entries, disk.snapshot);
      images := images + [disk];
      SentinelFirst(log.entries, log.whole);
    }

    method SaveSnapshot(index: nat, term: nat, data: Store)
      requires Valid()
      modifies this`disk, this`images
      ensures Valid() && Value() == Nodes.SaveSnapshot(old(Value()), index, term, data) && images == old(images) + [disk]
    {
      disk := disk.(snapshot := SnapshotFile(index, term, data));
      images := images + [disk];
    }

    method LoadState()
      requires Valid()
      modifies this, log
      ensures Valid() && Value() == Nodes.LoadState(old(Value())) && images == old(images)
    {
      term := disk.term;
      votedFor := disk.votedFor;
      log.Load(disk.entries);
    }

    method RestoreFromSnapshot()
      requires Valid()
      modifies this, log, stateMachine`data
      ensures Valid() && Value() == Nodes.RestoreFromSnapshot(old(Value())) && images == old(images)
      ensures old(stateMachine.data) == map[] ==> stateMachine.data == RestoredStore(disk)
    {
      var file := disk.snapshot;
      if file.index == 0 {
        return;
      }
      stateMachine.Restore(file.data);
      snapshotData := file.data;
      log.CompactTo(file.index, file.term);
      AdvanceTo(file.index);
    }

    /** Nothing at or below a restored snapshot is applied or committed again. */
    method AdvanceTo(index: nat)
      modifies this`lastApplied, this`commitIndex
      ensures lastApplied == if old(lastApplied) < index then index else old(lastApplied)
      ensures commitIndex == if old(commitIndex) < index then index else old(commitIndex)
    {
      if lastApplied < index {
        lastApplied := index;
      }
      if commitIndex < index {
        commitIndex := index;
      }
    }

    // -------------------------------------------------------------- roles

    method BecomeFollower(newTerm: nat)
      requires Valid()
      modifies this
      ensures Valid() && Value() == Nodes.BecomeFollower(old(Value()), newTerm) && images == old(images) + [disk]
    {
      role := Follower;
      term := newTerm;
      votedFor := "";
      leaderId := "";
      Persist();
    }

    method BecomeCandidate()
      requires Valid()
      modifies this
      ensures Valid() && Value() == Nodes.BecomeCandidate(old(Value())) && images == old(images) + [disk]
    {
      role := Candidate;
      term := term + 1;
      votedFor := id;
      leaderId := "";
      Persist();
    }

    method BecomeLeader()
      requires Valid()
      modifies this
      ensures Valid() && Value() == Nodes.BecomeLeader(old(Value())) && images == old(images)
      ensures role == Leader && leaderId == id
      ensures forall p :: p in peers ==> Index(nextIndex, p) == |log.whole| + 1 && Index(matchIndex, p) == 0
    {
      hide Log.Valid, HasSentinel, Filled;
      role := Leader;
      leaderId := id;
      var lastIndex := log.LastIndex();
      FillIndices(lastIndex + 1);
      FilledAt(old(nextIndex), peers, lastIndex + 1);
      FilledAt(old(matchIndex), peers, 0);
    }

    method FillIndices(next: nat)
      modifies this`nextIndex, this`matchIndex
      ensures nextIndex == Filled(old(nextIndex), peers, next) && matchIndex == Filled(old(matchIndex), peers, 0)
    {
      for i := 0 to |peers|
        invariant nextIndex == Filled(old(nextIndex), peers[..i], next)
        invariant matchIndex == Filled(old(matchIndex), peers[..i], 0)
      {
        FilledNext(old(nextIndex), peers, i, next);
        FilledNext(old(matchIndex), peers, i, 0);
        nextIndex := nextIndex[peers[i] := next];
        matchIndex := matchIndex[peers[i] := 0];
      }
      assert peers[..|peers|] == peers;
    }

    /** The golden rule: any higher term makes a follower. */
    method Observe(seen: nat)
      requires Valid()
      modifies this
      ensures Valid() && Value() == Observed(old(Value()), seen)
      ensures images == old(images) + StepDownWrites(old(Value()), seen)
    {
      if seen > term {
        BecomeFollower(seen);
      }
    }

    /** The quorum check of a heartbeat tick; `recent` is who answered within the window. */
    method CheckQuorum(recent: set<Id>)
      requires Valid()
      modifies this
      ensures Valid() && Value() == Nodes.CheckQuorum(old(Value()), 1 + HeardFrom(old(peers), recent))
      ensures images == old(images) + CheckWrites(old(Value()), 1 + HeardFrom(old(peers), recent))
      ensures old(role) == Leader && Distinct(peers) && id !in peers ==>
                (role == Leader <==> |Present(id, peers, recent)| >= MajoritySize(|peers| + 1))
      ensures term == old(term) && (role != old(role) ==> role == Follower && votedFor == "")
    {
      if Distinct(peers) && id !in peers {
        PresentCounts(id, peers, recent);
      }
      if role != Leader {
        return;
      }
      var heard := 1;
      for i := 0 to |peers|
        invariant heard == 1 + HeardFrom(peers[..i], recent)
      {
        assert peers[..i + 1][..i] == peers[..i];
        if peers[i] in recent {
          heard := heard + 1;
        }
      }
      assert peers[..|peers|] == peers;
      var majority := MajoritySize(|peers| + 1);
      if heard < majority {
        BecomeFollower(term);
      }
    }

    // -------------------------------------------------------------- elections

    /** The election timer, once the probe of the peers has succeeded. */
    method Stand() returns (stood: bool)
      requires Valid()
      modifies this
      ensures Valid() && stood == MayStand(old(Value())) && (stood <==> old(role) != Leader && |peers| > 0)
      ensures Value() == if stood then Nodes.BecomeCandidate(old(Value())) else old(Value())
      ensures images == old(images) + if stood then [disk] else []
    {
      stood := role != Leader && |peers| > 0;
      if stood {
        BecomeCandidate();
      }
    }

    method HandleRequestVote(args: VoteArgs, heardLeader: bool) returns (reply: VoteReply)
      requires Valid()
      modifies this
      ensures Valid() && (Value(), reply) == Nodes.HandleRequestVote(old(Value()), args, heardLeader)
      ensures reply.term == term == if args.isPreVote then old(term) else Max(old(term), args.term)
      ensures images == old(images) + VoteWrites(old(Value()), args, heardLeader)
    {
      hide HasSentinel, Compacted;
      var lastTerm := log.LastTerm();
      var lastIndex := log.LastIndex();
      var upToDate := args.lastTerm > lastTerm || (args.lastTerm == lastTerm && args.lastIndex >= lastIndex);
      if args.isPreVote {
        if heardLeader {
          return VoteReply(term, false);
        }
        return VoteReply(term, upToDate);
      }
      if args.term > term {
        BecomeFollower(args.term);
      }
      reply := VoteReply(term, false);
      if args.term < term {
        return;
      }
      var canVote := votedFor == "" || votedFor == args.candidate;
      if canVote && upToDate {
        votedFor := args.candidate;
        Persist();
        reply := reply.(granted := true);
      }
    }

    /** What startElection asks for; the node may have moved on since it stood. */
    method BuildVoteArgs() returns (args: VoteArgs)
      requires Valid()
      ensures args == Nodes.BuildVoteArgs(Value())
    {
      var lastIndex := log.LastIndex();
      var lastTerm := log.LastTerm();
      args := VoteArgs(term, id, lastIndex, lastTerm, false);
    }

    /** Counting the answers to a probe, one per peer; stops at a majority. */
    method ProbeSucceeds(answers: seq<bool>) returns (ok: bool)
      requires |answers| == |peers|
      ensures ok <==> |peers| > 0 && 1 + Granted(answers) >= MajoritySize(|peers| + 1)
      ensures Distinct(peers) && |peers| > 0 ==> forall args, granted ::
                ok <==> Program.Succeeded(Program.Probe(id, args, peers, granted, Granters(peers, answers)))
    {
      if Distinct(peers) {
        GrantedCounts(peers, answers);
      }
      if |peers| == 0 {
        return false;
      }
      var majority := MajoritySize(|peers| + 1);
      var votes := 1;
      for i := 0 to |answers|
        invariant votes == 1 + Granted(answers[..i]) < majority
      {
        assert answers[..i + 1][..i] == answers[..i];
        if answers[i] {
          votes := votes + 1;
          if votes >= majority {
            GrantedGrows(answers, i + 1);
            return true;
          }
        }
      }
      assert answers[..|answers|] == answers;
      return false;
    }

    /** A vote reply, taken in by the goroutine that holds the count. */
    method ReceiveVote(askedTerm: nat, votes: nat, reply: VoteReply) returns (votes': nat)
      requires Valid()
      modifies this
      ensures Valid() && (Value(), votes') == Nodes.ReceiveVote(old(Value()), askedTerm, votes, reply)
      ensures images == old(images) + StepDownWrites(old(Value()), reply.term)
    {
      votes' := votes;
      if reply.term > term {
        BecomeFollower(reply.term);
        return;
      }
      if role != Candidate || term != askedTerm {
        return;
      }
      if !reply.granted {
        return;
      }
      votes' := votes' + 1;
      var majority := MajoritySize(|peers| + 1);
      if votes' >= majority {
        BecomeLeader();
      }
    }

    // -------------------------------------------------------------- replication

    /** Append, persist, and send to every peer at once. */
    method Submit(command: Command) returns (r: SubmitResult, appends: map<Id, AppendArgs>, snapshots: map<Id, SnapshotArgs>)
      requires Valid()
      modifies this, log
      ensures Valid()
      ensures old(role) != Leader ==> r == Refused && Value() == old(Value()) && appends == map[] && snapshots == map[]
      ensures old(role) == Leader ==> r.Accepted? && (Value(), r.index, r.term) == Nodes.Submit(old(Value()), command)
      ensures r.Accepted? ==> log.whole == old(log.whole) + [CommandEntry(r.term, r.index, command)] && r.index == |log.whole|
      ensures r.Accepted? ==> RoundFrom(Value(), appends, snapshots)
      ensures images == old(images) + if r.Accepted? then [disk] else []
    {
      appends, snapshots := map[], map[];
      if role != Leader {
        return Refused, appends, snapshots;
      }
      var last := log.LastIndex();
      var index := last + 1;
      log.Append([CommandEntry(term, index, command)]);
      Persist();
      r := Accepted(index, term);
      appends, snapshots := BuildRound();
    }

    method BuildArgs(p: Id) returns (args: AppendArgs)
      requires Valid() && Index(nextIndex, p) > log.Base()
      ensures args == Nodes.BuildArgs(Value(), p)
    {
      hide Logs.Get, Logs.Slice, Compacted;
      var next := Index(nextIndex, p);
      var prev := log.Get(next - 1);
      var last := log.LastIndex();
      var es := log.Slice(next, last + 1);
      args := AppendArgs(term, id, next - 1, prev.term, es, commitIndex);
    }

    method BuildSnapshotArgs() returns (args: SnapshotArgs)
      requires Valid()
      ensures args == Nodes.BuildSnapshotArgs(Value())
    {
      args := SnapshotArgs(term, id, log.entries[0].index, log.entries[0].term, snapshotData);
    }

    /** The messages of one heartbeat round. */
    method BuildRound() returns (appends: map<Id, AppendArgs>, snapshots: map<Id, SnapshotArgs>)
      requires Valid()
      ensures RoundFrom(Value(), appends, snapshots)
    {
      appends, snapshots := map[], map[];
      for i := 0 to |peers|
        invariant forall p :: p in peers[..i] ==>
                    if NeedsSnapshot(Value(), p) then p !in appends && p in snapshots && snapshots[p] == Nodes.BuildSnapshotArgs(Value())
                    else p !in snapshots && p in appends && appends[p] == Nodes.BuildArgs(Value(), p)
        invariant appends.Keys + snapshots.Keys == set p | p in peers[..i]
      {
        var p := peers[i];
        assert peers[..i + 1] == peers[..i] + [p];
        if Index(nextIndex, p) <= log.entries[0].index {
          var args := BuildSnapshotArgs();
          snapshots := snapshots[p := args];
        } else {
          var args := BuildArgs(p);
          appends := appends[p := args];
        }
      }
      assert peers[..|peers|] == peers;
    }

    /**
     One heartbeat tick: the quorum check first, then a message to every peer. The messages are the
     ones the leader would have sent before the check, even when the check made it step down.
     */
    method Tick(recent: set<Id>) returns (appends: map<Id, AppendArgs>, snapshots: map<Id, SnapshotArgs>)
      requires Valid()
      modifies this
      ensures Valid() && Value() == Nodes.CheckQuorum(old(Value()), 1 + HeardFrom(old(peers), recent))
      ensures images == old(images) + CheckWrites(old(Value()), 1 + HeardFrom(old(peers), recent))
      ensures old(role) == Leader && Distinct(peers) && id !in peers ==>
                (role == Leader <==> |Present(id, peers, recent)| >= MajoritySize(|peers| + 1))
      ensures old(role) != Leader ==> appends == map[] && snapshots == map[]
      ensures old(role) == Leader ==> RoundFrom(old(Value()), appends, snapshots)
    {
      appends, snapshots := map[], map[];
      if role == Leader {
        CheckQuorum(recent);
        appends, snapshots := BuildRound();
        SameRound(old(Value()), 1 + HeardFrom(peers, recent), appends, snapshots);
      }
    }

    method HandleAppendEntries(args: AppendArgs) returns (reply: AppendReply)
      requires Valid()
      modifies this, log
      ensures Valid() && (Value(), reply) == Nodes.HandleAppendEntries(old(Value()), args)
      ensures reply.term == term == Max(old(term), args.term)
      ensures images == old(images) + AppendWrites(old(Value()), args)
    {
      AppendSteps(Value(), args);
      Terms.AppendRule(Value(), args);
      hide Nodes.HandleAppendEntries, Log.Valid, HasSentinel, Observed, Checked, AcceptedBy, StepDownWrites;
      Observe(args.term);
      if args.term == term && role == Candidate {
        role := Follower;
      }
      reply := AppendReply(term, false, 0, 0);
      if args.term < term {
        return;
      }
      leaderId := args.leader;
      reply := CheckPrevious(args.prevIndex, args.prevTerm);
      if reply.success {
        AcceptEntries(args);
      }
    }

    /** The log consistency check, with the hint a rejection carries. */
    method CheckPrevious(prevIndex: nat, prevTerm: nat) returns (reply: AppendReply)
      requires Valid()
      ensures reply == Checked(Value(), prevIndex, prevTerm)
    {
      reply := AppendReply(term, false, 0, 0);
      if prevIndex > 0 {
        var prev := log.Get(prevIndex);
        if prev.term == 0 {
          var last := log.LastIndex();
          return reply.(conflictIndex := last + 1);
        }
        if prev.term != prevTerm {
          var first := log.FirstIndexForTerm(prev.term);
          return reply.(conflictTerm := prev.term, conflictIndex := first);
        }
      }
      return reply.(success := true);
    }

    /** Take the entries, advance the commit index no further than the log, persist. */
    method AcceptEntries(args: AppendArgs)
      requires Valid()
      modifies this, log
      ensures Valid() && Value() == AcceptedBy(old(Value()), args)
      ensures images == old(images) + [disk]
    {
      hide AppendLoop;
      TakeEntries(args.entries);
      if args.leaderCommit > commitIndex {
        var last := log.LastIndex();
        if args.leaderCommit < last {
          commitIndex := args.leaderCommit;
        } else {
          commitIndex := last;
        }
      }
      Persist();
    }

    /** The loop over the entries of a message. */
    method TakeEntries(es: seq<LogEntry>)
      requires Valid()
      modifies log
      ensures Valid() && log.entries == AppendLoop(old(log.entries), es) && log.Base() == old(log.Base())
    {
      var i := 0;
      while i < |es|
        invariant i <= |es| && Valid() && log.entries == old(log.entries) && log.whole == old(log.whole)
        invariant AppendLoop(log.entries, es) == AppendLoop(log.entries, es[i..])
      {
        var e := es[i];
        assert es[i..][1..] == es[i + 1..];
        if e.index > log.entries[0].index {
          var existing := log.Get(e.index);
          if existing.term == 0 {
            log.Append(es[i..]);
            return;
          }
          if existing.term != e.term {
            log.TruncateFrom(e.index);
            log.Append(es[i..]);
            return;
          }
        }
        i := i + 1;
      }
    }

    method ReceiveAppendReply(p: Id, sentTerm: nat, args: AppendArgs, reply: AppendReply)
      requires Valid()
      modifies this
      ensures Valid() && Value() == Nodes.ReceiveAppendReply(old(Value()), p, sentTerm, args, reply)
      ensures images == old(images) + StepDownWrites(old(Value()), reply.term)
    {
      hide HasSentinel, Compacted, LastIndexForTerm, Nodes.MaybeCommit;
      if reply.term > term {
        BecomeFollower(reply.term);
        return;
      }
      if role != Leader || term != sentTerm {
        return;
      }
      if reply.success {
        var newMatch := args.prevIndex + |args.entries|;
        if newMatch <= Index(matchIndex, p) {
          newMatch := Index(matchIndex, p);
        }
        matchIndex := matchIndex[p := newMatch];
        nextIndex := nextIndex[p := newMatch + 1];
        MaybeCommit();
        return;
      }
      var next := reply.conflictIndex;
      if reply.conflictTerm != 0 {
        var found := LastOfTerm(reply.conflictTerm);
        if found > 0 {
          next := found + 1;
        }
      }
      if next < 1 {
        next := 1;
      }
      nextIndex := nextIndex[p := next];
    }

    /** The leader's scan back for the conflicting term. */
    method LastOfTerm(wanted: nat) returns (found: nat)
      requires Valid()
      ensures found == LastIndexForTerm(log.entries, wanted, LastIndex(log.entries))
      ensures found > 0 ==> found <= |log.whole| && Logs.Get(log.entries, found).term == wanted
      ensures forall i :: found < i <= |log.whole| ==> Logs.Get(log.entries, i).term != wanted
    {
      var i: nat := log.LastIndex();
      while i >= 1
        invariant i <= |log.whole|
        invariant LastIndexForTerm(log.entries, wanted, LastIndex(log.entries)) == LastIndexForTerm(log.entries, wanted, i)
        invariant forall j :: i < j <= |log.whole| ==> Logs.Get(log.entries, j).term != wanted
      {
        var e := log.Get(i);
        if e.term == wanted {
          return i;
        }
        i := i - 1;
      }
      return 0;
    }

    method MaybeCommit()
      requires Valid()
      modifies this`commitIndex
      ensures Valid() && Value() == Nodes.MaybeCommit(old(Value()))
    {
      var last := log.LastIndex();
      var indices := [last];
      for i := 0 to |peers|
        invariant indices == [last] + MatchIndices(peers[..i], matchIndex)
      {
        assert MatchIndices(peers[..i + 1], matchIndex) == MatchIndices(peers[..i], matchIndex) + [Index(matchIndex, peers[i])];
        indices := indices + [Index(matchIndex, peers[i])];
      }
      assert peers[..|peers|] == peers;
      assert indices == Progress(Value());
      SortedLength(indices);
      indices := Sort(indices);
      var majority := MajoritySize(|peers| + 1);
      var quorumIndex := indices[majority - 1];
      var e := log.Get(quorumIndex);
      if quorumIndex > commitIndex && e.term == term {
        commitIndex := quorumIndex;
      }
    }

    // -------------------------------------------------------------- snapshots

    method TakeSnapshot(data: Store)
      requires Valid()
      modifies this, log
      ensures Valid() && Value() == Nodes.TakeSnapshot(old(Value()), data)
      ensures images == old(images) + TakeSnapshotWrites(old(Value()), data)
      ensures old(lastApplied) <= |old(log.whole)| ==> log.whole == old(log.whole)
    {
      hide Logs.CompactTo, Overlay, PrefixAt, HasSentinel, Compacted;
      var index := lastApplied;
      if index == 0 || index <= log.entries[0].index {
        return;
      }
      var e := log.Get(index);
      SaveSnapshot(index, e.term, data);
      snapshotData := data;
      log.CompactTo(index, e.term);
      Persist();
    }

    method HandleInstallSnapshot(args: SnapshotArgs) returns (reply: SnapshotReply)
      requires Valid()
      modifies this, log, snapshotNotify
      ensures Valid() && (Value(), reply) == Nodes.HandleInstallSnapshot(old(Value()), args)
      ensures reply.term == term == Max(old(term), args.term)
      ensures images == old(images) + InstallWrites(old(Value()), args)
      ensures snapshotNotify.held == if Installs(old(Value()), args) then Pending(args.lastIndex, args.lastTerm, args.data)
                                     else old(snapshotNotify.held)
    {
      InstallSteps(Value(), args);
      Terms.InstallRule(Value(), args);
      hide Nodes.HandleInstallSnapshot, InstallWrites, Installs, Log.Valid, HasSentinel, Observed, InstalledOn, StepDownWrites;
      Observe(args.term);
      reply := SnapshotReply(term);
      if args.term < term {
        return;
      }
      leaderId := args.leader;
      var base := Boundary();
      if args.lastIndex > base {
        Install(args.lastIndex, args.lastTerm, args.data);
      }
    }

    method Boundary() returns (base: nat)
      requires Valid()
      ensures |log.entries| > 0 && base == SnapshotIndex(log.entries)
    {
      base := log.entries[0].index;
    }

    /** Save the snapshot, compact to it, move both indices up to it, persist, hand it to the apply loop. */
    method Install(index: nat, lastTerm: nat, data: Store)
      requires Valid() && index > SnapshotIndex(log.entries)
      modifies this, log, snapshotNotify
      ensures Valid()
      ensures var n := old(Value());
              && Value() == InstalledOn(n, index, lastTerm, data)
              && images == old(images) + [Nodes.SaveSnapshot(n, index, lastTerm, data).disk, disk]
      ensures snapshotNotify.held == Pending(index, lastTerm, data)
    {
      hide Logs.CompactTo, Overlay, PrefixAt, Log.Valid, HasSentinel;
      SaveSnapshot(index, lastTerm, data);
      snapshotData := data;
      log.CompactTo(index, lastTerm);
      AdvanceTo(index);
      Persist();
      snapshotNotify.Put(index, lastTerm, data);
    }

    method ReceiveSnapshotReply(p: Id, sentTerm: nat, args: SnapshotArgs, reply: SnapshotReply)
      requires Valid()
      modifies this
      ensures Valid() && Value() == Nodes.ReceiveSnapshotReply(old(Value()), p, sentTerm, args, reply)
      ensures old(role) == Leader && old(term) == sentTerm && reply.term <= sentTerm ==>
                && Index(matchIndex, p) == Max(args.lastIndex, Index(old(matchIndex), p))
                && Index(nextIndex, p) == Index(matchIndex, p) + 1
      ensures images == old(images) + StepDownWrites(old(Value()), reply.term)
    {
      if reply.term > term {
        BecomeFollower(reply.term);
        return;
      }
      if role != Leader || term != sentTerm {
        return;
      }
      if args.lastIndex > Index(matchIndex, p) {
        matchIndex := matchIndex[p := args.lastIndex];
      } else {
        matchIndex := matchIndex[p := Index(matchIndex, p)];
      }
      nextIndex := nextIndex[p := matchIndex[p] + 1];
    }

    // -------------------------------------------------------------- applying

    /** One turn of the apply loop under the lock: the entry is copied and counted as applied. */
    method TakeNext() returns (taken: bool, e: LogEntry)
      requires Valid()
      modifies this`lastApplied
      ensures Valid() && taken == CanApply(old(Value()))
      ensures taken ==> Value() == Nodes.TakeNext(old(Value())) && e == NextEntry(old(Value()))
      ensures !taken ==> Value() == old(Value())
    {
      hide Logs.Get, Compacted;
      if lastApplied >= commitIndex {
        return false, NO_ENTRY;
      }
      lastApplied := lastApplied + 1;
      e := log.Get(lastApplied);
      taken := true;
    }

    /** The rest of the turn, with the lock released: membership entries do not reach the state machine. */
    method FinishNext(e: LogEntry) returns (msgs: seq<ApplyMsg>)
      modifies stateMachine`data
      ensures stateMachine.data == ApplyEntry(old(stateMachine.data), e)
      ensures msgs == if e.isConfig then [] else [EntryMsg(e.index, e.term, ResultOf(e.command))]
    {
      if e.isConfig {
        return [];
      }
      var result := stateMachine.Apply(e.command);
      msgs := [EntryMsg(e.index, e.term, result)];
    }

    /** The other branch of the loop: whatever was applied since, the handed-over snapshot replaces the map. */
    method RestoreNotified() returns (msgs: seq<ApplyMsg>)
      modifies snapshotNotify, stateMachine`data
      ensures snapshotNotify.held == Nothing
      ensures match old(snapshotNotify.held)
              case Nothing => stateMachine.data == old(stateMachine.data) && msgs == []
              case Pending(_, _, data) => stateMachine.data == data && msgs == [SnapshotMsg]
    {
      match snapshotNotify.held
      case Nothing =>
        msgs := [];
      case Pending(_, _, data) =>
        stateMachine.Restore(data);
        snapshotNotify.held := Nothing;
        msgs := [SnapshotMsg];
    }

    /** The loop between two notifications, when nothing moves in between. */
    method ApplyCommitted()
      requires Valid()
      modifies this`lastApplied, stateMachine`data
      ensures Valid() && (Value(), stateMachine.data) == Drained(old(Value()), old(stateMachine.data))
    {
      hide Compacted, ApplyEntry, NextEntry, HasSentinel;
      while true
        invariant Valid() && Drained(Value(), stateMachine.data) == Drained(old(Value()), old(stateMachine.data))
        decreases commitIndex - lastApplied
      {
        var taken, e := TakeNext();
        if !taken {
          return;
        }
        var _ := FinishNext(e);
      }
    }
  }

  lemma SentinelFirst(es: seq<LogEntry>, whole: seq<LogEntry>)
    requires |es| > 0 && es[0].index <= |whole| && es == Compacted(whole, es[0].index)
    ensures HasSentinel(es)
  {
  }

  /** The apply loop folds exactly the committed entries that were not applied yet, in index order. */
  lemma {:induction false} DrainedReplays(n: Node, store: Store, whole: seq<LogEntry>, base: nat)
    requires base <= n.lastApplied <= n.commitIndex <= |whole| && n.log == Compacted(whole, base)
    ensures Drained(n, store) ==
            (n.(lastApplied := n.commitIndex), ReplayFrom(store, whole[n.lastApplied..n.commitIndex]))
    decreases n.commitIndex - n.lastApplied
  {
    if CanApply(n) {
      var n', e := TakeNext(n), NextEntry(n);
      GetCompacted(whole, base, n.lastApplied + 1);
      DrainedReplays(n', ApplyEntry(store, e), whole, base);
      var first, rest := [e], whole[n.lastApplied + 1..n.commitIndex];
      assert whole[n.lastApplied..n.commitIndex] == first + rest;
      ReplaySplit(store, first, rest);
      assert first[..0] == [];
      assert ReplayFrom(store, first) == ApplyEntry(store, e);
    } else {
      assert whole[n.lastApplied..n.commitIndex] == [];
    }
  }
}
