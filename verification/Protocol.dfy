/**
 The protocol behind the handlers: what each node holds once compaction is
 undone, together with the history that the safety argument speaks about. Each
 transition below is one critical section of the code, or a part of one, seen at
 this level. The transitions are total functions, so carrying them along never
 restricts what the nodes can do.
 */
module Protocol {
  import opened Entries
  import opened Logs
  import opened Quorums

  /** A node without compaction: log is the whole log, base the snapshot boundary. */
  datatype Peer = Peer(term: nat, vote: Id, role: Role, log: seq<LogEntry>, base: nat, commit: nat)

  /** A won election: who won, with whose votes, and the log position it was won with. */
  datatype Election = Election(leader: Id, voters: set<Id>, lastTerm: nat, lastIndex: nat)

  /** A granted vote and the log position the candidate claimed for it. */
  datatype Vote = Vote(term: nat, voter: Id, candidate: Id, lastTerm: nat, lastIndex: nat)

  /** The voter confirmed to the leader of the term that their logs agree through index. */
  datatype Ack = Ack(voter: Id, term: nat, index: nat)

  /** The leader of the term advanced its commit index by counting the holders. */
  datatype Commit = Commit(term: nat, index: nat, holders: set<Id>)

  type LeaderLogs = map<nat, seq<LogEntry>>

  datatype History = History(
    members: set<Id>,
    peers: map<Id, Peer>,
    elected: map<nat, Election>,   // last winner of each term
    leaderLog: LeaderLogs,         // the append-only log of the leader of each term
    votes: set<Vote>,
    forgot: set<(Id, nat)>,        // votes erased by a same-term step-down
    acks: set<Ack>,                // confirmations above the confirming node's boundary
    matched: set<Ack>,             // all confirmations
    commits: set<Commit>)

  // ---------------------------------------------------------------- transitions

  function Start(members: set<Id>): History {
    History(members, map n | n in members :: Peer(0, "", Follower, [], 0, 0),
            map[], map[], {}, {}, {}, {}, {})
  }

  function WithPeer(h: History, n: Id, p: Peer): History {
    h.(peers := h.peers[n := p])
  }

  /** A higher term was seen. */
  function Follow(h: History, n: Id, term: nat): History
    requires n in h.peers
  {
    WithPeer(h, n, h.peers[n].(term := term, vote := "", role := Follower))
  }

  /** A candidate hears from a leader of its own term. */
  function StepBack(h: History, n: Id): History
    requires n in h.peers
  {
    WithPeer(h, n, h.peers[n].(role := Follower))
  }

  function OwnVote(h: History, n: Id): Vote
    requires n in h.peers
  {
    var p := h.peers[n];
    Vote(p.term + 1, n, n, LastTermOf(p.log), |p.log|)
  }

  function Stand(h: History, n: Id): History
    requires n in h.peers
  {
    WithPeer(h, n, h.peers[n].(term := h.peers[n].term + 1, vote := n, role := Candidate))
    .(votes := h.votes + {OwnVote(h, n)})
  }

  function Grant(h: History, n: Id, vote: Vote): History
    requires n in h.peers
  {
    WithPeer(h, n, h.peers[n].(vote := vote.candidate)).(votes := h.votes + {vote})
  }

  function Win(h: History, n: Id, voters: set<Id>): History
    requires n in h.peers
  {
    var p := h.peers[n];
    WithPeer(h, n, p.(role := Leader)).(
    elected := h.elected[p.term := Election(n, voters, LastTermOf(p.log), |p.log|)],
    leaderLog := h.leaderLog[p.term := p.log])
  }

  /** A quorum check that steps down within its term, and with it erases the vote. */
  function Forget(h: History, n: Id): History
    requires n in h.peers
  {
    WithPeer(h, n, h.peers[n].(vote := "", role := Follower))
    .(forgot := h.forgot + {(n, h.peers[n].term)})
  }

  function LeaderAppend(h: History, n: Id, entry: LogEntry): History
    requires n in h.peers
  {
    var p := h.peers[n];
    WithPeer(h, n, p.(log := p.log + [entry])).(
    leaderLog := h.leaderLog[p.term := p.log + [entry]])
  }

  /** Agreement with the leader of the node's term through `index` was confirmed. */
  function Accept(h: History, n: Id, index: nat, commit: nat): History
    requires n in h.peers && h.peers[n].term in h.leaderLog
    requires index <= |h.leaderLog[h.peers[n].term]|
  {
    var p := h.peers[n];
    var ack := Ack(n, p.term, index);
    WithPeer(h, n, p.(log := Adopt(p.log, h.leaderLog[p.term][..index]), commit := commit, role := Follower)).(
    acks := if index > p.base then h.acks + {ack} else h.acks,
    matched := h.matched + {ack})
  }

  /** A snapshot reaching `index` arrived from the leader of the node's term. */
  function Install(h: History, n: Id, index: nat): History
    requires n in h.peers && h.peers[n].term in h.leaderLog
    requires index <= |h.leaderLog[h.peers[n].term]|
  {
    var p := h.peers[n];
    WithPeer(h, n, p.(log := Overlay(p.log, h.leaderLog[p.term][..index]),
                      base := index,
                      commit := if p.commit < index then index else p.commit))
  }

  /** Agreement through `index` holds because the node's own snapshot reaches that far. */
  function Confirm(h: History, n: Id, index: nat): History
    requires n in h.peers
  {
    h.(matched := h.matched + {Ack(n, h.peers[n].term, index)})
  }

  function Advance(h: History, n: Id, index: nat, holders: set<Id>): History
    requires n in h.peers
  {
    var p := h.peers[n];
    WithPeer(h, n, p.(commit := index)).(
    commits := h.commits + {Commit(p.term, index, holders)},
    acks := h.acks + (set x | x in holders :: Ack(x, p.term, index)))
  }

  function Compact(h: History, n: Id, base: nat): History
    requires n in h.peers
  {
    WithPeer(h, n, h.peers[n].(base := base))
  }

  function Restart(h: History, n: Id): History
    requires n in h.peers
  {
    WithPeer(h, n, h.peers[n].(role := Follower, commit := h.peers[n].base))
  }

  // ---------------------------------------------------------------- vocabulary

  /** A log is clean when it is a prefix of the log of the leader of its last term. */
  ghost predicate Clean(ll: LeaderLogs, log: seq<LogEntry>) {
    |log| > 0 ==> LastTermOf(log) in ll && log <= ll[LastTermOf(log)]
  }

  /** The leader of `u` holds the first k entries of the leader of `c`. */
  ghost predicate Has(ll: LeaderLogs, u: nat, c: nat, k: nat)
    requires u in ll && c in ll && k <= |ll[c]|
  {
    k <= |ll[u]| && ll[u][..k] == ll[c][..k]
  }

  /** Every leader after `c` and before `limit` holds the first k entries of the leader of c. */
  ghost predicate AllHave(ll: LeaderLogs, c: nat, k: nat, limit: nat)
    requires c in ll && k <= |ll[c]|
  {
    forall u :: u in ll && c < u < limit ==> Has(ll, u, c, k)
  }

  /** The log starts with the first k entries of `lead` and nothing older follows them. */
  ghost predicate Keeps(log: seq<LogEntry>, lead: seq<LogEntry>, k: nat)
    requires 1 <= k <= |lead|
  {
    && k <= |log|
    && log[..k] == lead[..k]
    && forall j :: k <= j < |log| ==> log[j].term >= lead[k - 1].term
  }

  /** The comparison of section 5.4.1: is (t1, i1) at least as up to date as (t2, i2)? */
  predicate AtLeast(t1: nat, i1: nat, t2: nat, i2: nat) {
    t1 > t2 || (t1 == t2 && i1 >= i2)
  }

  /** A suffix left behind a foreign snapshot: still the leaders' it came from, but they disagree with the boundary entry. */
  ghost predicate Stale(ll: LeaderLogs, log: seq<LogEntry>, base: nat)
    requires 1 <= base <= |log|
  {
    forall j :: base <= j < |log| ==>
      && log[j].term in ll
      && j < |ll[log[j].term]|
      && log[base..j + 1] == ll[log[j].term][base..j + 1]
      && ll[log[j].term][base - 1] != log[base - 1]
  }

  ghost predicate Dirty(ll: LeaderLogs, p: Peer) {
    && 1 <= p.base <= |p.log|
    && p.commit == p.base
    && !p.role.Leader?
    && Clean(ll, p.log[..p.base])
    && Stale(ll, p.log, p.base)
  }

  /** Some counted commit of a term up to `limit` covers the first k entries of the log. */
  ghost predicate Covered(ll: LeaderLogs, commits: set<Commit>, log: seq<LogEntry>, k: nat, limit: nat) {
    k > 0 ==> exists cm :: cm in commits && Covers(ll, cm, log, k, limit)
  }

  ghost predicate Covers(ll: LeaderLogs, cm: Commit, log: seq<LogEntry>, k: nat, limit: nat) {
    && cm.term <= limit
    && cm.term in ll
    && k <= cm.index <= |ll[cm.term]|
    && k <= |log|
    && log[..k] == ll[cm.term][..k]
  }

  // ---------------------------------------------------------------- invariant

  /** No voter chose twice in a term. */
  ghost predicate OneChoice(votes: set<Vote>) {
    forall v, w :: v in votes && w in votes && v.voter == w.voter && v.term == w.term ==> v.candidate == w.candidate
  }

  /** No freed vote was cast again, or the membership is even so that it is outvoted. */
  ghost predicate VotesKept(h: History) {
    |h.members| % 2 == 0 || OneChoice(h.votes)
  }

  ghost predicate ElectionOk(members: set<Id>, peers: map<Id, Peer>, votes: set<Vote>, t: nat, e: Election) {
    && t >= 1
    && e.leader in peers
    && t <= peers[e.leader].term
    && IsMajority(e.voters, members)
    && (forall x :: x in e.voters ==> Vote(t, x, e.leader, e.lastTerm, e.lastIndex) in votes)
  }

  ghost predicate ElectionsOk(members: set<Id>, peers: map<Id, Peer>, elected: map<nat, Election>, votes: set<Vote>) {
    forall t :: t in elected ==> ElectionOk(members, peers, votes, t, elected[t])
  }

  ghost predicate Shape(h: History) {
    && h.peers.Keys == h.members
    && "" !in h.members
    && h.elected.Keys == h.leaderLog.Keys
  }

  ghost predicate VoteOk(peers: map<Id, Peer>, forgot: set<(Id, nat)>, v: Vote) {
    && v.voter in peers
    && v.candidate in peers
    && v.term <= peers[v.voter].term
    && (v.term == peers[v.voter].term && (v.voter, v.term) !in forgot ==>
          peers[v.voter].vote == v.candidate)
  }

  ghost predicate SameChoice(forgot: set<(Id, nat)>, v: Vote, w: Vote) {
    v.voter == w.voter && v.term == w.term && (v.voter, v.term) !in forgot ==>
      v.candidate == w.candidate
  }

  ghost predicate VotesOk(peers: map<Id, Peer>, votes: set<Vote>, forgot: set<(Id, nat)>) {
    && (forall v :: v in votes ==> VoteOk(peers, forgot, v))
    && (forall v, w :: v in votes && w in votes ==> SameChoice(forgot, v, w))
  }

  ghost predicate ForgotOk(elected: map<nat, Election>, forgot: set<(Id, nat)>) {
    forall f :: f in forgot ==> f.1 in elected && elected[f.1].leader == f.0
  }

  ghost predicate RoleOk(elected: map<nat, Election>, ll: LeaderLogs, votes: set<Vote>, n: Id, p: Peer) {
    && (p.role.Leader? ==> p.term in elected && p.term in ll && elected[p.term].leader == n && ll[p.term] == p.log)
    && (p.role.Candidate? ==>
          && p.term >= 1
          && p.vote == n
          && (p.term in elected ==> elected[p.term].leader != n)
          && (p.term in elected || Vote(p.term, n, n, LastTermOf(p.log), |p.log|) in votes))
  }

  ghost predicate RolesOk(peers: map<Id, Peer>, elected: map<nat, Election>, ll: LeaderLogs, votes: set<Vote>) {
    forall n :: n in peers ==> RoleOk(elected, ll, votes, n, peers[n])
  }

  ghost predicate LeaderLogOk(ll: LeaderLogs, t: nat, e: Election, log: seq<LogEntry>) {
    && WellIndexed(log)
    && Monotone(log)
    && (forall i :: 0 <= i < |log| ==> 1 <= log[i].term <= t)
    && (forall i :: 0 <= i <= |log| ==> Clean(ll, log[..i]))
    && e.lastIndex <= |log|
    && e.lastTerm == TermAt(log, e.lastIndex)
    && (forall i :: 0 <= i < e.lastIndex ==> log[i].term < t)
    && (forall i :: e.lastIndex <= i < |log| ==> log[i].term == t)
  }

  ghost predicate LeaderLogsOk(elected: map<nat, Election>, ll: LeaderLogs) {
    forall t :: t in elected && t in ll ==> LeaderLogOk(ll, t, elected[t], ll[t])
  }

  ghost predicate PeerLogOk(ll: LeaderLogs, commits: set<Commit>, p: Peer) {
    && p.base <= p.commit <= |p.log|
    && WellIndexed(p.log)
    && (forall i :: 0 <= i < |p.log| ==> 1 <= p.log[i].term <= p.term)
    && (Clean(ll, p.log) || Dirty(ll, p))
    && Covered(ll, commits, p.log, p.commit, p.term)
  }

  ghost predicate PeerLogsOk(peers: map<Id, Peer>, ll: LeaderLogs, commits: set<Commit>) {
    forall n :: n in peers ==> PeerLogOk(ll, commits, peers[n])
  }

  ghost predicate AckShape(peers: map<Id, Peer>, ll: LeaderLogs, a: Ack) {
    && a.voter in peers
    && a.term in ll
    && 1 <= a.index <= |ll[a.term]|
    && a.term <= peers[a.voter].term
  }

  /** What a confirmed position is worth later: it survives unless some leader lacks it. */
  ghost predicate Retained(ll: LeaderLogs, a: Ack, k: nat, p: Peer) {
    a.term in ll && 1 <= k <= |ll[a.term]| && AllHave(ll, a.term, k, p.term + 1) ==>
      Keeps(p.log, ll[a.term], k)
  }

  ghost predicate AckOk(peers: map<Id, Peer>, ll: LeaderLogs, a: Ack) {
    AckShape(peers, ll, a) && forall k :: 1 <= k <= a.index ==> Retained(ll, a, k, peers[a.voter])
  }

  ghost predicate AcksOk(peers: map<Id, Peer>, ll: LeaderLogs, acks: set<Ack>) {
    forall a :: a in acks ==> AckOk(peers, ll, a)
  }

  ghost predicate MatchOk(peers: map<Id, Peer>, ll: LeaderLogs, a: Ack) {
    && a.voter in peers
    && a.term in ll
    && a.index <= |ll[a.term]|
    && a.term <= peers[a.voter].term
    && (a.term == peers[a.voter].term ==> ll[a.term][..a.index] <= peers[a.voter].log)
  }

  ghost predicate MatchesOk(peers: map<Id, Peer>, ll: LeaderLogs, matched: set<Ack>) {
    forall a :: a in matched ==> MatchOk(peers, ll, a)
  }

  /** A vote cast after a confirmation forces the candidate to reach at least that far. */
  ghost predicate Forces(ll: LeaderLogs, a: Ack, k: nat, lastTerm: nat, lastIndex: nat, limit: nat) {
    a.term in ll && 1 <= k <= |ll[a.term]| && AllHave(ll, a.term, k, limit) ==>
      AtLeast(lastTerm, lastIndex, ll[a.term][k - 1].term, k)
  }

  ghost predicate OpenVoteForces(elected: map<nat, Election>, ll: LeaderLogs, v: Vote, a: Ack) {
    v.term !in elected && a.voter == v.voter && a.term < v.term ==>
      forall k :: 1 <= k <= a.index ==> Forces(ll, a, k, v.lastTerm, v.lastIndex, v.term)
  }

  ghost predicate WonVoteForces(ll: LeaderLogs, t: nat, e: Election, a: Ack) {
    a.voter in e.voters && a.term < t ==>
      forall k :: 1 <= k <= a.index ==> Forces(ll, a, k, e.lastTerm, e.lastIndex, t)
  }

  ghost predicate VotesForce(elected: map<nat, Election>, ll: LeaderLogs, votes: set<Vote>, acks: set<Ack>) {
    && (forall v, a :: v in votes && a in acks ==> OpenVoteForces(elected, ll, v, a))
    && (forall t, a :: t in elected && a in acks ==> WonVoteForces(ll, t, elected[t], a))
  }

  /** Counted commits are held by a majority and by every later leader. */
  ghost predicate CommitOk(members: set<Id>, ll: LeaderLogs, acks: set<Ack>, cm: Commit) {
    && cm.term in ll
    && 1 <= cm.index <= |ll[cm.term]|
    && ll[cm.term][cm.index - 1].term == cm.term
    && IsMajority(cm.holders, members)
    && (forall x :: x in cm.holders ==> Ack(x, cm.term, cm.index) in acks)
    && (forall t :: t in ll && t > cm.term ==> Has(ll, t, cm.term, cm.index))
  }

  ghost predicate CommitsOk(members: set<Id>, ll: LeaderLogs, acks: set<Ack>, commits: set<Commit>) {
    forall cm :: cm in commits ==> CommitOk(members, ll, acks, cm)
  }

  /** A sitting leader knows every commit counted in its term. */
  ghost predicate Informed(p: Peer, commits: set<Commit>) {
    p.role.Leader? ==> forall cm :: cm in commits && cm.term == p.term ==> cm.index <= p.commit
  }

  ghost predicate LeadersInformed(peers: map<Id, Peer>, commits: set<Commit>) {
    forall n :: n in peers ==> Informed(peers[n], commits)
  }

  ghost predicate Inv(h: History) {
    && Shape(h)
    && ElectionsOk(h.members, h.peers, h.elected, h.votes)
    && VotesOk(h.peers, h.votes, h.forgot)
    && ForgotOk(h.elected, h.forgot)
    && RolesOk(h.peers, h.elected, h.leaderLog, h.votes)
    && LeaderLogsOk(h.elected, h.leaderLog)
    && PeerLogsOk(h.peers, h.leaderLog, h.commits)
    && AcksOk(h.peers, h.leaderLog, h.acks)
    && MatchesOk(h.peers, h.leaderLog, h.matched)
    && VotesForce(h.elected, h.leaderLog, h.votes, h.acks)
    && CommitsOk(h.members, h.leaderLog, h.acks, h.commits)
    && LeadersInformed(h.peers, h.commits)
  }

  lemma StartInv(members: set<Id>)
    requires "" !in members
    ensures Inv(Start(members)) && VotesKept(Start(members))
  {
  }
}
