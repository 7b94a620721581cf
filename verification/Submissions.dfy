/** The fate of a submitted command, wherever the entry with its index and term turns up. */
module Submissions {
  import opened Entries
  import opened Nodes
  import opened Cluster
  import opened ClusterInv
  import opened Runs
  import opened Safety
  import ClusterLeaders
  import P = Protocol

  /** The index and term Submit returned for a command. */
  ghost predicate Submitted(c: Cluster, n: Id, command: Command, index: nat, term: nat) {
    && Live(c, n) && c.nodes[n].role == Leader
    && Submit(c.nodes[n], command).1 == index && Submit(c.nodes[n], command).2 == term
  }

  /**
   An entry known committed anywhere, at any later time, with the index and term a submitter
   was given is that submitter's own command.
   */
  lemma SubmittedCommandIsOwn(config: Config, events: seq<Event>, n: Id, command: Command, index: nat, term: nat,
                              more: seq<Event>, b: Id)
    requires ValidConfig(config) && VotesKept(config, events + [ClientSubmit(n, command)] + more)
    requires Submitted(Run(config, events), n, command, index, term)
    requires b in Run(config, events + [ClientSubmit(n, command)] + more).nodes
    requires index <= Run(config, events + [ClientSubmit(n, command)] + more).nodes[b].commitIndex
    ensures var log := WholeLog(Run(config, events + [ClientSubmit(n, command)] + more), b);
            && 1 <= index <= |log|
            && (log[index - 1].term == term ==> log[index - 1] == CommandEntry(term, index, command))
  {
    hide Run, Good, Grows, VotesKept, ValidConfig, Submitted;
    var sub := events + [ClientSubmit(n, command)];
    var c := Run(config, sub + more);
    KeptEarlier(config, sub, more);
    RecordedBySubmit(config, events, n, command, index, term);
    RunGrows(config, sub, more);
    LeaderLogsGrow(Run(config, sub).history, c.history, term, index);
    CommittedEntryOf(c, b, index, term);
  }

  lemma RecordedBySubmit(config: Config, events: seq<Event>, n: Id, command: Command, index: nat, term: nat)
    requires ValidConfig(config) && VotesKept(config, events + [ClientSubmit(n, command)])
    requires Submitted(Run(config, events), n, command, index, term)
    ensures var ll := Run(config, events + [ClientSubmit(n, command)]).history.leaderLog;
            term in ll && 1 <= index <= |ll[term]| && ll[term][index - 1] == CommandEntry(term, index, command)
  {
    hide Good, VotesKept, ValidConfig;
    var sub := events + [ClientSubmit(n, command)];
    assert sub[..|sub| - 1] == events;
    KeptEarlier(config, events, [ClientSubmit(n, command)]);
    RunGood(config, events);
    var c := Run(config, events);
    NodeFacts(c, n);
    ClusterLeaders.SubmitResult(c.nodes[n], c.history.peers[n], command);
  }

  /** A committed entry of a term is the one the leader of that term put there. */
  lemma CommittedEntryOf(c: Cluster, b: Id, index: nat, term: nat)
    requires Good(c) && b in c.nodes && 1 <= index <= c.nodes[b].commitIndex
    requires term in c.history.leaderLog && index <= |c.history.leaderLog[term]|
    ensures var log := WholeLog(c, b);
            index <= |log| && (log[index - 1].term == term ==> log[index - 1] == c.history.leaderLog[term][index - 1])
  {
    hide Good;
    NodeFacts(c, b);
    HistoryCommits(c);
    var h := c.history;
    var p := h.peers[b];
    CoveredBelow(h, p.log, p.commit, index, p.term);
    var cm :| cm in h.commits && P.Covers(h.leaderLog, cm, p.log, index, p.term);
    var lead := h.leaderLog[cm.term];
    assert P.LeaderLogOk(h.leaderLog, cm.term, h.elected[cm.term], lead);
    assert P.Clean(h.leaderLog, lead[..index]);
    assert p.log[index - 1] == p.log[..index][index - 1] == lead[..index][index - 1];
  }
}
