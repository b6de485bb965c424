/**
 The agreement core of the Raft peer, on complete logs: what survives of src/raft1/raft.go when
 compaction, indices into trimmed logs and message formats are stripped away.

 Beside each server's current term and complete log the state keeps history: the log with which a
 server stood for election in a term, each ballot with the log the voter held when casting it, who
 was elected by whom, the log each term's leader built, and how much of it each server acknowledged.
 */
module Consensus {
  import opened RaftLog
  import opened Quorum

  /** A server in a term. */
  datatype Slot = At(term: Term, server: Server)

  /** A vote, with the log of the voter when it was cast. */
  datatype Ballot = Ballot(candidate: Server, log: Log)

  /** An election won, with the log the leader stood with and the log it has built since. */
  datatype Election = Election(leader: Server, electors: set<Server>, initial: Log, log: Log)

  datatype State = State(
    terms: seq<Term>,
    logs: seq<Log>,
    stood: map<Slot, Log>,
    ballots: map<Slot, Ballot>,
    elected: map<Term, Election>,
    acked: map<Slot, nat>)

  // ---------------------------------------------------------------- steps

  /** Server s learns of a later term. */
  function Advance(g: State, s: Server, t: Term): State
    requires s < |g.terms|
  {
    g.(terms := g.terms[s := t])
  }

  /** Server s starts an election: next term, its own ballot. */
  function Stand(g: State, s: Server): State
    requires s < |g.terms| && s < |g.logs|
  {
    var t := g.terms[s] + 1;
    g.(terms := g.terms[s := t],
       stood := g.stood[At(t, s) := g.logs[s]],
       ballots := g.ballots[At(t, s) := Ballot(s, g.logs[s])])
  }

  /** Server s votes for c in its current term. */
  function Cast(g: State, s: Server, c: Server): State
    requires s < |g.terms| && s < |g.logs|
  {
    g.(ballots := g.ballots[At(g.terms[s], s) := Ballot(c, g.logs[s])])
  }

  function Grown(l: Log, t: Term, c: Command): Log {
    l + [Entry(t, |l|, c)]
  }

  /** Server s appends a command of its current term to its log, as the leader of that term. */
  function Lead(g: State, s: Server, c: Command): State
    requires s < |g.terms| && s < |g.logs| && g.terms[s] in g.elected
  {
    var t := g.terms[s];
    var l := Grown(g.logs[s], t, c);
    g.(logs := g.logs[s := l],
       elected := g.elected[t := g.elected[t].(log := l)],
       acked := g.acked[At(t, s) := |l|])
  }

  /** Server s is elected in its current term by the servers q, and appends its no-op. */
  function Elect(g: State, s: Server, q: set<Server>): State
    requires s < |g.terms| && s < |g.logs|
  {
    var t, l := g.terms[s], g.logs[s];
    var l' := Grown(l, t, Nop);
    g.(logs := g.logs[s := l'],
       elected := g.elected[t := Election(s, q, l, l')],
       acked := g.acked[At(t, s) := |l'|])
  }

  /** The log after accepting the leader's log m: m replaces the log unless already contained. */
  ghost function Accepted(l: Log, m: Log): Log {
    if Prefix(m, l) then l else m
  }

  /** Server s accepts and acknowledges m, a prefix of the log of its current term's leader. */
  ghost function Accept(g: State, s: Server, m: Log): State
    requires s < |g.terms| && s < |g.logs|
  {
    var key := At(g.terms[s], s);
    var n := if key in g.acked && g.acked[key] > |m| then g.acked[key] else |m|;
    g.(logs := g.logs[s := Accepted(g.logs[s], m)], acked := g.acked[key := n])
  }

  /** The log after installing the snapshot of prefix p: kept when it has p's last entry and more. */
  function Installed(l: Log, p: Log): Log
    requires |p| > 0
  {
    if |p| >= |l| || l[|p| - 1].term != LastTerm(p) then p else l
  }

  function Install(g: State, s: Server, p: Log): State
    requires s < |g.terms| && s < |g.logs| && |p| > 0
  {
    g.(logs := g.logs[s := Installed(g.logs[s], p)])
  }

  // ---------------------------------------------------------------- invariant

  /**
   Up to its entry i, l is an initial segment of the log of the leader that created the entry.
   */
  ghost predicate BackedAt(g: State, l: Log, i: int)
    requires 0 <= i < |l|
  {
    l[i].index == i && l[i].term in g.elected && Agree(l, g.elected[l[i].term].log, i + 1)
  }

  ghost predicate Backed(g: State, l: Log) {
    && |l| > 0
    && l[0] == SENTINEL
    && forall i :: 0 < i < |l| ==> BackedAt(g, l, i)
  }

  ghost predicate TermsAtMost(l: Log, t: int) {
    forall i :: 0 <= i < |l| ==> l[i].term <= t
  }

  ghost predicate LogOk(g: State, s: Server)
    requires |g.terms| == |g.logs|
  {
    s < |g.logs| ==> Backed(g, g.logs[s]) && TermsAtMost(g.logs[s], g.terms[s])
  }

  ghost predicate StoodOk(g: State, k: Slot) {
    k in g.stood ==>
      && k.server < |g.terms|
      && 1 <= k.term <= g.terms[k.server]
      && Backed(g, g.stood[k])
      && TermsAtMost(g.stood[k], k.term - 1)
      && k in g.ballots
      && g.ballots[k].candidate == k.server
  }

  ghost predicate BallotOk(g: State, k: Slot) {
    k in g.ballots ==>
      && k.server < |g.terms|
      && k.term <= g.terms[k.server]
      && Backed(g, g.ballots[k].log)
      && At(k.term, g.ballots[k].candidate) in g.stood
      && |g.stood[At(k.term, g.ballots[k].candidate)]| > 0
      && UpToDate(g.stood[At(k.term, g.ballots[k].candidate)], g.ballots[k].log)
  }

  /** The servers q all voted for c in term t. */
  ghost predicate VotedFor(g: State, t: Term, c: Server, q: set<Server>) {
    forall s :: s in q ==> At(t, s) in g.ballots && g.ballots[At(t, s)].candidate == c
  }

  /** A leader's log: the log it was elected with, then entries of its own term, at least one. */
  ghost predicate LeaderLogOk(t: Term, e: Election) {
    && Prefix(e.initial, e.log)
    && |e.initial| < |e.log|
    && TermsAtMost(e.initial, t - 1)
    && forall i :: |e.initial| <= i < |e.log| ==> e.log[i].term == t
  }

  ghost predicate ElectedOk(g: State, t: Term) {
    t in g.elected ==>
      var e := g.elected[t];
      && t >= 1
      && LeaderLogOk(t, e)
      && Backed(g, e.log)
      && At(t, e.leader) in g.stood
      && g.stood[At(t, e.leader)] == e.initial
      && Majority(|g.terms|, e.electors)
      && VotedFor(g, t, e.leader, e.electors)
  }

  /** A leader acknowledges its whole log, and while in its term has no other log. */
  ghost predicate LeaderOk(g: State, t: Term)
    requires |g.terms| == |g.logs|
  {
    t in g.elected ==>
      var c := g.elected[t].leader;
      && c < |g.terms|
      && At(t, c) in g.acked
      && g.acked[At(t, c)] == |g.elected[t].log|
      && (g.terms[c] == t ==> g.logs[c] == g.elected[t].log)
  }

  /** The leader of term u was elected after term t, without the first j entries of term t's log. */
  ghost predicate DroppedBy(g: State, t: Term, j: nat, u: Term) {
    t in g.elected && u in g.elected && t < u && !Agree(g.elected[t].log, g.elected[u].initial, j)
  }

  ghost predicate Dropped(g: State, t: Term, j: nat, hi: int) {
    exists u: nat :: u <= hi && DroppedBy(g, t, j, u)
  }

  /** l has the first j entries of term t's log, unless a leader up to term hi dropped them. */
  ghost predicate KeptAt(g: State, t: Term, j: nat, l: Log, hi: int) {
    t in g.elected && (Agree(g.elected[t].log, l, j) || Dropped(g, t, j, hi))
  }

  ghost predicate Kept(g: State, t: Term, k: nat, l: Log, hi: int) {
    forall j: nat :: j <= k ==> KeptAt(g, t, j, l, hi)
  }

  ghost predicate AckOk(g: State, k: Slot)
    requires |g.terms| == |g.logs|
  {
    k in g.acked ==>
      && k.server < |g.terms|
      && k.term <= g.terms[k.server]
      && k.term in g.elected
      && g.acked[k] <= |g.elected[k.term].log|
      && Kept(g, k.term, g.acked[k], g.logs[k.server], g.terms[k.server])
  }

  /** The ballot was cast before its term had a leader, or counted for that leader. */
  ghost predicate Counts(g: State, k: Slot) {
    k in g.ballots && (k.term in g.elected ==> k.server in g.elected[k.term].electors)
  }

  /** A voter's log still held what the voter had acknowledged in an earlier term t. */
  ghost predicate BallotKeeps(g: State, k: Slot, t: Term) {
    Counts(g, k) && At(t, k.server) in g.acked && t < k.term ==>
      Kept(g, t, g.acked[At(t, k.server)], g.ballots[k].log, k.term - 1)
  }

  /** The servers that acknowledged the first k entries of term t's log. */
  ghost function Ackers(g: State, t: Term, k: nat): set<Server> {
    set s | 0 <= s < |g.terms| && At(t, s) in g.acked && g.acked[At(t, s)] >= k
  }

  /** The first k entries of term t's log, the last one of term t, are held by a majority. */
  ghost predicate Chosen(g: State, t: Term, k: nat) {
    && t in g.elected
    && |g.elected[t].initial| < k <= |g.elected[t].log|
    && Majority(|g.terms|, Ackers(g, t, k))
  }

  /** Something chosen in an earlier term is missing from the log l. */
  ghost predicate Lacks(g: State, t: Term, l: Log) {
    exists u: nat, k: nat :: u < t && Chosen(g, u, k) && !Agree(g.elected[u].log, l, k)
  }

  /** A candidate whose term has no leader yet has the log it stood with, or cannot win. */
  ghost predicate CandidateOk(g: State, k: Slot)
    requires |g.terms| == |g.logs|
  {
    k in g.stood && k.server < |g.terms| && k.term == g.terms[k.server] && k.term !in g.elected ==>
      g.logs[k.server] == g.stood[k] || Lacks(g, k.term, g.stood[k])
  }

  /** All that leader completeness needs. */
  ghost predicate History(g: State) {
    && (forall k :: StoodOk(g, k))
    && (forall k :: BallotOk(g, k))
    && (forall t :: ElectedOk(g, t))
    && (forall k, t :: BallotKeeps(g, k, t))
  }

  ghost predicate Inv(g: State) {
    && |g.terms| == |g.logs|
    && |g.terms| > 0
    && History(g)
    && (forall s :: LogOk(g, s))
    && (forall t :: LeaderOk(g, t))
    && (forall k :: AckOk(g, k))
    && (forall k :: CandidateOk(g, k))
  }

  /** The first k entries of l are committed by a leader of a term up to t. */
  ghost predicate Committed(g: State, t: Term, l: Log, k: nat) {
    && 1 <= k <= |l|
    && l[0] == SENTINEL
    && (k == 1 || exists u: nat, m: nat ::
                    u <= t && Chosen(g, u, m) && k <= m && Agree(l, g.elected[u].log, k))
  }
}
