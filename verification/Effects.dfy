/** What the sections do, in every state of every run, beside keeping what must be kept: elections, commits. */
module Effects {
  import P = Peer
  import opened RaftLog
  import opened Quorum
  import opened Consensus
  import opened Cluster
  import opened ClusterInv
  import opened ElectionSteps
  import opened Safety

  /** Every peer of a run is in order. */
  lemma RunPeer(r: seq<Cluster>, i: nat, s: Server)
    requires Run(r) && i < |r| && s < |r[i].peers|
    ensures Inv(r[i].g) && s < |r[i].g.terms| == |r[i].peers|
    ensures PeerOk(r[i].g, r[i].counted, s, r[i].peers[s]) && P.Valid(r[i].peers[s])
  {
    RunInv(r, i);
    assert PeerOk(r[i].g, r[i].counted, s, r[i].peers[s]);
    PeerValid(r[i].g, r[i].counted, s, r[i].peers[s]);
  }

  function Later(a: Term, b: Term): Term {
    if a < b then b else a
  }

  // ---------------------------------------------------------------- votes

  /** The end of a trimmed log is the end of the complete log. */
  lemma EndOfLog(p: P.Peer, l: Log)
    requires P.Valid(p) && Trimmed(p.log, l)
    ensures P.LastIndex(p) == |l| - 1 && p.log[|p.log| - 1].term == LastTerm(l)
  {
  }

  /** s may vote for c in term t: c stood with a log as good as that of s, and s has not voted for another. */
  ghost predicate MayVote(g: State, s: Server, t: Term, c: Server)
    requires s < |g.logs| && |g.logs[s]| > 0
  {
    && At(t, c) in g.stood && |g.stood[At(t, c)]| > 0
    && UpToDate(g.stood[At(t, c)], g.logs[s])
    && (At(t, s) in g.ballots ==> g.ballots[At(t, s)].candidate == c)
  }

  /**
   A vote is granted exactly if the request is not behind, the candidate's log is up to date, and no
   other candidate of the term has the server's ballot. The vote is then on disk, and the answer carries
   the server's term.
   */
  lemma VoteGrantedExactly(r: seq<Cluster>, i: nat, s: Server, a: P.VoteArgs)
    requires Run(r) && 0 < i < |r| && HandleVote(r[i - 1], r[i], s, a)
    ensures s < |r[i - 1].g.logs| && |r[i - 1].g.logs[s]| > 0
    ensures var p, q, reply := r[i - 1].peers[s], r[i].peers[s], P.RequestVote(r[i - 1].peers[s], a).1;
            && VoteReplied(s, a, reply) in r[i].net
            && (reply.voteGranted <==> p.currentTerm <= a.term && MayVote(r[i - 1].g, s, a.term, a.candidateId))
            && reply.term == q.currentTerm == Later(p.currentTerm, a.term)
            && (reply.voteGranted ==> q.votedFor == q.disk.votedFor == a.candidateId && q.disk.term == a.term)
            && (!reply.voteGranted ==> q.votedFor == if p.currentTerm < a.term then P.NOBODY else p.votedFor)
            && q.role == (if p.currentTerm < a.term then P.Follower else p.role)
            && q.log == p.log && q.snapshot == p.snapshot && q.commitIndex == p.commitIndex
  {
    RunPeer(r, i - 1, s);
    RunInv(r, i - 1);
    assert MessageOk(r[i - 1].g, r[i - 1].peers, VoteRequested(a));
    VoteDecision(r[i - 1].g, s, r[i - 1].peers[s], a);
  }

  lemma VoteDecision(g: State, s: Server, p: P.Peer, a: P.VoteArgs)
    requires Inv(g) && s < |g.terms| && StateOk(g, s, p) && VoteOk(g, s, p) && P.Valid(p) && VoteRequestOk(g, a)
    ensures |g.logs[s]| > 0
    ensures P.RequestVote(p, a).1.voteGranted <==> p.currentTerm <= a.term && MayVote(g, s, a.term, a.candidateId)
  {
    EndOfLog(p, g.logs[s]);
    assert BallotOk(g, At(a.term, s));
  }

  /** A timeout makes a candidate of the next term, its own vote on disk, and asks with its own log. */
  lemma TimesOut(r: seq<Cluster>, i: nat, s: Server)
    requires Run(r) && 0 < i < |r| && Timeout(r[i - 1], r[i], s)
    ensures s < |r[i].g.logs| && |r[i].g.logs[s]| > 0
    ensures var p, q, l := r[i - 1].peers[s], r[i].peers[s], r[i].g.logs[s];
            && q.role == P.Candidate && q.currentTerm == p.currentTerm + 1
            && q.disk.term == q.currentTerm && q.votedFor == q.disk.votedFor == s && q.log == p.log
            && VoteRequested(P.VoteArgs(q.currentTerm, s, |l| - 1, LastTerm(l))) in r[i].net
  {
    RunPeer(r, i - 1, s);
    EndOfLog(r[i - 1].peers[s], r[i - 1].g.logs[s]);
  }

  /** q is what an answer to a vote request makes of p, whose counted voters are then `tally`. */
  ghost predicate ElectionEffect(p: P.Peer, q: P.Peer, a: P.VoteArgs, reply: P.VoteReply, n: nat, tally: set<Server>) {
    if a.term != p.currentTerm || p.role != P.Candidate then q == p
    else if !reply.voteGranted then
      && q.currentTerm == Later(p.currentTerm, reply.term)
      && q.role == (if p.currentTerm < reply.term then P.Follower else P.Candidate)
    else
      && q.currentTerm == p.currentTerm
      && (q.role == P.Leader <==> Majority(n, tally))
      && (q.role != P.Leader ==> q.role == P.Candidate && q.log == p.log)
      && (q.role == P.Leader ==> LeadsAfresh(p, q))
  }

  ghost predicate LeadsAfresh(p: P.Peer, q: P.Peer) {
    && |p.log| > 0
    && q.log == p.log + [Entry(p.currentTerm, P.LastIndex(p) + 1, Nop)] && q.disk.log == q.log
    && |q.nextIndex| == |q.matchIndex| == |p.nextIndex|
    && forall x :: 0 <= x < |q.nextIndex| && x != q.me ==> q.nextIndex[x] == P.LastIndex(p) + 1 && q.matchIndex[x] == 0
  }

  lemma VoteCounting(p: P.Peer, a: P.VoteArgs, reply: P.VoteReply, n: nat, tally: set<Server>)
    requires P.Valid(p) && |p.nextIndex| == n && tally <= Servers(n)
    requires a.term == p.currentTerm && p.role == P.Candidate && reply.voteGranted ==> |tally| == p.voteGrantedCount + 1
    ensures ElectionEffect(p, P.VoteAnswered(p, a, reply), a, reply, n, tally)
  {
  }

  /**
   A candidate becomes leader exactly when the votes counted for it are those of a majority. It then has
   the no-op of its term at its end, will send from there, and takes nothing for matched.
   */
  lemma BecomesLeaderExactly(r: seq<Cluster>, i: nat, s: Server, v: Server, a: P.VoteArgs, reply: P.VoteReply)
    requires Run(r) && 0 < i < |r| && VoteAnswered(r[i - 1], r[i], s, v, a, reply)
    ensures var n := |r[i].peers|;
            ElectionEffect(r[i - 1].peers[s], r[i].peers[s], a, reply, n, Tally(r[i].counted, n, a.term, s))
  {
    RunPeer(r, i - 1, s);
    RunVoter(r, i - 1, v, a, reply);
    var p, n := r[i - 1].peers[s], |r[i].peers|;
    if a.term == p.currentTerm && p.role == P.Candidate && reply.voteGranted {
      TallyGrows(r[i - 1].counted, n, a.term, s, v);
    }
    VoteCounting(p, a, reply, n, Tally(r[i].counted, n, a.term, s));
  }

  lemma RunVoter(r: seq<Cluster>, i: nat, v: Server, a: P.VoteArgs, reply: P.VoteReply)
    requires Run(r) && i < |r| && VoteReplied(v, a, reply) in r[i].net
    ensures v < |r[i].peers| && v != a.candidateId
  {
    RunInv(r, i);
    assert MessageOk(r[i].g, r[i].peers, VoteReplied(v, a, reply));
  }

  // ---------------------------------------------------------------- commits

  /** Entry y of the leader q of s is of its term and held by a majority of n. */
  ghost predicate MajorityHolds(q: P.Peer, s: Server, n: nat, y: nat) {
    Holds(q, y) && EntryAt(q, y).term == q.currentTerm && Majority(n, Holders(s, q.matchIndex, y))
  }

  lemma MajorityIsCommitted(r: seq<Cluster>, i: nat, s: Server, y: nat)
    requires Run(r) && i < |r| && s < |r[i].peers| && r[i].peers[s].role == P.Leader
    requires MajorityHolds(r[i].peers[s], s, |r[i].peers|, y)
    ensures y <= r[i].peers[s].commitIndex
  {
    if r[i].peers[s].commitIndex < y { NothingLeftToCommit(r, i, s, y); }
  }

  /** q is what a successful answer of v makes of the leader p in its term. */
  ghost predicate AnswerEffect(p: P.Peer, q: P.Peer, v: Server, a: P.AppendArgs) {
    var last := a.prevLogIndex + |a.entries|;
    && v < |p.matchIndex| == |p.nextIndex|
    && q.role == p.role && q.log == p.log && q.currentTerm == p.currentTerm
    && if a.prevLogIndex + 1 >= p.nextIndex[v] && last > p.matchIndex[v]
       then q.matchIndex == p.matchIndex[v := last] && q.nextIndex == p.nextIndex[v := last + 1]
       else q == p
  }

  /**
   A leader that gets a successful answer it has not outrun records it, and commits what a majority then
   holds of its term: at least every such entry, and nothing else.
   */
  lemma AnswerCommits(r: seq<Cluster>, i: nat, s: Server, v: Server, a: P.AppendArgs, reply: P.AppendReply)
    requires Run(r) && 0 < i < |r| && AppendAnswered(r[i - 1], r[i], s, v, a, reply) && reply.success
    requires r[i - 1].peers[s].role == P.Leader && a.term == r[i - 1].peers[s].currentTerm
    ensures AnswerEffect(r[i - 1].peers[s], r[i].peers[s], v, a)
    ensures forall y: nat :: MajorityHolds(r[i].peers[s], s, |r[i].peers|, y) ==> y <= r[i].peers[s].commitIndex
    ensures r[i - 1].peers[s].commitIndex < r[i].peers[s].commitIndex ==>
              MajorityHolds(r[i].peers[s], s, |r[i].peers|, r[i].peers[s].commitIndex)
  {
    RunPeer(r, i - 1, s);
    AnswerRecorded(r[i - 1].peers[s], v, a, reply);
    forall y: nat | MajorityHolds(r[i].peers[s], s, |r[i].peers|, y) ensures y <= r[i].peers[s].commitIndex {
      MajorityIsCommitted(r, i, s, y);
    }
  }

  lemma AnswerRecorded(p: P.Peer, v: Server, a: P.AppendArgs, reply: P.AppendReply)
    requires P.Valid(p) && v < |p.nextIndex| && reply.success && p.role == P.Leader && a.term == p.currentTerm
    ensures var q := P.AppendAnswered(p, v, a, reply);
            && AnswerEffect(p, q, v, a)
            && (p.commitIndex < q.commitIndex ==> MajorityHolds(q, p.me, |p.matchIndex|, q.commitIndex))
  {
    var last := a.prevLogIndex + |a.entries|;
    if a.prevLogIndex + 1 >= p.nextIndex[v] && last > p.matchIndex[v] {
      var w := p.(matchIndex := p.matchIndex[v := last], nextIndex := p.nextIndex[v := last + 1]);
      assert P.AppendAnswered(p, v, a, reply) == w.(commitIndex := P.HighestCommit(w, last));
      HighestIsHeld(w, last, P.HighestCommit(w, last));
    }
  }

  lemma HighestIsHeld(w: P.Peer, last: nat, c: nat)
    requires |w.log| > 0 && w.me < |w.matchIndex| && c == P.HighestCommit(w, last)
    ensures w.commitIndex < c ==> MajorityHolds(w.(commitIndex := c), w.me, |w.matchIndex|, c)
  {
    HoldersMatched(w, c);
  }
}
