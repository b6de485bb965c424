/**
 The sections of an election keep the cluster invariant of the peer that runs them.

 Each lemma takes a peer in order, and the history it stands in, through one locked section of
 src/raft1/raft.go: a timeout, a vote request, a vote answer, or the adoption of a greater term. It
 names the step or steps of the agreement core the section amounts to, and shows that the new peer is
 in order in the new history, with its commit index no lower and nothing committed changed. The rest
 of the cluster is the concern of module ClusterSteps.
 */
module ElectionSteps {
  import opened RaftLog
  import opened Quorum
  import opened Consensus
  import opened ConsensusSteps
  import opened LeaderCompleteness
  import opened Cluster
  import opened ClusterInv
  import P = Peer

  /**
   The peer of server s went from p to q and history from g to h: in order, and nothing committed on
   s has changed.
   */
  ghost predicate StepGood(g: State, h: State, counted: set<Counted>, s: Server, p: P.Peer, q: P.Peer)
    requires s < |g.terms| == |g.logs| && |p.log| > 0
  {
    && StepOf(g, h, s)
    && PeerOk(h, counted, s, q)
    && Agree(g.logs[s], h.logs[s], p.commitIndex + 1)
    && P.Base(p) <= P.Base(q)
    && p.commitIndex <= q.commitIndex
    && q.lastApplied == p.lastApplied
  }

  /** Every section may rely on well-formedness of the peer, and on a log reaching its commit index. */
  lemma PeerValid(g: State, counted: set<Counted>, s: Server, p: P.Peer)
    requires Inv(g) && s < |g.terms| && PeerOk(g, counted, s, p)
    ensures P.Valid(p)
    ensures P.LastIndex(p) == |g.logs[s]| - 1
    ensures p.log[|p.log| - 1].term == LastTerm(g.logs[s])
    ensures p.lastApplied <= p.commitIndex <= P.LastIndex(p)
  {
    assert LogOk(g, s);
    var l, b := g.logs[s], p.log[0].index;
    forall i | 0 <= i < |p.log| ensures p.log[i].index == b + i {
      if i > 0 { assert BackedAt(g, l, b + i); }
    }
  }

  lemma SeenStep(g: State, s: Server, t: Term)
    requires Inv(g) && s < |g.terms|
    ensures StepOf(g, Seen(g, s, t), s)
  {
    if g.terms[s] < t { AdvanceKeeps(g, s, t); } else { StepOfRefl(g, s); }
  }

  /** checkAndMaySetTermAndStateWithLocked */
  lemma StepTermOk(g: State, counted: set<Counted>, s: Server, p: P.Peer, t: Term)
    requires Inv(g) && s < |g.terms| && PeerOk(g, counted, s, p)
    ensures StepGood(g, Seen(g, s, t), counted, s, p, P.StepTerm(p, t))
  {
    SeenStep(g, s, t);
    if p.currentTerm < t {
      assert BallotOk(g, At(t, s));
      CommittedGrows(g, Seen(g, s, t), p.currentTerm, t, g.logs[s], p.commitIndex + 1);
    }
  }

  /** Nobody has been counted for a term not reached yet. */
  lemma FreshTally(g: State, counted: set<Counted>, s: Server)
    requires s < |g.terms| && forall k :: k in counted ==> CountedOk(g, k)
    ensures Tally(counted, |g.terms|, g.terms[s] + 1, s) == {s}
  {
    var t := g.terms[s] + 1;
    forall v | v in Tally(counted, |g.terms|, t, s) ensures v == s {
      assert Counted(t, s, v) in counted ==> CountedOk(g, Counted(t, s, v));
    }
  }

  lemma StandStep(g: State, s: Server)
    requires Inv(g) && s < |g.terms|
    ensures StepOf(g, Stand(g, s), s)
  {
    StandKeeps(g, s);
  }

  lemma CastStep(g: State, s: Server, c: Server)
    requires Inv(g) && s < |g.terms|
    requires At(g.terms[s], s) !in g.ballots && At(g.terms[s], c) in g.stood
    requires |g.stood[At(g.terms[s], c)]| > 0 && |g.logs[s]| > 0
    requires UpToDate(g.stood[At(g.terms[s], c)], g.logs[s])
    ensures StepOf(g, Cast(g, s, c), s)
  {
    CastKeeps(g, s, c);
  }

  lemma ElectStep(g: State, s: Server, q: set<Server>)
    requires Inv(g) && s < |g.terms| && g.terms[s] !in g.elected && At(g.terms[s], s) in g.stood
    requires Majority(|g.terms|, q) && VotedFor(g, g.terms[s], s, q)
    ensures StepOf(g, Elect(g, s, q), s)
  {
    ElectKeeps(g, s, q);
  }

  lemma TimeoutOk(g: State, counted: set<Counted>, s: Server, p: P.Peer)
    requires Inv(g) && s < |g.terms| && PeerOk(g, counted, s, p) && p.role != P.Leader
    requires forall k :: k in counted ==> CountedOk(g, k)
    ensures StepGood(g, Stand(g, s), counted, s, p, P.Timeout(p).0)
    ensures VoteRequestOk(Stand(g, s), P.Timeout(p).1)
  {
    var h, t := Stand(g, s), p.currentTerm + 1;
    PeerValid(g, counted, s, p);
    assert LogOk(g, s);
    FreshTally(g, counted, s);
    if t in g.elected { LeaderReached(g, t); }
    StandStep(g, s);
    StandsOk(g, h, counted, s, p);
  }

  lemma StandsOk(g: State, h: State, counted: set<Counted>, s: Server, p: P.Peer)
    requires s < |g.terms| == |g.logs| && |h.logs| == |g.logs| && Grows(g, h) && StateOk(g, s, p)
    requires h.logs[s] == g.logs[s] && h.terms[s] == p.currentTerm + 1
    requires var k := At(p.currentTerm + 1, s); k in h.stood && k in h.ballots && h.ballots[k].candidate == s
    requires p.currentTerm + 1 in h.elected ==> h.elected[p.currentTerm + 1].leader != s
    requires Tally(counted, |g.terms|, p.currentTerm + 1, s) == {s}
    ensures PeerOk(h, counted, s, P.Timeout(p).0)
  {
    CommittedGrows(g, h, p.currentTerm, p.currentTerm + 1, g.logs[s], p.commitIndex + 1);
  }

  /** History that leaves the term and log of s alone leaves the state of its peer in order. */
  lemma StateOkGrows(g: State, h: State, s: Server, p: P.Peer)
    requires s < |g.terms| == |g.logs| && |h.logs| == |g.logs| && Grows(g, h) && StateOk(g, s, p)
    requires h.terms[s] == g.terms[s] && h.logs[s] == g.logs[s]
    ensures StateOk(h, s, p)
  {
    CommittedGrows(g, h, p.currentTerm, p.currentTerm, g.logs[s], p.commitIndex + 1);
  }

  /** The peer's log was replaced, above what is committed, along with the complete log of s. */
  lemma RelogState(g: State, h: State, s: Server, p: P.Peer, q: P.Peer)
    requires s < |g.terms| == |g.logs| && |h.logs| == |g.logs| && Grows(g, h) && StateOk(g, s, p)
    requires h.terms[s] == g.terms[s] && Agree(g.logs[s], h.logs[s], p.commitIndex + 1)
    requires Trimmed(q.log, h.logs[s]) && q.log[0] == p.log[0] && P.Saved(q)
    requires q.me == p.me && q.currentTerm == p.currentTerm && q.snapshot == p.snapshot
    requires q.commitIndex == p.commitIndex && q.lastApplied == p.lastApplied
    requires |q.nextIndex| == |p.nextIndex| && |q.matchIndex| == |p.matchIndex|
    ensures StateOk(h, s, q)
  {
    CommittedGrows(g, h, p.currentTerm, p.currentTerm, g.logs[s], p.commitIndex + 1);
    CommittedPart(h, p.currentTerm, g.logs[s], p.commitIndex + 1, h.logs[s], p.commitIndex + 1);
    FoldAgree(g.logs[s], h.logs[s], P.Base(p) + 1);
  }

  /** The peer that has voted is otherwise as it was. */
  lemma GrantedPeer(g: State, h: State, counted: set<Counted>, s: Server, p: P.Peer, q: P.Peer)
    requires s < |g.terms| == |g.logs| && PeerOk(g, counted, s, p)
    requires h == g.(ballots := h.ballots) && Grows(g, h) && q == P.Save(p.(votedFor := q.votedFor))
    requires At(p.currentTerm, s) in h.ballots && h.ballots[At(p.currentTerm, s)].candidate == q.votedFor
    ensures PeerOk(h, counted, s, q)
  {
    StateOkGrows(g, h, s, p);
    assert StateOk(h, s, q);
    forall x | 0 <= x < |p.nextIndex| && x != s && p.role == P.Leader ensures FollowerOk(h, s, q, x) {
      assert FollowerOk(g, s, p, x);
    }
    forall y: nat | p.commitIndex < y && p.role == P.Leader ensures !P.Commits(q, y) {
      assert P.Matched(q, y) == P.Matched(p, y) && !P.Commits(p, y);
    }
  }

  lemma GrantOk(g: State, counted: set<Counted>, s: Server, p: P.Peer, a: P.VoteArgs)
    requires Inv(g) && s < |g.terms| && PeerOk(g, counted, s, p) && p.votedFor == P.NOBODY
    requires VoteRequestOk(g, a) && a.term == p.currentTerm
    requires var last := p.log[|p.log| - 1];
             !(a.lastLogTerm < last.term || (a.lastLogTerm == last.term && a.lastLogIndex < last.index))
    ensures StepGood(g, CastIfNew(g, s, a.candidateId), counted, s, p, P.Save(p.(votedFor := a.candidateId)))
    ensures At(a.term, s) in CastIfNew(g, s, a.candidateId).ballots
    ensures CastIfNew(g, s, a.candidateId).ballots[At(a.term, s)].candidate == a.candidateId
  {
    var h, q := Cast(g, s, a.candidateId), P.Save(p.(votedFor := a.candidateId));
    PeerValid(g, counted, s, p);
    assert LogOk(g, s) && BallotOk(g, At(a.term, s));
    CastStep(g, s, a.candidateId);
    GrantedPeer(g, h, counted, s, p, q);
  }

  lemma StepGoodTrans(g: State, g1: State, h: State, counted: set<Counted>, s: Server, p: P.Peer, p1: P.Peer, q: P.Peer)
    requires s < |g.terms| == |g.logs| && s < |g1.terms| == |g1.logs| && |p.log| > 0 && |p1.log| > 0
    requires StepGood(g, g1, counted, s, p, p1) && StepGood(g1, h, counted, s, p1, q)
    ensures StepGood(g, h, counted, s, p, q)
  {
    StepOfTrans(g, g1, h, s);
    AgreeTrans(g.logs[s], g1.logs[s], h.logs[s], p.commitIndex + 1);
  }

  lemma Unchanged(g: State, counted: set<Counted>, s: Server, p: P.Peer)
    requires Inv(g) && s < |g.terms| && PeerOk(g, counted, s, p)
    ensures StepGood(g, g, counted, s, p, p)
  {
    StepOfRefl(g, s);
  }

  lemma RequestVoteOk(g: State, counted: set<Counted>, s: Server, p: P.Peer, a: P.VoteArgs)
    requires Inv(g) && s < |g.terms| && PeerOk(g, counted, s, p)
    requires VoteRequestOk(g, a) && a.candidateId != s
    ensures var (q, r) := P.RequestVote(p, a);
            var h := VoteHistory(g, s, a, r.voteGranted);
            StepGood(g, h, counted, s, p, q) && VoteReplyOk(h, s, a, r)
  {
    var (q, r) := P.RequestVote(p, a);
    StepTermOk(g, counted, s, p, a.term);
    var g1, p1 := Seen(g, s, a.term), P.StepTerm(p, a.term);
    assert SlotGrows(g, g1, At(a.term, a.candidateId));
    if r.voteGranted {
      if p1.votedFor == P.NOBODY {
        GrantOk(g1, counted, s, p1, a);
        StepGoodTrans(g, g1, CastIfNew(g1, s, a.candidateId), counted, s, p, p1, q);
      } else {
        assert q == p1;
      }
    }
  }

  /** Votes counted for s were cast for s. */
  lemma TallyVoted(g: State, counted: set<Counted>, s: Server, t: Term)
    requires Inv(g) && s < |g.terms| && At(t, s) in g.stood
    requires forall k :: k in counted ==> CountedOk(g, k)
    ensures VotedFor(g, t, s, Tally(counted, |g.terms|, t, s))
  {
    assert StoodOk(g, At(t, s));
    forall v | v in Tally(counted, |g.terms|, t, s)
      ensures At(t, v) in g.ballots && g.ballots[At(t, v)].candidate == s {
      if v != s { assert CountedOk(g, Counted(t, s, v)); }
    }
  }

  /** Election safety: a majority of votes in a term that has a leader is a majority for that leader. */
  lemma OneLeader(g: State, t: Term, c: Server, q: set<Server>)
    requires Inv(g) && t in g.elected
    requires Majority(|g.terms|, q) && VotedFor(g, t, c, q)
    ensures c == g.elected[t].leader
  {
    assert ElectedOk(g, t);
    var s := Overlap(|g.terms|, q, g.elected[t].electors);
  }

  lemma LeaderGrown(p: P.Peer, l: Log, c: Command)
    requires Trimmed(p.log, l)
    requires P.LastIndex(p) == |l| - 1
    ensures Trimmed(p.log + [Entry(p.currentTerm, P.LastIndex(p) + 1, c)], Grown(l, p.currentTerm, c))
  {
  }

  lemma TallyGrows(counted: set<Counted>, n: nat, t: Term, s: Server, v: Server)
    requires v < n && v != s && Counted(t, s, v) !in counted
    ensures |Tally(counted + {Counted(t, s, v)}, n, t, s)| == |Tally(counted, n, t, s)| + 1
  {
    assert Tally(counted + {Counted(t, s, v)}, n, t, s) == Tally(counted, n, t, s) + {v};
  }

  lemma NothingMatched(p: P.Peer, s: Server, y: nat)
    requires P.Valid(p) && s == p.me && |p.matchIndex| >= 2 && p.commitIndex < y
    ensures !P.Commits(P.BecomeLeader(p), y)
  {
    var q := P.BecomeLeader(p);
    assert P.Matched(q, y) <= {s};
    SubsetCount(P.Matched(q, y), {s});
  }

  /** A majority counted makes an election of the abstract machine. */
  lemma CountedElects(g: State, counted: set<Counted>, s: Server, p: P.Peer)
    requires Inv(g) && s < |g.terms| && PeerOk(g, counted, s, p) && p.role == P.Candidate
    requires forall k :: k in counted ==> CountedOk(g, k)
    requires p.voteGrantedCount > |g.terms| / 2
    ensures StepOf(g, Elect(g, s, Tally(counted, |g.terms|, p.currentTerm, s)), s)
  {
    var t, q := p.currentTerm, Tally(counted, |g.terms|, p.currentTerm, s);
    TallyVoted(g, counted, s, t);
    if t in g.elected { OneLeader(g, t, s, q); }
    ElectStep(g, s, q);
  }

  /** A new leader's peer: nothing is matched, so nothing can commit yet. */
  lemma LeaderStarts(h: State, s: Server, p: P.Peer, q: P.Peer)
    requires s < |h.logs| && P.Valid(p) && p.me == s && 2 <= |h.terms| == |p.matchIndex| && q == P.BecomeLeader(p)
    requires p.currentTerm in h.elected && h.elected[p.currentTerm].leader == s
    requires |h.logs[s]| == P.LastIndex(p) + 2
    ensures LeaderPeerOk(h, s, q)
  {
    forall y: nat | p.commitIndex < y ensures !P.Commits(q, y) { NothingMatched(p, s, y); }
    forall x | 0 <= x < |q.nextIndex| && x != s ensures FollowerOk(h, s, q, x) { }
  }

  /** The peer that an election leaves behind. */
  lemma LeaderMade(g: State, h: State, counted: set<Counted>, s: Server, p: P.Peer, q: P.Peer, v: set<Server>)
    requires s < |g.terms| == |g.logs| && PeerOk(g, counted, s, p) && p.role == P.Candidate && P.Valid(p)
    requires h == Elect(g, s, v) && Grows(g, h) && 2 <= |g.terms| && q == P.BecomeLeader(p)
    ensures PeerOk(h, counted, s, q) && Agree(g.logs[s], h.logs[s], p.commitIndex + 1)
  {
    LeaderGrown(p, g.logs[s], Nop);
    RelogState(g, h, s, p, q);
    LeaderStarts(h, s, p, q);
  }

  lemma BecomeLeaderOk(g: State, counted: set<Counted>, s: Server, p: P.Peer, v: Server)
    requires Inv(g) && s < |g.terms| && PeerOk(g, counted, s, p) && p.role == P.Candidate
    requires forall k :: k in counted ==> CountedOk(g, k)
    requires p.voteGrantedCount > |g.terms| / 2 && v < |g.terms| && v != s
    ensures P.Valid(p)
    ensures var h := Elect(g, s, Tally(counted, |g.terms|, p.currentTerm, s));
            StepGood(g, h, counted, s, p, P.BecomeLeader(p))
  {
    var q := Tally(counted, |g.terms|, p.currentTerm, s);
    PeerValid(g, counted, s, p);
    CountedElects(g, counted, s, p);
    LeaderMade(g, Elect(g, s, q), counted, s, p, P.BecomeLeader(p), q);
  }

  /** A vote that comes too late changes nothing, not even the count that matters. */
  lemma VoteIgnored(g: State, counted: set<Counted>, s: Server, p: P.Peer, k: Counted)
    requires s < |g.terms| == |g.logs| && PeerOk(g, counted, s, p)
    requires k.term != p.currentTerm || p.role != P.Candidate
    ensures PeerOk(g, counted + {k}, s, p)
  {
    if p.role == P.Candidate {
      assert Tally(counted + {k}, |g.terms|, p.currentTerm, s) == Tally(counted, |g.terms|, p.currentTerm, s);
    }
  }

  /** A candidate counts one more vote. */
  lemma VoteCounted(g: State, counted: set<Counted>, s: Server, p: P.Peer, v: Server)
    requires s < |g.terms| == |g.logs| && PeerOk(g, counted, s, p) && p.role == P.Candidate
    requires v < |g.terms| && v != s && Counted(p.currentTerm, s, v) !in counted
    ensures PeerOk(g, counted + {Counted(p.currentTerm, s, v)}, s, p.(voteGrantedCount := p.voteGrantedCount + 1))
  {
    TallyGrows(counted, |g.terms|, p.currentTerm, s, v);
  }

  ghost function AnswerState(g: State, s: Server, counted: set<Counted>, p: P.Peer, q: P.Peer): State
    requires s < |g.terms| && s < |g.logs|
  {
    if q.role == P.Leader && p.role == P.Candidate
    then Elect(g, s, Tally(counted, |g.terms|, q.currentTerm, s)) else Seen(g, s, q.currentTerm)
  }

  lemma VoteAnsweredOk(g: State, counted: set<Counted>, s: Server, p: P.Peer, v: Server, a: P.VoteArgs, r: P.VoteReply)
    requires Inv(g) && s < |g.terms| && PeerOk(g, counted, s, p)
    requires forall k :: k in counted ==> CountedOk(g, k)
    requires VoteReplyOk(g, v, a, r) && a.candidateId == s && a.term <= g.terms[s]
    requires Counted(a.term, s, v) !in counted
    ensures P.Valid(p)
    ensures var counted' := if r.voteGranted then counted + {Counted(a.term, s, v)} else counted;
            var q := P.VoteAnswered(p, a, r);
            StepGood(g, AnswerState(g, s, counted', p, q), counted', s, p, q)
  {
    PeerValid(g, counted, s, p);
    var k, q := Counted(a.term, s, v), P.VoteAnswered(p, a, r);
    if a.term != p.currentTerm || p.role != P.Candidate {
      assert q == p;
      Unchanged(g, counted, s, p);
      VoteIgnored(g, counted, s, p, k);
    } else if !r.voteGranted {
      assert q == P.StepTerm(p, r.term) && q.role != P.Leader;
      StepTermOk(g, counted, s, p, r.term);
    } else {
      VoteCounts(g, counted, s, p, v);
    }
  }

  /** A vote granted in the current term, to a candidate. */
  lemma VoteCounts(g: State, counted: set<Counted>, s: Server, p: P.Peer, v: Server)
    requires Inv(g) && s < |g.terms| && PeerOk(g, counted, s, p) && p.role == P.Candidate
    requires forall k :: k in counted ==> CountedOk(g, k)
    requires v < |g.terms| && v != s && Counted(p.currentTerm, s, v) !in counted && CountedOk(g, Counted(p.currentTerm, s, v))
    ensures P.Valid(p)
    ensures var counted' := counted + {Counted(p.currentTerm, s, v)};
            var p1 := p.(voteGrantedCount := p.voteGrantedCount + 1);
            && P.Valid(p1)
            && if p1.voteGrantedCount > |g.terms| / 2
               then StepGood(g, Elect(g, s, Tally(counted', |g.terms|, p.currentTerm, s)), counted', s, p, P.BecomeLeader(p1))
               else StepGood(g, g, counted', s, p, p1)
  {
    var p1, k := p.(voteGrantedCount := p.voteGrantedCount + 1), Counted(p.currentTerm, s, v);
    VoteCounted(g, counted, s, p, v);
    if p1.voteGrantedCount > |g.terms| / 2 {
      BecomeLeaderOk(g, counted + {k}, s, p1, v);
    } else {
      Unchanged(g, counted + {k}, s, p1);
    }
    PeerValid(g, counted, s, p);
  }
}
