/**
 The leader's sections: sending, handling replies, committing, appending.

 What a leader sends is a piece of its term's log with a commit index inside it. What it learns from an
 answer, however late, is something the follower acknowledged in this term and still holds. The scan
 from the one follower whose matchIndex rose restores that nothing is left to commit, because only
 indices up to that matchIndex can have become committable; snapshot answers and appended commands
 never make any index committable.
 */
module LeaderSteps {
  import opened RaftLog
  import opened Quorum
  import opened Consensus
  import opened ConsensusSteps
  import opened Cluster
  import opened ClusterInv
  import opened ElectionSteps
  import P = Peer

  /** While it leads, a server's log is the log of its term. */
  lemma LeaderLog(g: State, s: Server, p: P.Peer)
    requires Inv(g) && s < |g.terms| && StateOk(g, s, p) && LeaderPeerOk(g, s, p) && p.role == P.Leader
    ensures g.logs[s] == g.elected[p.currentTerm].log
    ensures At(p.currentTerm, s) in g.acked && g.acked[At(p.currentTerm, s)] == |g.logs[s]|
  {
    assert LeaderOk(g, p.currentTerm);
  }

  /** An AppendEntry request is in range, and carries the log up to its end: LeaderCommit is within it. */
  lemma AppendRequestSent(g: State, counted: set<Counted>, s: Server, p: P.Peer, to: Server)
    requires Inv(g) && s < |g.terms| && PeerOk(g, counted, s, p)
    requires p.role == P.Leader && to < |g.terms| && to != s
    ensures P.Valid(p) && 1 <= p.nextIndex[to] <= P.LastIndex(p) + 1
    ensures P.SendsEntries(p, to) ==>
              var a := P.AppendRequest(p, to);
              AppendRequestOk(g, to, a, g.logs[s]) && a.leaderCommit <= a.prevLogIndex + |a.entries| == P.LastIndex(p)
  {
    PeerValid(g, counted, s, p);
    LeaderLog(g, s, p);
    assert FollowerOk(g, s, p, to);
    if P.SendsEntries(p, to) {
      var begin, l := p.nextIndex[to] - P.Base(p), g.logs[s];
      assert p.log[begin..] == l[p.nextIndex[to]..];
    }
  }

  /** Below an entry of a term, down to where its leader began, a log has entries of that term only. */
  lemma RunOfTerm(g: State, l: Log, x: nat, i: nat)
    requires (forall t :: ElectedOk(g, t)) && Backed(g, l) && 0 < x < |l| && l[x].term in g.elected
    ensures |g.elected[l[x].term].initial| <= i <= x ==> l[i].term == l[x].term
  {
    assert BackedAt(g, l, x) && ElectedOk(g, l[x].term);
  }

  /**
   Conflict back-off makes progress: after a rejection the leader resumes strictly below the position
   the follower rejected, also when it jumps to its own last entry of the conflicting term.
   */
  lemma BackOffProgress(g: State, s: Server, p: P.Peer, a: P.AppendArgs, r: P.AppendReply)
    requires Inv(g) && s < |g.terms| && StateOk(g, s, p) && LeaderPeerOk(g, s, p) && p.role == P.Leader
    requires a.term == p.currentTerm && a.prevLogIndex < |g.logs[s]|
    requires a.prevLogTerm == g.logs[s][a.prevLogIndex].term && ConflictOk(g, a, r)
    ensures 1 <= P.BackOff(p, r) <= a.prevLogIndex
  {
    if r.xTerm != -1 {
      var i := P.LastWithTerm(p.log, r.xTerm);
      if i != -1 {
        LeaderLog(g, s, p);
        var l, x := g.logs[s], P.Base(p) + i;
        assert LogOk(g, s);
        assert l[x].term == r.xTerm && BackedAt(g, l, x);
        assert p.log[i].index == x;
        RunOfTerm(g, l, x, a.prevLogIndex);
      }
    }
  }

  /** The leader's state after follower v acknowledged up to index last, before committing. */
  lemma MatchOk(g: State, s: Server, p: P.Peer, v: Server, last: nat, q: P.Peer)
    requires Inv(g) && s < |g.terms| && StateOk(g, s, p) && LeaderPeerOk(g, s, p) && p.role == P.Leader
    requires v < |g.terms| && v != s && last < |g.logs[s]| && last > p.matchIndex[v]
    requires At(p.currentTerm, v) in g.acked && last < g.acked[At(p.currentTerm, v)]
    requires q == p.(matchIndex := p.matchIndex[v := last], nextIndex := p.nextIndex[v := last + 1])
    ensures forall x :: 0 <= x < |q.nextIndex| && x != s ==> FollowerOk(g, s, q, x)
    ensures forall y: nat :: y > last && y > p.commitIndex ==> !P.Commits(q, y)
  {
    assert FollowerOk(g, s, p, v);
    forall x | 0 <= x < |q.nextIndex| && x != s ensures FollowerOk(g, s, q, x) {
      assert FollowerOk(g, s, p, x);
    }
    forall y: nat | y > last && y > p.commitIndex ensures !P.Commits(q, y) {
      assert !P.Commits(p, y);
      assert P.Matched(q, y) == P.Matched(p, y);
    }
  }

  /**
   The commit rule: scanning down from the one index that changed finds the highest index of the
   current term held by a majority, and afterwards no index above commitIndex is left uncommitted.
   */
  lemma CommitScan(g: State, counted: set<Counted>, s: Server, p: P.Peer, v: Server, last: nat, q: P.Peer)
    requires Inv(g) && s < |g.terms| && PeerOk(g, counted, s, p) && p.role == P.Leader
    requires v < |g.terms| && v != s && last < |g.logs[s]| && last > p.matchIndex[v]
    requires At(p.currentTerm, v) in g.acked && last < g.acked[At(p.currentTerm, v)]
    requires q == p.(matchIndex := p.matchIndex[v := last], nextIndex := p.nextIndex[v := last + 1])
    ensures StepGood(g, g, counted, s, p, q.(commitIndex := P.HighestCommit(q, last)))
  {
    var c := P.HighestCommit(q, last);
    var q' := q.(commitIndex := c);
    MatchOk(g, s, p, v, last, q);
    if c != p.commitIndex {
      CommitIsChosen(g, s, p, q, c);
    }
    CommitRaised(g, s, q, c);
    StepOfRefl(g, s);
  }

  /** Raising the commit index keeps what the leader knows about the followers. */
  lemma CommitRaised(g: State, s: Server, q: P.Peer, c: nat)
    requires s < |g.logs| && |q.nextIndex| == |q.matchIndex| && |q.log| > 0 && q.commitIndex <= c
    requires forall x :: 0 <= x < |q.nextIndex| && x != s ==> FollowerOk(g, s, q, x)
    requires forall y: nat :: c < y ==> !P.Commits(q, y)
    ensures var q' := q.(commitIndex := c);
            && (forall x :: 0 <= x < |q'.nextIndex| && x != s ==> FollowerOk(g, s, q', x))
            && (forall y: nat :: c < y ==> !P.Commits(q', y))
  {
    var q' := q.(commitIndex := c);
    forall x | 0 <= x < |q'.nextIndex| && x != s ensures FollowerOk(g, s, q', x) {
      assert FollowerOk(g, s, q, x);
    }
    forall y: nat | c < y ensures !P.Commits(q', y) {
      assert P.Matched(q', y) == P.Matched(q, y);
      assert !P.Commits(q, y);
    }
  }

  /** What the leader commits, an entry of its term matched by a majority, is chosen. */
  lemma CommitIsChosen(g: State, s: Server, p: P.Peer, q: P.Peer, c: nat)
    requires Inv(g) && s < |g.terms| && StateOk(g, s, p) && p.role == P.Leader && LeaderPeerOk(g, s, p)
    requires q == p.(matchIndex := q.matchIndex, nextIndex := q.nextIndex)
    requires |q.matchIndex| == |q.nextIndex| == |p.nextIndex|
    requires forall x :: 0 <= x < |q.nextIndex| && x != s ==> FollowerOk(g, s, q, x)
    requires P.Commits(q, c) && p.commitIndex < c
    ensures Committed(g, p.currentTerm, g.logs[s], c + 1)
  {
    LeaderLog(g, s, p);
    var t, l := p.currentTerm, g.logs[s];
    assert ElectedOk(g, t);
    assert l[c].term == t;
    assert P.Matched(q, c) <= Ackers(g, t, c + 1) by {
      forall x | x in P.Matched(q, c) ensures x in Ackers(g, t, c + 1) {
        if x != s { assert FollowerOk(g, s, q, x); }
      }
    }
    SubsetCount(P.Matched(q, c), Ackers(g, t, c + 1));
    assert Chosen(g, t, c + 1);
  }

  lemma NextOk(g: State, counted: set<Counted>, s: Server, p: P.Peer, v: Server, next: int)
    requires Inv(g) && s < |g.terms| && PeerOk(g, counted, s, p) && p.role == P.Leader
    requires v < |g.terms| && v != s && 1 <= next <= |g.logs[s]|
    ensures StepGood(g, g, counted, s, p, p.(nextIndex := p.nextIndex[v := next]))
  {
    var q := p.(nextIndex := p.nextIndex[v := next]);
    forall x | 0 <= x < |q.nextIndex| && x != s ensures FollowerOk(g, s, q, x) {
      assert FollowerOk(g, s, p, x);
    }
    forall y: nat | p.commitIndex < y ensures !P.Commits(q, y) {
      assert P.Matched(q, y) == P.Matched(p, y) && !P.Commits(p, y);
    }
    StepOfRefl(g, s);
  }

  lemma AppendSucceeded(g: State, counted: set<Counted>, s: Server, p: P.Peer, v: Server, a: P.AppendArgs, r: P.AppendReply)
    requires Inv(g) && s < |g.terms| && PeerOk(g, counted, s, p) && P.Valid(p) && p.role == P.Leader
    requires AppendReplyOk(g, v, a, r) && a.leaderId == s && a.term == p.currentTerm && r.success
    ensures StepGood(g, g, counted, s, p, P.AppendAnswered(p, v, a, r))
  {
    var last := a.prevLogIndex + |a.entries|;
    if a.prevLogIndex + 1 >= p.nextIndex[v] && last > p.matchIndex[v] {
      AcknowledgedOk(g, counted, s, p, v, last, P.AppendAnswered(p, v, a, r));
    } else {
      Unchanged(g, counted, s, p);
    }
  }

  /** Follower v has acknowledged up to index last, more than was known. */
  lemma AcknowledgedOk(g: State, counted: set<Counted>, s: Server, p: P.Peer, v: Server, last: nat, q: P.Peer)
    requires Inv(g) && s < |g.terms| && PeerOk(g, counted, s, p) && p.role == P.Leader
    requires v < |g.terms| && v != s && last > p.matchIndex[v] && last < |g.elected[p.currentTerm].log|
    requires At(p.currentTerm, v) in g.acked && last < g.acked[At(p.currentTerm, v)]
    requires var w := p.(matchIndex := p.matchIndex[v := last], nextIndex := p.nextIndex[v := last + 1]);
             q == w.(commitIndex := P.HighestCommit(w, last))
    ensures StepGood(g, g, counted, s, p, q)
  {
    LeaderLog(g, s, p);
    CommitScan(g, counted, s, p, v, last, p.(matchIndex := p.matchIndex[v := last], nextIndex := p.nextIndex[v := last + 1]));
  }

  lemma AppendRejected(g: State, counted: set<Counted>, s: Server, p: P.Peer, v: Server, a: P.AppendArgs, r: P.AppendReply)
    requires Inv(g) && s < |g.terms| && PeerOk(g, counted, s, p) && P.Valid(p) && p.role == P.Leader
    requires AppendReplyOk(g, v, a, r) && a.leaderId == s && a.term == p.currentTerm && !r.success
    ensures var q := P.AppendAnswered(p, v, a, r);
            StepGood(g, Seen(g, s, q.currentTerm), counted, s, p, q)
  {
    LeaderLog(g, s, p);
    if a.prevLogIndex + 1 < p.nextIndex[v] {
      Unchanged(g, counted, s, p);
    } else if r.term > p.currentTerm {
      StepTermOk(g, counted, s, p, r.term);
    } else {
      BackOffProgress(g, s, p, a, r);
      NextOk(g, counted, s, p, v, P.BackOff(p, r));
    }
  }

  lemma AppendAnsweredOk(g: State, counted: set<Counted>, s: Server, p: P.Peer, v: Server, a: P.AppendArgs, r: P.AppendReply)
    requires Inv(g) && s < |g.terms| && PeerOk(g, counted, s, p)
    requires AppendReplyOk(g, v, a, r) && a.leaderId == s
    ensures P.Valid(p)
    ensures var q := P.AppendAnswered(p, v, a, r);
            StepGood(g, Seen(g, s, q.currentTerm), counted, s, p, q)
  {
    PeerValid(g, counted, s, p);
    if a.term != p.currentTerm || p.role != P.Leader {
      Unchanged(g, counted, s, p);
    } else if r.success {
      AppendSucceeded(g, counted, s, p, v, a, r);
    } else {
      AppendRejected(g, counted, s, p, v, a, r);
    }
  }

  /** A snapshot reply raises matchIndex only to what is committed already, so no scan is needed. */
  lemma SnapshotMatched(g: State, counted: set<Counted>, s: Server, p: P.Peer, v: Server, x: nat, q: P.Peer)
    requires Inv(g) && s < |g.terms| && PeerOk(g, counted, s, p) && p.role == P.Leader
    requires v < |g.terms| && v != s && x <= P.Base(p)
    requires q == p.(nextIndex := p.nextIndex[v := P.Max(p.nextIndex[v], x + 1)],
                     matchIndex := p.matchIndex[v := P.Max(p.matchIndex[v], x)])
    ensures StepGood(g, g, counted, s, p, q)
  {
    forall y | 0 <= y < |q.nextIndex| && y != s ensures FollowerOk(g, s, q, y) {
      assert FollowerOk(g, s, p, y);
    }
    forall y: nat | p.commitIndex < y ensures !P.Commits(q, y) {
      assert P.Matched(q, y) == P.Matched(p, y) && !P.Commits(p, y);
    }
    StepOfRefl(g, s);
  }

  lemma SnapshotAnsweredOk(g: State, counted: set<Counted>, s: Server, p: P.Peer, v: Server, a: P.SnapshotArgs, r: P.SnapshotReply)
    requires Inv(g) && s < |g.terms| && PeerOk(g, counted, s, p)
    requires v < |g.terms| && v != s && a.lastIndex <= P.Base(p)
    ensures P.Valid(p)
    ensures var q := P.SnapshotAnswered(p, v, a, r);
            StepGood(g, Seen(g, s, q.currentTerm), counted, s, p, q)
  {
    PeerValid(g, counted, s, p);
    var q := P.SnapshotAnswered(p, v, a, r);
    if a.term != p.currentTerm || p.role != P.Leader {
      Unchanged(g, counted, s, p);
    } else if r.term > p.currentTerm {
      StepTermOk(g, counted, s, p, r.term);
    } else if r.success {
      SnapshotMatched(g, counted, s, p, v, a.lastIndex, q);
    } else {
      Unchanged(g, counted, s, p);
    }
  }

  /** A new entry is held by the leader alone. */
  lemma NewEntryUnmatched(g: State, s: Server, p: P.Peer, c: Command, y: nat)
    requires s < |g.terms| == |g.logs| && StateOk(g, s, p) && LeaderPeerOk(g, s, p) && p.role == P.Leader
    requires P.LastIndex(p) == |g.logs[s]| - 1 && p.commitIndex < y
    ensures !P.Commits(P.Start(p, c), y)
  {
    var q := P.Start(p, c);
    assert P.Matched(q, y) == P.Matched(p, y) && !P.Commits(p, y);
    if y == P.LastIndex(p) + 1 {
      assert P.Matched(q, y) <= {s} by {
        forall x | x in P.Matched(q, y) ensures x == s {
          assert x != s ==> FollowerOk(g, s, p, x);
        }
      }
      SubsetCount(P.Matched(q, y), {s});
    }
  }

  lemma StartOk(g: State, counted: set<Counted>, s: Server, p: P.Peer, c: Command)
    requires Inv(g) && s < |g.terms| && PeerOk(g, counted, s, p) && p.role == P.Leader
    ensures g.terms[s] in g.elected && StepGood(g, Lead(g, s, c), counted, s, p, P.Start(p, c))
  {
    var h, q := Lead(g, s, c), P.Start(p, c);
    PeerValid(g, counted, s, p);
    LeadStep(g, s, c);
    LeaderGrown(p, g.logs[s], c);
    RelogState(g, h, s, p, q);
    StartedLeader(g, h, s, p, c, q);
  }

  /** What the leader knows of its followers stays true of the longer log. */
  lemma StartedLeader(g: State, h: State, s: Server, p: P.Peer, c: Command, q: P.Peer)
    requires Inv(g) && s < |g.terms| && StateOk(g, s, p) && LeaderPeerOk(g, s, p) && p.role == P.Leader && P.Valid(p)
    requires g.terms[s] in g.elected && h == Lead(g, s, c) && Grows(g, h) && q == P.Start(p, c)
    ensures LeaderPeerOk(h, s, q)
  {
    forall y: nat | p.commitIndex < y ensures !P.Commits(q, y) {
      NewEntryUnmatched(g, s, p, c, y);
    }
    forall x | 0 <= x < |q.nextIndex| && x != s ensures FollowerOk(h, s, q, x) {
      assert FollowerOk(g, s, p, x) && SlotGrows(g, h, At(p.currentTerm, x));
    }
  }

  lemma LeadStep(g: State, s: Server, c: Command)
    requires Inv(g) && s < |g.terms| && g.terms[s] in g.elected && g.elected[g.terms[s]].leader == s
    ensures StepOf(g, Lead(g, s, c), s)
  {
    LeadKeeps(g, s, c);
  }
}
