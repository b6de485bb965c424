/**
 AppendEntry keeps the invariant of the peer that runs it.

 The loop that skips, truncates and appends works on a log that starts at the snapshot base; on complete
 logs it amounts to accepting the sender's log as a whole. This holds on the path below the base too,
 where no term is compared, because what lies below a base is committed and so part of every leader's
 log. The commit index the follower takes over is committed because the request says so and the
 follower now has the sender's log; and a rejection tells the truth about the follower's log, which
 the leader's back-off relies on.
 */
module ReplicationSteps {
  import opened RaftLog
  import opened Consensus
  import opened ConsensusSteps
  import opened LeaderCompleteness
  import opened Cluster
  import opened ClusterInv
  import opened ElectionSteps
  import opened PeerFacts
  import P = Peer

  // ---------------------------------------------------------------- AppendEntry

  /** es is the end of m behind position pre of the trimmed log. */
  ghost predicate EndOf(log: seq<Entry>, pre: nat, m: Log, es: seq<Entry>) {
    pre < |log| && log[0].index + pre < |m| && es == m[log[0].index + pre + 1..]
  }

  /** The entries found to match are entries on which the complete logs agree. */
  lemma MatchedAgree(g: State, log: seq<Entry>, l: Log, m: Log, pre: nat, es: seq<Entry>)
    requires Backed(g, l) && Backed(g, m) && Trimmed(log, l) && EndOf(log, pre, m, es)
    requires l[log[0].index + pre].term == m[log[0].index + pre].term
    ensures Agree(l, m, log[0].index + pre + 1 + P.MatchLen(log, pre + 1, es))
  {
    var at, k := log[0].index + pre + 1, P.MatchLen(log, pre + 1, es);
    if k > 0 {
      assert log[pre + 1 + (k - 1)].term == es[k - 1].term;
      assert es[k - 1] == m[at + k - 1];
    }
    LogMatching(g, l, m, at + k - 1);
  }

  /** The first entry that does not match, or is missing, shows that m is not contained in l. */
  lemma UnmatchedMissing(g: State, log: seq<Entry>, l: Log, m: Log, pre: nat, es: seq<Entry>)
    requires Backed(g, l) && Backed(g, m) && Trimmed(log, l) && EndOf(log, pre, m, es)
    requires P.MatchLen(log, pre + 1, es) < |es|
    ensures !Prefix(m, l)
  {
    var at, k := log[0].index + pre + 1, P.MatchLen(log, pre + 1, es);
    if pre + 1 + k < |log| {
      assert BackedAt(g, l, at + k) && BackedAt(g, m, at + k);
      assert log[pre + 1 + k] == l[at + k] && es[k] == m[at + k];
    }
  }

  lemma TrimmedJoin(log: seq<Entry>, l: Log, m: Log, n: nat)
    requires Trimmed(log, l) && 0 < n <= |log| && log[0].index + n <= |m| && Agree(l, m, log[0].index + n)
    ensures Trimmed(log[..n] + m[log[0].index + n..], m)
  {
    var r, b := log[..n] + m[log[0].index + n..], log[0].index;
    forall i | 0 < i < |r| ensures r[i] == m[b + i] {
      if i < n { assert log[i] == l[b + i]; }
    }
  }

  /** The merged log, in terms of the complete log m whose end is merged. */
  lemma MergedIs(log: seq<Entry>, pre: nat, m: Log, es: seq<Entry>) returns (k: nat)
    requires EndOf(log, pre, m, es)
    ensures k == P.MatchLen(log, pre + 1, es) <= |es|
    ensures k == |es| ==> P.MergedLog(log, pre, es) == log
    ensures k < |es| ==> pre + 1 + k <= |log| &&
                         P.MergedLog(log, pre, es) == log[..pre + 1 + k] + m[log[0].index + pre + 1 + k..]
  {
    k := P.MatchLen(log, pre + 1, es);
    assert es[k..] == m[log[0].index + pre + 1 + k..];
  }

  /** Merging the end of m behind a position where both logs agree is accepting m as a whole. */
  lemma MergeIsAccept(g: State, log: seq<Entry>, l: Log, m: Log, pre: nat, es: seq<Entry>)
    requires Backed(g, l) && Backed(g, m) && Trimmed(log, l) && EndOf(log, pre, m, es)
    requires l[log[0].index + pre].term == m[log[0].index + pre].term
    ensures Trimmed(P.MergedLog(log, pre, es), Accepted(l, m))
  {
    var k := MergedIs(log, pre, m, es);
    MatchedAgree(g, log, l, m, pre, es);
    if k < |es| {
      UnmatchedMissing(g, log, l, m, pre, es);
      assert Accepted(l, m) == m;
      TrimmedJoin(log, l, m, pre + 1 + k);
    } else {
      assert Accepted(l, m) == l;
    }
  }

  /** Accepting an initial segment of the leader's log changes no committed entry. */
  lemma AcceptKeepsCommitted(g: State, t: Term, l: Log, k: nat, m: Log)
    requires History(g) && t in g.elected && Committed(g, t, l, k) && Prefix(m, g.elected[t].log)
    ensures Agree(l, Accepted(l, m), k)
    ensures Prefix(m, Accepted(l, m))
    ensures forall i :: 0 <= i < k && i < |m| ==> l[i] == m[i]
  {
    CommittedInLeader(g, t, l, k, t);
    var ll := g.elected[t].log;
    if |m| <= k {
      Comparable(m, l, ll, |m|, k);
    } else {
      Comparable(l, m, ll, k, |m|);
    }
  }

  /** Merging changes the log, saved if changed, and nothing else; the base stays. */
  lemma MergedPeer(p: P.Peer, pre: nat, es: seq<Entry>) returns (q: P.Peer)
    requires pre < |p.log| && P.Saved(p)
    ensures q == P.Merged(p, pre, es) && q.log == P.MergedLog(p.log, pre, es)
    ensures q == p.(log := q.log, disk := q.disk) && P.Saved(q) && q.log[0] == p.log[0]
  {
    q := P.Merged(p, pre, es);
    assert q.log[..pre + 1][0] == p.log[..pre + 1][0];
  }

  /** The first part of AppendEntry: the follower q of s holds the accepted log instead of p's. */
  lemma RelogOk(g: State, counted: set<Counted>, s: Server, p: P.Peer, m: Log, q: P.Peer)
    requires Inv(g) && s < |g.terms| && PeerOk(g, counted, s, p) && p.role == P.Follower
    requires p.currentTerm in g.elected && |m| > 0 && Prefix(m, g.elected[p.currentTerm].log)
    requires Trimmed(q.log, Accepted(g.logs[s], m)) && q.log[0] == p.log[0]
    requires q == p.(log := q.log, disk := q.disk) && P.Saved(q)
    ensures StepGood(g, Accept(g, s, m), counted, s, p, q)
  {
    AcceptKeepsCommitted(g, p.currentTerm, g.logs[s], p.commitIndex + 1, m);
    AcceptStep(g, s, m);
    RelogState(g, Accept(g, s, m), s, p, q);
  }

  lemma AcceptStep(g: State, s: Server, m: Log)
    requires Inv(g) && s < |g.terms| && g.terms[s] in g.elected
    requires |m| > 0 && Prefix(m, g.elected[g.terms[s]].log)
    ensures StepOf(g, Accept(g, s, m), s)
  {
    AcceptKeeps(g, s, m);
  }

  /** The new commit index of a follower: what the sender knew to be committed, which the log holds. */
  lemma FollowerCommit(g: State, counted: set<Counted>, s: Server, p: P.Peer, a: P.AppendArgs, full: Log)
    requires Inv(g) && s < |g.terms| && PeerOk(g, counted, s, p) && p.role == P.Follower
    requires p.currentTerm == a.term && Prefix(full, g.logs[s])
    requires a.leaderCommit < |full| && Committed(g, a.term, full, a.leaderCommit + 1)
    ensures P.LastIndex(p) >= a.leaderCommit
    ensures var c := if a.leaderCommit > p.commitIndex then a.leaderCommit else p.commitIndex;
            StepGood(g, g, counted, s, p, p.(commitIndex := c))
  {
    PeerValid(g, counted, s, p);
    StepOfRefl(g, s);
    CommittedPart(g, a.term, full, a.leaderCommit + 1, g.logs[s], a.leaderCommit + 1);
  }

  /** A successful answer is an acknowledgement of the whole request. */
  lemma SuccessReply(g: State, s: Server, a: P.AppendArgs, full: Log, h: State)
    requires Inv(g) && s < |g.terms| && AppendRequestOk(g, s, a, full) && g.terms[s] == a.term
    requires h == Accept(g, s, full) && Grows(g, h)
    ensures AppendReplyOk(h, s, a, P.AppendReply(a.term, true, 0, 0, 0))
  {
    assert TermGrows(g, h, a.term);
    assert full[a.prevLogIndex] == g.elected[a.term].log[a.prevLogIndex];
  }

  lemma AppendedOk(g: State, counted: set<Counted>, s: Server, p: P.Peer, a: P.AppendArgs, full: Log, pre: nat, es: seq<Entry>)
    requires Inv(g) && s < |g.terms| && PeerOk(g, counted, s, p) && p.role == P.Follower
    requires AppendRequestOk(g, s, a, full) && p.currentTerm == a.term && pre < |p.log|
    requires Trimmed(P.MergedLog(p.log, pre, es), Accepted(g.logs[s], full))
    ensures var (q, r) := P.Appended(p, a, pre, es);
            StepGood(g, Accept(g, s, full), counted, s, p, q) && AppendReplyOk(Accept(g, s, full), s, a, r)
  {
    var h := Accept(g, s, full);
    var q := MergedPeer(p, pre, es);
    RelogOk(g, counted, s, p, full, q);
    SuccessReply(g, s, a, full, h);
    AcceptKeepsCommitted(g, a.term, g.logs[s], p.commitIndex + 1, full);
    CommittedGrows(g, h, a.term, a.term, full, a.leaderCommit + 1);
    FollowerCommit(h, counted, s, q, a, full);
    var c := if a.leaderCommit > q.commitIndex then a.leaderCommit else q.commitIndex;
    StepGoodTrans(g, h, h, counted, s, p, q, q.(commitIndex := c));
    AppendedIs(p, a, pre, es, q, c);
  }

  lemma AppendedIs(p: P.Peer, a: P.AppendArgs, pre: nat, es: seq<Entry>, q: P.Peer, c: nat)
    requires pre < |p.log| && q == P.Merged(p, pre, es) && P.LastIndex(q) >= a.leaderCommit
    requires c == if a.leaderCommit > q.commitIndex then a.leaderCommit else q.commitIndex
    ensures P.Appended(p, a, pre, es) == (q.(commitIndex := c), P.AppendReply(q.currentTerm, true, 0, 0, 0))
  {
  }

  /** A request that starts below the snapshot base: the part below it is committed, so it agrees. */
  lemma BelowBase(g: State, s: Server, p: P.Peer, a: P.AppendArgs, full: Log)
    requires Inv(g) && s < |g.terms| && StateOk(g, s, p)
    requires AppendRequestOk(g, s, a, full) && p.currentTerm == a.term && a.prevLogIndex < P.Base(p)
    ensures |full| > P.Base(p) + 1 ==> g.logs[s][P.Base(p)].term == full[P.Base(p)].term
    ensures |full| <= P.Base(p) + 1 ==> Prefix(full, g.logs[s])
  {
    AcceptKeepsCommitted(g, a.term, g.logs[s], p.commitIndex + 1, full);
  }

  lemma MergeClipped(g: State, log: seq<Entry>, l: Log, full: Log, es: seq<Entry>)
    requires Backed(g, l) && Backed(g, full) && Trimmed(log, l)
    requires |full| > log[0].index + 1 ==> l[log[0].index].term == full[log[0].index].term && es == full[log[0].index + 1..]
    requires |full| <= log[0].index + 1 ==> Prefix(full, l) && es == []
    ensures Trimmed(P.MergedLog(log, 0, es), Accepted(l, full))
  {
    if |full| > log[0].index + 1 {
      MergeIsAccept(g, log, l, full, 0, es);
    } else {
      MergedNothing(log);
    }
  }

  lemma MergedNothing(log: seq<Entry>)
    requires |log| > 0
    ensures P.MergedLog(log, 0, []) == log
  {
  }

  lemma ClippedIs(base: nat, a: P.AppendArgs, full: Log)
    requires a.prevLogIndex < base && a.prevLogIndex < |full| && a.entries == full[a.prevLogIndex + 1..]
    ensures P.Clipped(base, a) == if |full| > base + 1 then full[base + 1..] else []
  {
  }

  lemma FullBacked(g: State, s: Server, a: P.AppendArgs, full: Log)
    requires (forall t :: ElectedOk(g, t)) && AppendRequestOk(g, s, a, full)
    ensures Backed(g, full)
  {
    assert ElectedOk(g, a.term);
    PrefixBacked(g, full, g.elected[a.term].log);
  }

  lemma ConflictReply(g: State, counted: set<Counted>, s: Server, p: P.Peer, a: P.AppendArgs, full: Log)
    requires Inv(g) && s < |g.terms| && PeerOk(g, counted, s, p)
    requires AppendRequestOk(g, s, a, full) && p.currentTerm == a.term && P.Rejects(p, a)
    ensures AppendReplyOk(g, s, a, P.Rejection(p, a))
  {
    PeerValid(g, counted, s, p);
    assert full[a.prevLogIndex] == g.elected[a.term].log[a.prevLogIndex];
    var pre, l := a.prevLogIndex - P.Base(p), g.logs[s];
    assert LogOk(g, s) && ElectedOk(g, a.term);
    if pre < |p.log| {
      if a.prevLogIndex > 0 {
        assert BackedAt(g, l, a.prevLogIndex);
        var x := l[a.prevLogIndex].term;
        assert ElectedOk(g, x);
        assert g.elected[x].log[a.prevLogIndex].term == x;
        var j := P.RunStart(p.log, pre);
        assert p.log[j].term == x && p.log[j].index == P.Base(p) + j && l[0].term == 0;
      }
    }
  }

  /** The request attaches above the base, where its term was compared. */
  lemma MergeAbove(g: State, log: seq<Entry>, l: Log, a: P.AppendArgs, full: Log, pre: nat)
    requires Backed(g, l) && Backed(g, full) && Trimmed(log, l) && pre < |log| && log[0].index + pre == a.prevLogIndex
    requires a.prevLogIndex < |full| && a.prevLogTerm == full[a.prevLogIndex].term && a.entries == full[a.prevLogIndex + 1..]
    requires log[pre].term == a.prevLogTerm
    ensures Trimmed(P.MergedLog(log, pre, a.entries), Accepted(l, full))
  {
    assert l[log[0].index + pre].term == log[pre].term;
    MergeIsAccept(g, log, l, full, pre, a.entries);
  }

  /** Whatever position the request names, a successful merge leaves the accepted log. */
  lemma MergeOk(g: State, s: Server, p: P.Peer, a: P.AppendArgs, full: Log, pre: nat, es: seq<Entry>)
    requires Inv(g) && s < |g.terms| && StateOk(g, s, p)
    requires AppendRequestOk(g, s, a, full) && p.currentTerm == a.term && pre < |p.log|
    requires a.prevLogIndex < P.Base(p) ==> pre == 0 && es == P.Clipped(P.Base(p), a)
    requires a.prevLogIndex >= P.Base(p) ==>
               pre == a.prevLogIndex - P.Base(p) && es == a.entries && p.log[pre].term == a.prevLogTerm
    ensures Trimmed(P.MergedLog(p.log, pre, es), Accepted(g.logs[s], full))
  {
    assert LogOk(g, s);
    FullBacked(g, s, a, full);
    if a.prevLogIndex < P.Base(p) {
      BelowBase(g, s, p, a, full);
      ClippedIs(P.Base(p), a, full);
      MergeClipped(g, p.log, g.logs[s], full, es);
    } else {
      MergeAbove(g, p.log, g.logs[s], a, full, pre);
    }
  }

  /** AppendEntry of a peer already in the request's term, as a follower. */
  lemma AppendInTerm(g: State, counted: set<Counted>, s: Server, p: P.Peer, a: P.AppendArgs, full: Log)
    requires Inv(g) && s < |g.terms| && PeerOk(g, counted, s, p) && p.role == P.Follower
    requires AppendRequestOk(g, s, a, full) && p.currentTerm == a.term
    ensures var (q, r) := P.AppendEntry(p, a);
            var h := AppendHistory(g, s, a.term, full, r.success);
            StepGood(g, h, counted, s, p, q) && AppendReplyOk(h, s, a, r)
  {
    var ok, pre, es := AppendCases(p, a);
    if ok {
      MergeOk(g, s, p, a, full, pre, es);
      AppendedOk(g, counted, s, p, a, full, pre, es);
    } else {
      ConflictReply(g, counted, s, p, a, full);
      Unchanged(g, counted, s, p);
    }
  }

  lemma FollowsOk(g: State, counted: set<Counted>, s: Server, p: P.Peer, t: Term)
    requires Inv(g) && s < |g.terms| && PeerOk(g, counted, s, p)
    ensures StepGood(g, Seen(g, s, t), counted, s, p, P.StepTerm(p, t).(role := P.Follower))
  {
    StepTermOk(g, counted, s, p, t);
  }

  lemma AppendEntryOk(g: State, counted: set<Counted>, s: Server, p: P.Peer, a: P.AppendArgs, full: Log)
    requires Inv(g) && s < |g.terms| && PeerOk(g, counted, s, p)
    requires AppendRequestOk(g, s, a, full)
    ensures var (q, r) := P.AppendEntry(p, a);
            var h := AppendHistory(g, s, a.term, full, r.success);
            StepGood(g, h, counted, s, p, q) && AppendReplyOk(h, s, a, r)
  {
    if p.currentTerm <= a.term {
      var g1, p1 := Seen(g, s, a.term), P.StepTerm(p, a.term).(role := P.Follower);
      FollowsOk(g, counted, s, p, a.term);
      MessageOkGrows(g, g1, [], [], AppendRequested(s, a, full));
      AppendInTerm(g1, counted, s, p1, a, full);
      AppendAdopts(p, a);
      var (q, r) := P.AppendEntry(p1, a);
      StepGoodTrans(g, g1, AppendHistory(g1, s, a.term, full, r.success), counted, s, p, p1, q);
    } else {
      Unchanged(g, counted, s, p);
      assert full[a.prevLogIndex] == g.elected[a.term].log[a.prevLogIndex];
    }
  }
}
