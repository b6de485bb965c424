/**
 What holds in every state of a cluster.

 Each peer's trimmed log is the tail of its server's complete log in the history, its snapshot the fold
 of what was cut off, and its commit index covers nothing but committed entries. A candidate's count is
 the number of votes it was given, and a leader believes of its followers only what they acknowledged,
 with nothing left that it could commit. Each service's store is the fold of the complete log, and its
 channel carries on from there. Each message on the network was true when sent and still is.
 */
module ClusterInv {
  import opened RaftLog
  import opened Consensus
  import opened ConsensusSteps
  import opened Cluster
  import P = Peer

  /** `log` is the complete log l without the entries below its first position. */
  ghost predicate Trimmed(log: seq<Entry>, l: Log) {
    && |log| > 0
    && log[0].index < |l|
    && |log| == |l| - log[0].index
    && log[0].term == l[log[0].index].term
    && forall i :: 0 < i < |log| ==> log[i] == l[log[0].index + i]
  }

  /** The peer's own state, against the complete log l of its server. */
  ghost predicate StateOk(g: State, s: Server, p: P.Peer)
    requires s < |g.terms| == |g.logs|
  {
    var l := g.logs[s];
    && p.me == s
    && |p.nextIndex| == |p.matchIndex| == |g.terms|
    && p.currentTerm == g.terms[s]
    && Trimmed(p.log, l)
    && p.log[0].index <= p.commitIndex
    && p.lastApplied <= p.commitIndex
    && Committed(g, p.currentTerm, l, p.commitIndex + 1)
    && p.snapshot == Fold(l, p.log[0].index + 1)
    && P.Saved(p)
  }

  /** The vote in memory is the ballot of the current term. */
  ghost predicate VoteOk(g: State, s: Server, p: P.Peer) {
    var k := At(p.currentTerm, s);
    if k in g.ballots then p.votedFor == g.ballots[k].candidate else p.votedFor == P.NOBODY
  }

  ghost predicate CandidatePeerOk(g: State, counted: set<Counted>, s: Server, p: P.Peer) {
    p.role == P.Candidate ==>
      && At(p.currentTerm, s) in g.stood
      && (p.currentTerm in g.elected ==> g.elected[p.currentTerm].leader != s)
      && p.voteGrantedCount == |Tally(counted, |g.terms|, p.currentTerm, s)|
  }

  /** What the leader believes about follower x. */
  ghost predicate FollowerOk(g: State, s: Server, p: P.Peer, x: Server)
    requires s < |g.logs| && x < |p.nextIndex| == |p.matchIndex|
  {
    && 1 <= p.nextIndex[x] <= |g.logs[s]|
    && 0 <= p.matchIndex[x] < |g.logs[s]|
    && (p.matchIndex[x] <= p.commitIndex ||
        (At(p.currentTerm, x) in g.acked && p.matchIndex[x] < g.acked[At(p.currentTerm, x)]))
  }

  ghost predicate LeaderPeerOk(g: State, s: Server, p: P.Peer)
    requires s < |g.logs| && |p.nextIndex| == |p.matchIndex| && |p.log| > 0
  {
    p.role == P.Leader ==>
      && p.currentTerm in g.elected
      && g.elected[p.currentTerm].leader == s
      && |g.terms| >= 2
      && (forall x :: 0 <= x < |p.nextIndex| && x != s ==> FollowerOk(g, s, p, x))
      && (forall y: nat :: p.commitIndex < y ==> !P.Commits(p, y))
  }

  ghost predicate PeerOk(g: State, counted: set<Counted>, s: Server, p: P.Peer)
    requires s < |g.terms| == |g.logs|
  {
    && StateOk(g, s, p)
    && VoteOk(g, s, p)
    && CandidatePeerOk(g, counted, s, p)
    && LeaderPeerOk(g, s, p)
  }

  /** The messages q lead from the state after index `from` to the state after index `to` of log l. */
  ghost predicate StreamOk(q: seq<P.ApplyMsg>, from: nat, l: Log, to: nat) {
    if q == [] then from == to
    else
      && from < q[0].index < |l|
      && (match q[0]
          case CommandMsg(i, c) => i == from + 1 && c == l[i].command
          case SnapshotMsg(i, t, d) => t == l[i].term && d == Fold(l, i + 1))
      && StreamOk(q[1..], q[0].index, l, to)
  }

  /** The store is the fold of the complete log up to a delivered index; the channel holds the rest. */
  ghost predicate AppOk(a: App, p: P.Peer, l: Log) {
    && a.at < |l|
    && a.store == Fold(l, a.at + 1)
    && (a.lastAppliedID == a.at || a.lastAppliedID == 0)
    && StreamOk(a.queue, a.at, l, p.lastApplied)
  }

  ghost predicate VoteRequestOk(g: State, a: P.VoteArgs) {
    var k := At(a.term, a.candidateId);
    && k in g.stood
    && |g.stood[k]| > 0
    && a.lastLogIndex == |g.stood[k]| - 1
    && a.lastLogTerm == LastTerm(g.stood[k])
  }

  ghost predicate VoteReplyOk(g: State, v: Server, a: P.VoteArgs, r: P.VoteReply) {
    && v < |g.terms|
    && v != a.candidateId
    && (r.voteGranted ==> At(a.term, v) in g.ballots && g.ballots[At(a.term, v)].candidate == a.candidateId)
  }

  /** The request carries the end of the sender's log, whose leading part is known to be committed. */
  ghost predicate AppendRequestOk(g: State, to: Server, a: P.AppendArgs, full: Log) {
    && a.term in g.elected
    && g.elected[a.term].leader == a.leaderId
    && to != a.leaderId
    && Prefix(full, g.elected[a.term].log)
    && a.prevLogIndex < |full|
    && a.prevLogTerm == full[a.prevLogIndex].term
    && a.entries == full[a.prevLogIndex + 1..]
    && a.leaderCommit < |full|
    && Committed(g, a.term, full, a.leaderCommit + 1)
  }

  /** A rejection by a server in the request's term tells truly where its log departs. */
  ghost predicate ConflictOk(g: State, a: P.AppendArgs, r: P.AppendReply) {
    if r.xTerm == -1 then 0 <= r.xLen < a.prevLogIndex
    else
      && 1 <= r.xIndex <= a.prevLogIndex
      && r.xTerm >= 1
      && r.xTerm != a.prevLogTerm
      && r.xTerm in g.elected
      && |g.elected[r.xTerm].initial| <= a.prevLogIndex < |g.elected[r.xTerm].log|
  }

  ghost predicate AppendReplyOk(g: State, v: Server, a: P.AppendArgs, r: P.AppendReply) {
    && v < |g.terms|
    && v != a.leaderId
    && a.term in g.elected
    && g.elected[a.term].leader == a.leaderId
    && a.prevLogIndex + |a.entries| < |g.elected[a.term].log|
    && a.prevLogTerm == g.elected[a.term].log[a.prevLogIndex].term
    && a.term <= r.term
    && (r.success ==> At(a.term, v) in g.acked && a.prevLogIndex + |a.entries| < g.acked[At(a.term, v)])
    && (!r.success && r.term == a.term ==> ConflictOk(g, a, r))
  }

  /** A snapshot stands for a committed log of the sender, not above the sender's present base. */
  ghost predicate SnapshotRequestOk(g: State, peers: seq<P.Peer>, a: P.SnapshotArgs, prefix: Log) {
    && a.leaderId < |peers|
    && |peers[a.leaderId].log| > 0
    && a.lastIndex <= P.Base(peers[a.leaderId])
    && |prefix| == a.lastIndex + 1
    && a.lastTerm == LastTerm(prefix)
    && a.data == Fold(prefix, |prefix|)
    && Committed(g, a.term, prefix, |prefix|)
  }

  ghost predicate SnapshotReplyOk(peers: seq<P.Peer>, a: P.SnapshotArgs) {
    && a.leaderId < |peers|
    && |peers[a.leaderId].log| > 0
    && a.lastIndex <= P.Base(peers[a.leaderId])
  }

  ghost predicate MessageOk(g: State, peers: seq<P.Peer>, m: Message) {
    match m
    case VoteRequested(a) => VoteRequestOk(g, a)
    case VoteReplied(v, a, r) => VoteReplyOk(g, v, a, r)
    case AppendRequested(to, a, full) => AppendRequestOk(g, to, a, full)
    case AppendReplied(v, a, r) => AppendReplyOk(g, v, a, r)
    case SnapshotRequested(to, a, prefix) => to != a.leaderId && SnapshotRequestOk(g, peers, a, prefix)
    case SnapshotReplied(v, a, _) => v < |peers| && v != a.leaderId && SnapshotReplyOk(peers, a)
  }

  ghost predicate CountedOk(g: State, k: Counted) {
    && k.candidate < |g.terms|
    && k.term <= g.terms[k.candidate]
    && k.voter < |g.terms|
    && k.voter != k.candidate
    && At(k.term, k.voter) in g.ballots
    && g.ballots[At(k.term, k.voter)].candidate == k.candidate
  }

  /** What was delivered was committed. */
  ghost predicate DeliveryOk(g: State, d: Delivery) {
    && d.msg.index < |d.log|
    && Committed(g, d.term, d.log, d.msg.index + 1)
    && match d.msg
       case CommandMsg(i, c) => c == d.log[i].command
       case SnapshotMsg(i, t, data) => t == d.log[i].term && data == Fold(d.log, i + 1)
  }

  ghost predicate CInv(c: Cluster) {
    && |c.peers| == |c.apps| == |c.g.terms|
    && Inv(c.g)
    && (forall s :: 0 <= s < |c.peers| ==> PeerOk(c.g, c.counted, s, c.peers[s]))
    && (forall s :: 0 <= s < |c.peers| ==> AppOk(c.apps[s], c.peers[s], c.g.logs[s]))
    && (forall m :: m in c.net ==> MessageOk(c.g, c.peers, m))
    && (forall k :: k in c.counted ==> CountedOk(c.g, k))
    && (forall d :: d in c.delivered ==> DeliveryOk(c.g, d))
  }

  // ---------------------------------------------------------------- what a step of server s leaves alone

  /** History moved from g to h by a step of server s. */
  ghost predicate StepOf(g: State, h: State, s: Server) {
    && Inv(h)
    && Grows(g, h)
    && |h.logs| == |g.logs|
    && (forall x :: 0 <= x < |g.logs| && x != s ==> h.logs[x] == g.logs[x])
    && (forall x :: 0 <= x < |g.terms| && x != s ==> h.terms[x] == g.terms[x])
    && (forall k: Slot :: k in h.ballots && k.server != s ==> k in g.ballots)
    && (forall t :: t in h.elected && t !in g.elected ==> h.elected[t].leader == s)
  }

  lemma StepOfTrans(g: State, h: State, i: State, s: Server)
    requires StepOf(g, h, s) && StepOf(h, i, s)
    ensures StepOf(g, i, s)
  {
    GrowsTrans(g, h, i);
    forall t | t in i.elected && t !in g.elected ensures i.elected[t].leader == s {
      assert TermGrows(h, i, t);
    }
  }

  lemma GrowsTrans(g: State, h: State, i: State)
    requires Grows(g, h) && Grows(h, i)
    ensures Grows(g, i)
  {
    forall t: nat ensures TermGrows(g, i, t) {
      assert TermGrows(g, h, t) && TermGrows(h, i, t);
    }
    forall k ensures SlotGrows(g, i, k) {
      assert SlotGrows(g, h, k) && SlotGrows(h, i, k);
    }
  }

  lemma StepOfRefl(g: State, s: Server)
    requires Inv(g)
    ensures StepOf(g, g, s)
  {
    forall t: nat ensures TermGrows(g, g, t) {}
    forall k ensures SlotGrows(g, g, k) {}
  }

  lemma PeerOkOther(g: State, h: State, counted: set<Counted>, counted': set<Counted>, s: Server, x: Server, p: P.Peer)
    requires Inv(g) && StepOf(g, h, s) && x != s && x < |g.terms| && PeerOk(g, counted, x, p)
    requires forall t, v :: Counted(t, x, v) in counted <==> Counted(t, x, v) in counted'
    ensures PeerOk(h, counted', x, p)
  {
    CommittedGrows(g, h, p.currentTerm, p.currentTerm, g.logs[x], p.commitIndex + 1);
    var k := At(p.currentTerm, x);
    assert SlotGrows(g, h, k) && TermGrows(g, h, p.currentTerm);
    assert Tally(counted, |g.terms|, p.currentTerm, x) == Tally(counted', |h.terms|, p.currentTerm, x);
    forall y | 0 <= y < |p.nextIndex| && y != x && p.role == P.Leader ensures FollowerOk(h, x, p, y) {
      assert FollowerOk(g, x, p, y) && SlotGrows(g, h, At(p.currentTerm, y));
    }
  }

  /** Compaction only moves forward. */
  ghost predicate BasesGrow(peers: seq<P.Peer>, peers': seq<P.Peer>) {
    && |peers'| == |peers|
    && forall x :: 0 <= x < |peers| && |peers[x].log| > 0 ==>
         |peers'[x].log| > 0 && P.Base(peers[x]) <= P.Base(peers'[x])
  }

  lemma MessageOkGrows(g: State, h: State, peers: seq<P.Peer>, peers': seq<P.Peer>, m: Message)
    requires Grows(g, h) && BasesGrow(peers, peers') && MessageOk(g, peers, m)
    ensures MessageOk(h, peers', m)
  {
    match m
    case VoteRequested(a) => assert SlotGrows(g, h, At(a.term, a.candidateId));
    case VoteReplied(v, a, r) => assert SlotGrows(g, h, At(a.term, v));
    case AppendRequested(to, a, full) =>
      assert TermGrows(g, h, a.term);
      CommittedGrows(g, h, a.term, a.term, full, a.leaderCommit + 1);
    case AppendReplied(v, a, r) =>
      assert TermGrows(g, h, a.term) && SlotGrows(g, h, At(a.term, v));
      if r.xTerm >= 0 { assert TermGrows(g, h, r.xTerm); }
    case SnapshotRequested(_, a, prefix) => CommittedGrows(g, h, a.term, a.term, prefix, |prefix|);
    case SnapshotReplied(v, a, _) =>
  }

  lemma CountedOkGrows(g: State, h: State, k: Counted)
    requires Grows(g, h) && CountedOk(g, k)
    ensures CountedOk(h, k)
  {
    assert SlotGrows(g, h, At(k.term, k.voter));
  }

  lemma DeliveryOkGrows(g: State, h: State, d: Delivery)
    requires Grows(g, h) && DeliveryOk(g, d)
    ensures DeliveryOk(h, d)
  {
    CommittedGrows(g, h, d.term, d.term, d.log, d.msg.index + 1);
  }

  lemma {:induction false} StreamOkAgree(q: seq<P.ApplyMsg>, from: nat, l: Log, l': Log, to: nat)
    requires StreamOk(q, from, l, to) && Agree(l, l', to + 1)
    ensures StreamOk(q, from, l', to) && from <= to
  {
    if q != [] {
      StreamOkAgree(q[1..], q[0].index, l, l', to);
      FoldAgree(l, l', q[0].index + 1);
    }
  }

  lemma AppOkAgree(a: App, p: P.Peer, l: Log, p': P.Peer, l': Log)
    requires AppOk(a, p, l) && p'.lastApplied == p.lastApplied && Agree(l, l', p.lastApplied + 1)
    ensures AppOk(a, p', l')
  {
    StreamOkAgree(a.queue, a.at, l, l', p.lastApplied);
    FoldAgree(l, l', a.at + 1);
  }

  /** The first k entries of a committed log are committed wherever they occur. */
  lemma CommittedPart(g: State, t: Term, a: Log, k: nat, b: Log, j: nat)
    requires Committed(g, t, a, k) && Agree(a, b, j) && 1 <= j <= k
    ensures Committed(g, t, b, j)
  {
    if j > 1 {
      var u: nat, m: nat :| u <= t && Chosen(g, u, m) && k <= m && Agree(a, g.elected[u].log, k);
      forall i | 0 <= i < j ensures b[i] == g.elected[u].log[i] {
        assert a[i] == b[i];
      }
      assert Agree(b, g.elected[u].log, j);
    }
  }
}
