/** What the sections do, in every state of every run, beside keeping what must be kept: logs and snapshots. */
module LogEffects {
  import opened KvStore
  import P = Peer
  import opened RaftLog
  import opened Consensus
  import opened Cluster
  import opened ClusterInv
  import opened ConsensusSteps
  import opened LeaderCompleteness
  import opened LeaderSteps
  import opened Safety
  import opened Effects

  function Higher(a: nat, b: nat): nat {
    if a < b then b else a
  }

  // ---------------------------------------------------------------- AppendEntry

  /** The log l of the receiver has the entry the request builds on, or has compacted it. */
  ghost predicate Attaches(p: P.Peer, l: Log, full: Log, prev: nat)
    requires |p.log| > 0 && prev < |full|
  {
    prev < P.Base(p) || (prev < |l| && l[prev].term == full[prev].term)
  }

  /** q and the reply are what the request a, with the end of `full`, makes of p, whose complete log is l. */
  ghost predicate AppendEffect(p: P.Peer, l: Log, a: P.AppendArgs, full: Log, q: P.Peer, reply: P.AppendReply) {
    && |p.log| > 0 && a.prevLogIndex < |full|
    && (reply.success <==> p.currentTerm <= a.term && Attaches(p, l, full, a.prevLogIndex))
    && reply.term == q.currentTerm == Later(p.currentTerm, a.term)
    && (p.currentTerm <= a.term ==> q.role == P.Follower)
    && (a.term < p.currentTerm ==> q == p)
    && q.commitIndex == (if reply.success then Higher(p.commitIndex, a.leaderCommit) else p.commitIndex)
    && (!reply.success ==> q.log == p.log)
  }

  /**
   AppendEntry is accepted exactly if the request is not behind and attaches to the log. The log then
   contains all of the sender's log, and is the one it was if it did before; the commit index is the
   sender's, if that is greater.
   */
  lemma AppendsExactly(r: seq<Cluster>, i: nat, s: Server, a: P.AppendArgs, full: Log)
    requires Run(r) && 0 < i < |r| && HandleAppend(r[i - 1], r[i], s, a, full)
    ensures s < |r[i - 1].g.logs| && s < |r[i].g.logs|
    ensures var reply := P.AppendEntry(r[i - 1].peers[s], a).1;
            && AppendReplied(s, a, reply) in r[i].net
            && AppendEffect(r[i - 1].peers[s], r[i - 1].g.logs[s], a, full, r[i].peers[s], reply)
            && (reply.success ==> Prefix(full, r[i].g.logs[s]))
            && (reply.success && Prefix(full, r[i - 1].g.logs[s]) ==> r[i].g.logs[s] == r[i - 1].g.logs[s])
            && (reply.success && !Prefix(full, r[i - 1].g.logs[s]) ==> r[i].g.logs[s] == full)
            && Trimmed(r[i].peers[s].log, r[i].g.logs[s])
  {
    RunPeer(r, i - 1, s);
    RunPeer(r, i, s);
    RunRequest(r, i - 1, s, a, full);
    AppendDecided(r[i - 1].g, s, r[i - 1].peers[s], a, full);
    if P.AppendEntry(r[i - 1].peers[s], a).1.success {
      AppendCommitted(r[i - 1].peers[s], a, full, r[i].peers[s], r[i].g.logs[s]);
    }
  }

  lemma RunRequest(r: seq<Cluster>, i: nat, s: Server, a: P.AppendArgs, full: Log)
    requires Run(r) && i < |r| && AppendRequested(s, a, full) in r[i].net
    ensures AppendRequestOk(r[i].g, s, a, full)
  {
    RunInv(r, i);
    assert MessageOk(r[i].g, r[i].peers, AppendRequested(s, a, full));
  }

  lemma AppendDecided(g: State, s: Server, p: P.Peer, a: P.AppendArgs, full: Log)
    requires s < |g.terms| == |g.logs| && StateOk(g, s, p) && P.Valid(p) && AppendRequestOk(g, s, a, full)
    ensures var (q, reply) := P.AppendEntry(p, a);
            && (reply.success <==> p.currentTerm <= a.term && Attaches(p, g.logs[s], full, a.prevLogIndex))
            && reply.term == q.currentTerm == Later(p.currentTerm, a.term)
            && (p.currentTerm <= a.term ==> q.role == P.Follower)
            && (a.term < p.currentTerm ==> q == p)
            && (!reply.success ==> q.log == p.log && q.commitIndex == p.commitIndex)
  {
    var l, q := g.logs[s], P.StepTerm(p, a.term).(role := P.Follower);
    assert q.log == p.log;
    assert P.Rejects(q, a) <==> !Attaches(p, l, full, a.prevLogIndex) by {
      var k := a.prevLogIndex - P.Base(p);
      assert 0 < k < |p.log| ==> p.log[k] == l[a.prevLogIndex];
    }
  }

  /** A follower that has the sender's log takes over its commit index. */
  lemma AppendCommitted(p: P.Peer, a: P.AppendArgs, full: Log, q: P.Peer, l: Log)
    requires P.Valid(p) && P.Valid(q) && Trimmed(q.log, l) && q == P.AppendEntry(p, a).0 && P.AppendEntry(p, a).1.success
    requires Prefix(full, l) && a.leaderCommit < |full|
    ensures q.commitIndex == Higher(p.commitIndex, a.leaderCommit)
  {
    EndOfLog(q, l);
    var w := P.StepTerm(p, a.term).(role := P.Follower);
    var pre := if a.prevLogIndex < P.Base(w) then 0 else a.prevLogIndex - P.Base(w);
    var es := if a.prevLogIndex < P.Base(w) then P.Clipped(P.Base(w), a) else a.entries;
    assert q == P.Appended(w, a, pre, es).0;
    AppendedCommit(w, a, pre, es);
  }

  lemma AppendedCommit(p: P.Peer, a: P.AppendArgs, pre: nat, es: seq<Entry>)
    requires pre < |p.log|
    ensures var q := P.Appended(p, a, pre, es).0;
            |q.log| > 0 && q.commitIndex == if a.leaderCommit > p.commitIndex then P.Min(a.leaderCommit, P.LastIndex(q)) else p.commitIndex
  {
  }

  // ---------------------------------------------------------------- rejections and back-off

  /** The entries y of l and of m, if both exist, are of different terms. */
  ghost predicate Differ(l: Log, m: Log, y: nat) {
    y < |l| && y < |m| ==> l[y].term != m[y].term
  }

  /**
   The leader does not back off too far: from its new nextIndex up to the position that was rejected, as
   far as it still has the entries, there is none on which the follower's log agreed with its own.
   */
  lemma BackOffSkipsNothing(r: seq<Cluster>, i: nat, s: Server, a: P.AppendArgs, full: Log, j: nat, y: nat)
    requires Run(r) && 0 < i <= j < |r| && HandleAppend(r[i - 1], r[i], s, a, full)
    requires r[i - 1].peers[s].currentTerm <= a.term && !P.AppendEntry(r[i - 1].peers[s], a).1.success
    requires a.leaderId < |r[j].peers| && P.Valid(r[j].peers[a.leaderId])
    requires r[j].peers[a.leaderId].role == P.Leader && r[j].peers[a.leaderId].currentTerm == a.term
    requires P.BackOff(r[j].peers[a.leaderId], P.AppendEntry(r[i - 1].peers[s], a).1) <= y <= a.prevLogIndex
    requires P.Base(r[j].peers[a.leaderId]) <= y
    ensures s < |r[i - 1].g.logs| && a.leaderId < |r[j].g.logs|
    ensures Differ(r[i - 1].g.logs[s], r[j].g.logs[a.leaderId], y)
  {
    var g, h, p, w := r[i - 1].g, r[j].g, r[i - 1].peers[s], r[j].peers[a.leaderId];
    RunPeer(r, i - 1, s);
    RunPeer(r, j, a.leaderId);
    RunRequest(r, i - 1, s, a, full);
    assert LogOk(g, s) && LogOk(h, a.leaderId);
    TrimmedSorted(h, a.leaderId, w);
    CompleteSorted(g, s);
    LeaderAhead(r, i - 1, s, a, full, j);
    RejectedRun(p, g.logs[s], a, w, h.logs[a.leaderId], y);
  }

  /** The leader's log still begins with the log it sent. */
  lemma LeaderAhead(r: seq<Cluster>, i: nat, s: Server, a: P.AppendArgs, full: Log, j: nat)
    requires Run(r) && i <= j < |r| && AppendRequested(s, a, full) in r[i].net && a.leaderId < |r[j].peers|
    requires r[j].peers[a.leaderId].role == P.Leader && r[j].peers[a.leaderId].currentTerm == a.term
    ensures a.leaderId < |r[j].g.logs| && Prefix(full, r[j].g.logs[a.leaderId])
  {
    RunRequest(r, i, s, a, full);
    RunPeer(r, j, a.leaderId);
    RunGrows(r, i, j);
    assert TermGrows(r[i].g, r[j].g, a.term);
    LeaderLog(r[j].g, a.leaderId, r[j].peers[a.leaderId]);
  }

  ghost predicate TermsAscend(l: Log) {
    forall x, y :: 0 <= x <= y < |l| ==> l[x].term <= l[y].term
  }

  lemma CompleteSorted(g: State, s: Server)
    requires Inv(g) && s < |g.logs|
    ensures TermsAscend(g.logs[s])
  {
    assert LogOk(g, s);
    forall x, y | 0 <= x <= y < |g.logs[s]| ensures g.logs[s][x].term <= g.logs[s][y].term {
      TermsSorted(g, g.logs[s], x, y);
    }
  }

  /** The follower p with complete log l rejected; w is the leader with complete log m. */
  lemma RejectedRun(p: P.Peer, l: Log, a: P.AppendArgs, w: P.Peer, m: Log, y: nat)
    requires P.Valid(p) && Trimmed(p.log, l) && TermsAscend(l) && p.currentTerm <= a.term
    requires P.Valid(w) && Trimmed(w.log, m) && (forall x, z :: 0 <= x <= z < |w.log| ==> w.log[x].term <= w.log[z].term)
    requires a.prevLogIndex < |m| && !P.AppendEntry(p, a).1.success
    requires P.BackOff(w, P.AppendEntry(p, a).1) <= y <= a.prevLogIndex && P.Base(w) <= y
    ensures Differ(l, m, y)
  {
    var q := P.StepTerm(p, a.term).(role := P.Follower);
    var reply, prev, b := P.Rejection(q, a), a.prevLogIndex, P.Base(p);
    assert P.AppendEntry(p, a).1 == reply;
    EndOfLog(p, l);
    if prev - b < |p.log| {
      TrimmedTerm(p.log, l, prev - b);
      LeaderTermAt(w, m, reply.xTerm, P.LastWithTerm(w.log, reply.xTerm), y);
      if P.LastWithTerm(w.log, reply.xTerm) == -1 {
        InRejectedRun(p, l, prev, y, P.RunStart(p.log, prev - b));
      }
    }
  }

  /** Behind the last entry of a term in the leader's log, or if it has none, there is no entry of that term. */
  lemma LeaderTermAt(w: P.Peer, m: Log, term: int, k: int, y: nat)
    requires P.Valid(w) && Trimmed(w.log, m) && P.Base(w) <= y < |m| && k == P.LastWithTerm(w.log, term)
    requires forall x, z :: 0 <= x <= z < |w.log| ==> w.log[x].term <= w.log[z].term
    ensures k == -1 ==> m[y].term != term
    ensures k != -1 && w.log[k].index < y ==> m[y].term > term
  {
    TrimmedTerm(w.log, m, y - P.Base(w));
  }

  /** From the start of the conflicting run on, the follower's entries are of its term. */
  lemma InRejectedRun(p: P.Peer, l: Log, prev: nat, y: nat, f: nat)
    requires P.Valid(p) && Trimmed(p.log, l) && P.Base(p) <= prev < |l| && f <= prev - P.Base(p)
    requires forall k :: f <= k <= prev - P.Base(p) ==> p.log[k].term == p.log[prev - P.Base(p)].term
    requires p.log[f].index <= y <= prev
    ensures l[y].term == l[prev].term
  {
    var b := P.Base(p);
    assert p.log[f].index == b + f;
    TrimmedTerm(p.log, l, y - b);
    TrimmedTerm(p.log, l, prev - b);
  }

  lemma TrimmedTerm(log: seq<Entry>, l: Log, k: nat)
    requires Trimmed(log, l) && k < |log|
    ensures log[k].term == l[log[0].index + k].term
  {
  }

  /** A rejection in the leader's term makes it resume from there; one from a later term makes it step down. */
  lemma RejectionRecorded(r: seq<Cluster>, i: nat, s: Server, v: Server, a: P.AppendArgs, reply: P.AppendReply)
    requires Run(r) && 0 < i < |r| && AppendAnswered(r[i - 1], r[i], s, v, a, reply) && !reply.success
    requires r[i - 1].peers[s].role == P.Leader && a.term == r[i - 1].peers[s].currentTerm
    requires a.prevLogIndex + 1 >= r[i - 1].peers[s].nextIndex[v]
    ensures var p, q := r[i - 1].peers[s], r[i].peers[s];
            && q.currentTerm == Later(p.currentTerm, reply.term) && q.log == p.log && q.matchIndex == p.matchIndex
            && (reply.term <= p.currentTerm ==>
                  q.role == P.Leader && |q.nextIndex| == |p.nextIndex| && 1 <= q.nextIndex[v] <= a.prevLogIndex
                  && q.nextIndex[v] == P.BackOff(p, reply))
            && (p.currentTerm < reply.term ==> q.role == P.Follower && q.disk.term == reply.term)
  {
    if reply.term <= r[i - 1].peers[s].currentTerm { BackOffBelowRejection(r, i - 1, s, v, a, reply); }
  }

  // ---------------------------------------------------------------- what is sent

  /** A request to a follower starts at its nextIndex, goes to the end of the log, and tells the commit index. */
  lemma RequestCarries(r: seq<Cluster>, i: nat, s: Server, to: Server)
    requires Run(r) && 0 < i < |r| && SendAppend(r[i - 1], r[i], s, to)
    ensures var p, l := r[i - 1].peers[s], r[i - 1].g.logs[s];
            && 1 <= p.nextIndex[to] <= |l|
            && AppendRequested(to, P.AppendArgs(p.currentTerm, s, p.nextIndex[to] - 1, l[p.nextIndex[to] - 1].term,
                                                l[p.nextIndex[to]..], p.commitIndex), l) in r[i].net
  {
    RunPeer(r, i - 1, s);
    RequestIs(r[i - 1].peers[s], r[i - 1].g.logs[s], s, to);
  }

  lemma RequestIs(p: P.Peer, l: Log, s: Server, to: Server)
    requires P.Valid(p) && Trimmed(p.log, l) && p.me == s && to < |p.nextIndex|
    requires P.Base(p) < p.nextIndex[to] <= P.LastIndex(p) + 1
    ensures 1 <= p.nextIndex[to] <= |l|
    ensures P.AppendRequest(p, to) == P.AppendArgs(p.currentTerm, s, p.nextIndex[to] - 1, l[p.nextIndex[to] - 1].term,
                                                   l[p.nextIndex[to]..], p.commitIndex)
  {
    EndOfLog(p, l);
    var b := p.nextIndex[to] - P.Base(p);
    assert p.log[b..] == l[p.nextIndex[to]..];
  }

  // ---------------------------------------------------------------- snapshots

  /** q and the reply are what a snapshot makes of p, whose complete log is l. */
  ghost predicate SnapshotEffect(p: P.Peer, l: Log, a: P.SnapshotArgs, q: P.Peer, reply: P.SnapshotReply) {
    && |p.log| > 0 && |q.log| > 0
    && (reply.success <==> p.currentTerm <= a.term && P.Base(p) < a.lastIndex)
    && reply.term == p.currentTerm
    && q.currentTerm == Later(p.currentTerm, a.term)
    && q.role == (if p.currentTerm < a.term then P.Follower else p.role)
    && (!reply.success ==> q.log == p.log && q.snapshot == p.snapshot && q.commitIndex == p.commitIndex)
    && (reply.success ==>
          && P.Base(q) == a.lastIndex && q.log[0].term == a.lastTerm && q.snapshot == a.data
          && q.commitIndex == Higher(p.commitIndex, a.lastIndex)
          && q.log[1..] == (if a.lastIndex + 1 < |l| && l[a.lastIndex].term == a.lastTerm then l[a.lastIndex + 1..] else [])
          && q.disk.log == q.log && q.disk.snapshot == q.snapshot)
  }

  /**
   A snapshot is installed exactly if the request is not behind and the snapshot above the base. The log
   then starts there, and goes on with what it had if it had that entry, or else ends.
   */
  lemma InstallsExactly(r: seq<Cluster>, i: nat, s: Server, a: P.SnapshotArgs, prefix: Log)
    requires Run(r) && 0 < i < |r| && HandleSnapshot(r[i - 1], r[i], s, a, prefix)
    ensures s < |r[i - 1].g.logs|
    ensures var reply := P.InstallSnapshot(r[i - 1].peers[s], a).1;
            && SnapshotReplied(s, a, reply) in r[i].net
            && SnapshotEffect(r[i - 1].peers[s], r[i - 1].g.logs[s], a, r[i].peers[s], reply)
  {
    RunPeer(r, i - 1, s);
    InstallDecided(r[i - 1].peers[s], r[i - 1].g.logs[s], a);
  }

  lemma InstallDecided(p: P.Peer, l: Log, a: P.SnapshotArgs)
    requires P.Valid(p) && Trimmed(p.log, l)
    ensures var (q, reply) := P.InstallSnapshot(p, a); SnapshotEffect(p, l, a, q, reply)
  {
    EndOfLog(p, l);
    var k := a.lastIndex - P.Base(p);
    if 0 < k < |p.log| {
      assert p.log[k] == l[a.lastIndex];
      assert p.log[k..][1..] == l[a.lastIndex + 1..];
    }
  }

  /**
   The service's snapshot is taken whenever the service is beyond the base: the log then starts at the
   index the store stands for, keeps all that comes after, and both are on disk.
   */
  lemma TrimsExactly(r: seq<Cluster>, i: nat, s: Server)
    requires Run(r) && 0 < i < |r| && TakeSnapshot(r[i - 1], r[i], s)
    ensures s < |r[i - 1].apps| && s < |r[i - 1].g.logs|
    ensures TrimEffect(r[i - 1].peers[s], r[i - 1].g.logs[s], r[i - 1].apps[s].lastAppliedID, r[i - 1].apps[s].store, r[i].peers[s])
  {
    RunPeer(r, i - 1, s);
    RunService(r, i - 1, s);
    SnapshotTaken(r[i - 1].peers[s], r[i - 1].g.logs[s], r[i - 1].apps[s].lastAppliedID, r[i - 1].apps[s].store);
  }

  /** q is what the service's snapshot at an index makes of p, whose complete log is l. */
  ghost predicate TrimEffect(p: P.Peer, l: Log, index: nat, data: Store, q: P.Peer) {
    && |p.log| > 0
    && if P.Base(p) < index then
         && |q.log| > 0 && P.Base(q) == index < |l| && q.snapshot == data && q.log[1..] == l[index + 1..]
         && q.disk.log == q.log && q.disk.snapshot == q.snapshot
       else q == p
  }

  lemma RunService(r: seq<Cluster>, i: nat, s: Server)
    requires Run(r) && i < |r| && s < |r[i].peers|
    ensures s < |r[i].apps| && r[i].apps[s].lastAppliedID <= r[i].peers[s].lastApplied <= r[i].peers[s].commitIndex
  {
    var l := StateMachineSafety(r, i);
    assert Follows(l, r[i].peers[s], r[i].apps[s]);
  }

  lemma SnapshotTaken(p: P.Peer, l: Log, index: nat, data: Store)
    requires P.Valid(p) && Trimmed(p.log, l) && p.commitIndex < |l| && index <= p.commitIndex
    ensures TrimEffect(p, l, index, data, P.Snapshot(p, index, data))
  {
    EndOfLog(p, l);
    if P.Base(p) < index {
      var k := index - P.Base(p);
      assert p.log[k..][1..] == l[index + 1..];
    }
  }

  /** A successful snapshot answer in the leader's term counts as a match; indices never fall by it. */
  lemma SnapshotRecorded(r: seq<Cluster>, i: nat, s: Server, v: Server, a: P.SnapshotArgs, reply: P.SnapshotReply)
    requires Run(r) && 0 < i < |r| && SnapshotAnswered(r[i - 1], r[i], s, v, a, reply)
    requires r[i - 1].peers[s].role == P.Leader && a.term == r[i - 1].peers[s].currentTerm
    ensures var p, q := r[i - 1].peers[s], r[i].peers[s];
            && v < |p.nextIndex| == |p.matchIndex|
            && (p.currentTerm < reply.term ==> q.role == P.Follower && q.currentTerm == q.disk.term == reply.term)
            && (reply.term <= p.currentTerm && !reply.success ==> q == p)
            && (reply.term <= p.currentTerm && reply.success ==>
                  && |q.matchIndex| == |p.matchIndex| && |q.nextIndex| == |p.nextIndex| && q.role == P.Leader
                  && q.matchIndex[v] >= a.lastIndex && q.nextIndex[v] > a.lastIndex
                  && q.matchIndex[v] in {p.matchIndex[v], a.lastIndex} && q.nextIndex[v] in {p.nextIndex[v], a.lastIndex + 1}
                  && q.matchIndex[v] >= p.matchIndex[v] && q.nextIndex[v] >= p.nextIndex[v]
                  && (forall x :: 0 <= x < |p.matchIndex| && x != v ==>
                        q.matchIndex[x] == p.matchIndex[x] && q.nextIndex[x] == p.nextIndex[x])
                  && q.commitIndex == p.commitIndex && q.log == p.log)
  {
    RunPeer(r, i - 1, s);
  }

  // ---------------------------------------------------------------- restart

  /**
   A restart brings back term, vote, log and snapshot as they were (or with the greater term t that was
   adopted just before the crash, and no vote), as a follower that has committed and applied its snapshot.
   */
  lemma RestartsFromDisk(r: seq<Cluster>, i: nat, s: Server, t: Term)
    requires Run(r) && 0 < i < |r| && Restart(r[i - 1], r[i], s, t)
    ensures var p, q, a := r[i - 1].peers[s], r[i].peers[s], r[i].apps[s];
            && q.currentTerm == Later(p.currentTerm, t)
            && q.votedFor == (if p.currentTerm < t then P.NOBODY else p.votedFor)
            && |p.log| > 0 && q.log == p.log && q.snapshot == p.snapshot && q.role == P.Follower
            && q.commitIndex == q.lastApplied == P.Base(p)
            && a.store == p.snapshot && a.queue == []
  {
    RunPeer(r, i - 1, s);
  }
}
