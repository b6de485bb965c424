/**
 Compaction, snapshot installation, delivery to the service, and restart.

 A snapshot request may be built by a server that no longer leads, so nothing is asked of its sender's
 role: the prefix it stands for is committed, and that is enough. Installing it, in whatever role, keeps
 every committed entry, and what it displaces beyond was not acknowledged in the current term. What one
 round of applyLog hands over continues what was handed over before, and a restart finds on disk what
 was in memory.
 */
module SnapshotSteps {
  import opened KvStore
  import opened RaftLog
  import opened Consensus
  import opened ConsensusSteps
  import opened LeaderCompleteness
  import opened Cluster
  import opened ClusterInv
  import opened ElectionSteps
  import P = Peer

  // ---------------------------------------------------------------- sending and installing

  /** Whoever sends it and whenever it is built, a snapshot request stands for a committed log. */
  lemma SnapshotRequestSent(g: State, peers: seq<P.Peer>, s: Server, p: P.Peer)
    requires Inv(g) && s < |g.terms| && StateOk(g, s, p) && s < |peers| && peers[s] == p
    ensures P.Base(p) < |g.logs[s]|
    ensures SnapshotRequestOk(g, peers, P.SnapshotRequest(p), g.logs[s][..P.Base(p) + 1])
  {
    var l, b := g.logs[s], P.Base(p);
    CommittedPart(g, p.currentTerm, l, p.commitIndex + 1, l[..b + 1], b + 1);
    FoldAgree(l, l[..b + 1], b + 1);
  }

  /** Installing a committed prefix changes no committed entry, and the result has that prefix. */
  lemma InstallKeepsCommitted(g: State, t: Term, l: Log, k: nat, prefix: Log)
    requires Inv(g) && Backed(g, l) && Committed(g, t, l, k) && |prefix| > 0 && Committed(g, t, prefix, |prefix|)
    ensures Agree(l, Installed(l, prefix), k)
    ensures Prefix(prefix, Installed(l, prefix))
  {
    CommittedAgree(g, t, l, k, t, prefix, |prefix|);
    CommittedBacked(g, t, prefix);
    if Installed(l, prefix) != prefix {
      LogMatching(g, l, prefix, |prefix| - 1);
    }
  }

  /** The trimmed log after InstallSnapshot is the complete log after Install, from the new base on. */
  lemma InstalledTrimmed(log: seq<Entry>, l: Log, prefix: Log)
    requires P.Contiguous(log) && Trimmed(log, l) && |prefix| > 0 && |prefix| - 1 > log[0].index
    ensures var x := |prefix| - 1;
            Trimmed(if x >= log[|log| - 1].index || log[x - log[0].index].term != LastTerm(prefix)
                    then [Entry(LastTerm(prefix), x, Nop)] else log[x - log[0].index..], Installed(l, prefix))
  {
    var x, b := |prefix| - 1, log[0].index;
    if x == log[|log| - 1].index && l[x].term == LastTerm(prefix) {
      assert |prefix| >= |l|;
    }
  }

  lemma InstallStep(g: State, s: Server, prefix: Log)
    requires Inv(g) && s < |g.terms| && |prefix| > 0 && Committed(g, g.terms[s], prefix, |prefix|)
    ensures StepOf(g, Install(g, s, prefix), s)
  {
    InstallKeeps(g, s, prefix);
  }

  /** The peer's state after installing: new base, new snapshot, commit index at least the base. */
  lemma InstalledState(g: State, h: State, s: Server, p: P.Peer, q: P.Peer, prefix: Log)
    requires s < |g.terms| == |g.logs| && |h.logs| == |g.logs| && Grows(g, h) && StateOk(g, s, p)
    requires h.terms[s] == g.terms[s] && Agree(g.logs[s], h.logs[s], p.commitIndex + 1)
    requires Prefix(prefix, h.logs[s]) && |prefix| > 0 && Committed(g, p.currentTerm, prefix, |prefix|)
    requires Trimmed(q.log, h.logs[s]) && q.log[0].index == |prefix| - 1 && P.Saved(q)
    requires q == p.(log := q.log, snapshot := Fold(prefix, |prefix|), disk := q.disk,
                     commitIndex := if p.commitIndex >= |prefix| - 1 then p.commitIndex else |prefix| - 1)
    ensures StateOk(h, s, q)
  {
    var t, l := p.currentTerm, h.logs[s];
    if p.commitIndex >= |prefix| - 1 {
      CommittedGrows(g, h, t, t, g.logs[s], p.commitIndex + 1);
      CommittedPart(h, t, g.logs[s], p.commitIndex + 1, l, p.commitIndex + 1);
    } else {
      CommittedGrows(g, h, t, t, prefix, |prefix|);
      CommittedPart(h, t, prefix, |prefix|, l, |prefix|);
    }
    FoldAgree(prefix, l, |prefix|);
  }

  /** Trimming the log does not change what a leader knows, nor what it could commit. */
  lemma CompactedLeader(g: State, h: State, s: Server, p: P.Peer, q: P.Peer)
    requires s < |g.terms| == |g.logs| == |h.logs| && Grows(g, h) && h.logs[s] == g.logs[s]
    requires StateOk(g, s, p) && StateOk(h, s, q) && LeaderPeerOk(g, s, p)
    requires q.role == p.role && q.currentTerm == p.currentTerm && p.commitIndex <= q.commitIndex
    requires q.nextIndex == p.nextIndex && q.matchIndex == p.matchIndex
    ensures LeaderPeerOk(h, s, q)
  {
    if p.role == P.Leader {
      assert TermGrows(g, h, p.currentTerm);
      forall x | 0 <= x < |q.nextIndex| && x != s ensures FollowerOk(h, s, q, x) {
        assert FollowerOk(g, s, p, x) && SlotGrows(g, h, At(p.currentTerm, x));
      }
      forall y: nat | q.commitIndex < y ensures !P.Commits(q, y) {
        CompactedCommits(g.logs[s], p, q, y);
        assert !P.Commits(p, y);
      }
    }
  }

  lemma CompactedCommits(l: Log, p: P.Peer, q: P.Peer, y: nat)
    requires Trimmed(p.log, l) && Trimmed(q.log, l) && P.Base(p) < y && P.Base(q) < y
    requires q.currentTerm == p.currentTerm && q.matchIndex == p.matchIndex && q.me == p.me
    ensures P.Commits(q, y) == P.Commits(p, y)
  {
    assert P.Matched(q, y) == P.Matched(p, y);
    if y < |l| {
      assert q.log[y - P.Base(q)] == l[y] == p.log[y - P.Base(p)];
    }
  }

  /** A leader is not moved by a snapshot: it already has every committed entry. */
  lemma LeaderUnmoved(g: State, h: State, s: Server, t: Term)
    requires Inv(g) && StepOf(g, h, s) && s < |g.terms| && h.elected == g.elected && h.terms == g.terms
    requires t == g.terms[s] && t in g.elected && g.elected[t].leader == s
    ensures h.logs[s] == g.logs[s]
  {
    assert LeaderOk(g, t) && LeaderOk(h, t);
  }

  /** What InstallSnapshot leaves of a peer already in the request's term, for a snapshot above its base. */
  lemma InstalledPeer(p: P.Peer, l: Log, a: P.SnapshotArgs, prefix: Log) returns (q: P.Peer)
    requires P.Valid(p) && Trimmed(p.log, l) && p.currentTerm == a.term && a.lastIndex > P.Base(p)
    requires |prefix| == a.lastIndex + 1 && a.lastTerm == LastTerm(prefix) && a.data == Fold(prefix, |prefix|)
    ensures q == P.InstallSnapshot(p, a).0
    ensures Trimmed(q.log, Installed(l, prefix)) && q.log[0].index == |prefix| - 1 && P.Saved(q)
    ensures q == p.(log := q.log, snapshot := Fold(prefix, |prefix|), disk := q.disk,
                    commitIndex := if p.commitIndex >= |prefix| - 1 then p.commitIndex else |prefix| - 1)
  {
    q := P.InstallSnapshot(p, a).0;
    InstalledTrimmed(p.log, l, prefix);
  }

  lemma InstallInTerm(g: State, counted: set<Counted>, s: Server, p: P.Peer, a: P.SnapshotArgs, prefix: Log)
    requires Inv(g) && s < |g.terms| && PeerOk(g, counted, s, p) && P.Valid(p)
    requires p.currentTerm == a.term && a.lastIndex > P.Base(p)
    requires |prefix| == a.lastIndex + 1 && a.lastTerm == LastTerm(prefix) && a.data == Fold(prefix, |prefix|)
    requires Committed(g, a.term, prefix, |prefix|)
    ensures StepGood(g, Install(g, s, prefix), counted, s, p, P.InstallSnapshot(p, a).0)
  {
    var q := InstalledPeer(p, g.logs[s], a, prefix);
    InstallGood(g, counted, s, p, q, prefix);
  }

  lemma InstallGood(g: State, counted: set<Counted>, s: Server, p: P.Peer, q: P.Peer, prefix: Log)
    requires Inv(g) && s < |g.terms| && PeerOk(g, counted, s, p)
    requires |prefix| - 1 > P.Base(p) && Committed(g, p.currentTerm, prefix, |prefix|)
    requires Trimmed(q.log, Installed(g.logs[s], prefix)) && q.log[0].index == |prefix| - 1 && P.Saved(q)
    requires q == p.(log := q.log, snapshot := Fold(prefix, |prefix|), disk := q.disk,
                     commitIndex := if p.commitIndex >= |prefix| - 1 then p.commitIndex else |prefix| - 1)
    ensures StepGood(g, Install(g, s, prefix), counted, s, p, q)
  {
    var h := Install(g, s, prefix);
    assert LogOk(g, s);
    InstallKeepsCommitted(g, p.currentTerm, g.logs[s], p.commitIndex + 1, prefix);
    InstallStep(g, s, prefix);
    InstalledState(g, h, s, p, q, prefix);
    InstalledLeader(g, h, s, p, q);
    SameRole(g, h, counted, s, p, q);
  }

  lemma InstalledLeader(g: State, h: State, s: Server, p: P.Peer, q: P.Peer)
    requires Inv(g) && StepOf(g, h, s) && s < |g.terms| && h == g.(logs := h.logs)
    requires StateOk(g, s, p) && LeaderPeerOk(g, s, p) && StateOk(h, s, q) && P.Base(p) <= P.Base(q)
    requires q == p.(log := q.log, snapshot := q.snapshot, disk := q.disk, commitIndex := q.commitIndex)
    requires p.commitIndex <= q.commitIndex
    ensures LeaderPeerOk(h, s, q)
  {
    if p.role == P.Leader {
      LeaderUnmoved(g, h, s, p.currentTerm);
      CompactedLeader(g, h, s, p, q);
    }
  }

  /** A peer whose log and snapshot changed, but not its term, role and vote. */
  lemma SameRole(g: State, h: State, counted: set<Counted>, s: Server, p: P.Peer, q: P.Peer)
    requires s < |g.terms| == |g.logs| && PeerOk(g, counted, s, p) && h == g.(logs := h.logs) && |h.logs| == |g.logs|
    requires StateOk(h, s, q) && LeaderPeerOk(h, s, q)
    requires q == p.(log := q.log, snapshot := q.snapshot, disk := q.disk, commitIndex := q.commitIndex)
    ensures PeerOk(h, counted, s, q)
  {
  }

  /** A snapshot above the base: the term is adopted first, if it is greater. */
  lemma InstallAbove(g: State, counted: set<Counted>, s: Server, p: P.Peer, a: P.SnapshotArgs, prefix: Log)
    requires Inv(g) && s < |g.terms| && PeerOk(g, counted, s, p) && P.Valid(p)
    requires |prefix| == a.lastIndex + 1 && a.lastTerm == LastTerm(prefix) && a.data == Fold(prefix, |prefix|)
    requires Committed(g, a.term, prefix, |prefix|) && p.currentTerm <= a.term && a.lastIndex > P.Base(p)
    ensures StepGood(g, Install(Seen(g, s, a.term), s, prefix), counted, s, p, P.InstallSnapshot(p, a).0)
  {
    var g1, p1 := Seen(g, s, a.term), P.StepTerm(p, a.term);
    StepTermOk(g, counted, s, p, a.term);
    PeerValid(g1, counted, s, p1);
    InstallAdopts(p, a);
    CommittedGrows(g, g1, a.term, a.term, prefix, |prefix|);
    InstallInTerm(g1, counted, s, p1, a, prefix);
    StepGoodTrans(g, g1, Install(g1, s, prefix), counted, s, p, p1, P.InstallSnapshot(p1, a).0);
  }

  lemma InstallSnapshotOk(g: State, counted: set<Counted>, s: Server, p: P.Peer, a: P.SnapshotArgs, prefix: Log)
    requires Inv(g) && s < |g.terms| && PeerOk(g, counted, s, p)
    requires |prefix| == a.lastIndex + 1 && a.lastTerm == LastTerm(prefix) && a.data == Fold(prefix, |prefix|)
    requires Committed(g, a.term, prefix, |prefix|)
    ensures P.Valid(p)
    ensures var (q, r) := P.InstallSnapshot(p, a);
            StepGood(g, SnapshotHistory(g, s, a.term, prefix, r.success), counted, s, p, q)
  {
    PeerValid(g, counted, s, p);
    if a.term < p.currentTerm {
      Unchanged(g, counted, s, p);
    } else {
      InstallAdopts(p, a);
      if a.lastIndex > P.Base(p) {
        InstallAbove(g, counted, s, p, a, prefix);
      } else {
        StepTermOk(g, counted, s, p, a.term);
      }
    }
  }

  lemma InstallAdopts(p: P.Peer, a: P.SnapshotArgs)
    requires P.Valid(p) && p.currentTerm <= a.term
    ensures P.Valid(P.StepTerm(p, a.term))
    ensures P.InstallSnapshot(p, a).0 == P.InstallSnapshot(P.StepTerm(p, a.term), a).0
    ensures P.InstallSnapshot(p, a).1.success <==> a.lastIndex > P.Base(p)
    ensures a.lastIndex <= P.Base(p) ==> P.InstallSnapshot(p, a).0 == P.StepTerm(p, a.term)
  {
  }

  // ---------------------------------------------------------------- Snapshot

  /** The service's snapshot: its store is the fold up to the index it names. */
  lemma SnapshotOk(g: State, counted: set<Counted>, s: Server, p: P.Peer, index: nat, data: Store)
    requires Inv(g) && s < |g.terms| && PeerOk(g, counted, s, p)
    requires P.Base(p) < index <= p.commitIndex ==> data == Fold(g.logs[s], index + 1)
    ensures P.Valid(p) && StepGood(g, g, counted, s, p, P.Snapshot(p, index, data))
  {
    PeerValid(g, counted, s, p);
    var q, l := P.Snapshot(p, index, data), g.logs[s];
    Unchanged(g, counted, s, p);
    if q != p {
      assert p.log[index - P.Base(p)] == l[index];
      assert StateOk(g, s, q);
      StepOfRefl(g, s);
      CompactedLeader(g, g, s, p, q);
    }
  }

  // ---------------------------------------------------------------- applying and reading

  lemma {:induction false} CommandsStream(log: seq<Entry>, l: Log, i: nat, j: nat)
    requires Trimmed(log, l) && P.Contiguous(log) && 1 <= i <= j <= |log|
    ensures StreamOk(P.Commands(log, i, j), log[0].index + i - 1, l, log[0].index + j - 1)
    decreases j
  {
    if i < j {
      CommandsStream(log, l, i, j - 1);
      var b := log[0].index;
      var last := P.CommandMsg(log[j - 1].index, log[j - 1].command);
      assert log[j - 1] == l[b + j - 1];
      assert StreamOk([last][1..], b + j - 1, l, b + j - 1);
      StreamJoin(P.Commands(log, i, j - 1), [last], b + i - 1, l, b + j - 2, b + j - 1);
    }
  }

  lemma {:induction false} StreamJoin(q: seq<P.ApplyMsg>, r: seq<P.ApplyMsg>, from: nat, l: Log, mid: nat, to: nat)
    requires StreamOk(q, from, l, mid) && StreamOk(r, mid, l, to)
    ensures StreamOk(q + r, from, l, to)
  {
    if q == [] {
      assert q + r == r;
    } else {
      StreamJoin(q[1..], r, q[0].index, l, mid, to);
      assert (q + r)[1..] == q[1..] + r;
    }
  }

  /** One round of applyLog delivers exactly what leads from lastApplied to commitIndex. */
  lemma ApplyStream(p: P.Peer, l: Log)
    requires P.Valid(p) && p.lastApplied <= p.commitIndex <= P.LastIndex(p)
    requires Trimmed(p.log, l) && p.snapshot == Fold(l, P.Base(p) + 1)
    ensures StreamOk(P.Apply(p).1, p.lastApplied, l, p.commitIndex)
  {
    var b, n := P.Base(p), p.commitIndex - P.Base(p) + 1;
    if p.lastApplied < b {
      var m := P.SnapshotMsg(b, p.log[0].term, p.snapshot);
      assert StreamOk([m][1..], b, l, b);
      CommandsStream(p.log, l, 1, n);
      StreamJoin([m], P.Commands(p.log, 1, n), p.lastApplied, l, b, p.commitIndex);
      assert P.Apply(p).1 == [m] + P.Commands(p.log, 1, n);
    } else {
      CommandsStream(p.log, l, p.lastApplied - b + 1, n);
      assert P.Apply(p).1 == P.Commands(p.log, p.lastApplied - b + 1, n);
    }
  }

  lemma AppliedPeer(g: State, counted: set<Counted>, s: Server, p: P.Peer)
    requires s < |g.terms| == |g.logs| && PeerOk(g, counted, s, p)
    ensures PeerOk(g, counted, s, p.(lastApplied := p.commitIndex))
  {
    var q := p.(lastApplied := p.commitIndex);
    forall y: nat | p.commitIndex < y && p.role == P.Leader ensures !P.Commits(q, y) {
      assert P.Matched(q, y) == P.Matched(p, y) && !P.Commits(p, y);
    }
    forall x | 0 <= x < |q.nextIndex| && x != s && p.role == P.Leader ensures FollowerOk(g, s, q, x) {
      assert FollowerOk(g, s, p, x);
    }
  }

  lemma {:induction false} StreamMessages(q: seq<P.ApplyMsg>, from: nat, l: Log, to: nat, i: nat)
    requires StreamOk(q, from, l, to) && i < |q| && to < |l|
    ensures from < q[i].index <= to
    ensures match q[i]
            case CommandMsg(x, c) => c == l[x].command
            case SnapshotMsg(x, t, d) => t == l[x].term && d == Fold(l, x + 1)
  {
    StreamOkAgree(q, from, l, l, to);
    StreamOkAgree(q[1..], q[0].index, l, l, to);
    if i > 0 {
      StreamMessages(q[1..], q[0].index, l, to, i - 1);
    }
  }

  /** The reader never takes a command for a duplicate, and keeps the store equal to the fold. */
  lemma ReadOk(a: App, p: P.Peer, l: Log)
    requires AppOk(a, p, l) && a.queue != []
    ensures !Duplicate(a, a.queue[0].index)
    ensures AppOk(ReadOne(a), p, l)
  {
  }

  // ---------------------------------------------------------------- restart

  /** What comes back from the persister is in order, and nothing of the complete log is lost. */
  lemma RestartOk(g: State, counted: set<Counted>, s: Server, p: P.Peer)
    requires Inv(g) && s < |g.terms| && PeerOk(g, counted, s, p)
    ensures var q := P.Boot(s, |g.terms|, p.disk);
            && PeerOk(g, counted, s, q)
            && P.Image(q) == P.Image(p)
            && AppOk(App([], q.snapshot, 0, q.commitIndex), q, g.logs[s])
  {
    var q, l := P.Boot(s, |g.terms|, p.disk), g.logs[s];
    CommittedPart(g, p.currentTerm, l, p.commitIndex + 1, l, P.Base(p) + 1);
  }
}
