/** Safety of whole runs: the theorems of the Raft paper's Figure 3, for this implementation. */
module Safety {
  import opened RaftLog
  import opened Quorum
  import opened Consensus
  import opened ConsensusSteps
  import opened LeaderCompleteness
  import opened Cluster
  import opened ClusterInv
  import opened ElectionSteps
  import opened LeaderSteps
  import opened SnapshotSteps
  import opened ClusterSteps
  import opened Rsm
  import P = Peer

  /** A run: from an initial state, step by step, with any loss, delay, reordering and restarts. */
  ghost predicate Run(r: seq<Cluster>) {
    && |r| > 0
    && Init(r[0])
    && forall i :: 0 < i < |r| ==> Follow(r, i)
  }

  ghost predicate Follow(r: seq<Cluster>, i: int)
    requires 0 < i < |r|
  {
    Next(r[i - 1], r[i])
  }

  lemma RunStep(r: seq<Cluster>, i: nat)
    requires Run(r) && 0 < i < |r|
    ensures CInv(r[i - 1]) && CInv(r[i]) && StepSafe(r[i - 1], r[i])
  {
    RunInv(r, i - 1);
    assert Follow(r, i);
    NextSafe(r[i - 1], r[i]);
  }

  lemma {:induction false} RunInv(r: seq<Cluster>, i: nat)
    requires Run(r) && i < |r|
    ensures CInv(r[i])
  {
    if i == 0 {
      InitInv(r[0]);
    } else {
      RunInv(r, i - 1);
      assert Follow(r, i);
      NextSafe(r[i - 1], r[i]);
    }
  }

  lemma {:induction false} RunGrows(r: seq<Cluster>, i: nat, j: nat)
    requires Run(r) && i <= j < |r|
    ensures Grows(r[i].g, r[j].g) && |r[i].peers| == |r[j].peers|
    decreases j
  {
    if i == j {
      RunInv(r, i);
      StepOfRefl(r[i].g, 0);
    } else {
      RunGrows(r, i, j - 1);
      RunStep(r, j);
      GrowsTrans(r[i].g, r[j - 1].g, r[j].g);
    }
  }

  /** Each peer is in order, in the history of the run. */
  lemma RunState(r: seq<Cluster>, i: nat, s: Server)
    requires Run(r) && i < |r| && s < |r[i].peers|
    ensures Inv(r[i].g) && s < |r[i].g.terms| == |r[i].g.logs| && StateOk(r[i].g, s, r[i].peers[s])
  {
    RunInv(r, i);
    assert PeerOk(r[i].g, r[i].counted, s, r[i].peers[s]);
  }

  // ---------------------------------------------------------------- elections

  /** Election safety: two leaders of one term, at any two moments of a run, are the same server. */
  lemma ElectionSafety(r: seq<Cluster>, i: nat, s: Server, j: nat, u: Server)
    requires Run(r) && i < |r| && j < |r| && s < |r[i].peers| && u < |r[j].peers|
    requires r[i].peers[s].role == P.Leader && r[j].peers[u].role == P.Leader
    requires r[i].peers[s].currentTerm == r[j].peers[u].currentTerm
    ensures s == u
  {
    if i <= j {
      LeadersMeet(r, i, s, j, u);
    } else {
      LeadersMeet(r, j, u, i, s);
    }
  }

  lemma LeadersMeet(r: seq<Cluster>, i: nat, s: Server, j: nat, u: Server)
    requires Run(r) && i <= j < |r| && s < |r[i].peers| && u < |r[j].peers|
    requires r[i].peers[s].role == P.Leader && r[j].peers[u].role == P.Leader
    requires r[i].peers[s].currentTerm == r[j].peers[u].currentTerm
    ensures s == u
  {
    RunInv(r, i);
    RunInv(r, j);
    RunGrows(r, i, j);
    assert PeerOk(r[i].g, r[i].counted, s, r[i].peers[s]) && PeerOk(r[j].g, r[j].counted, u, r[j].peers[u]);
    assert TermGrows(r[i].g, r[j].g, r[i].peers[s].currentTerm);
  }

  // ---------------------------------------------------------------- logs

  /** The entry of index x in a trimmed log. */
  function EntryAt(p: P.Peer, x: nat): Entry
    requires |p.log| > 0 && P.Base(p) <= x < P.Base(p) + |p.log|
  {
    p.log[x - P.Base(p)]
  }

  ghost predicate Holds(p: P.Peer, x: nat) {
    |p.log| > 0 && P.Base(p) <= x < P.Base(p) + |p.log|
  }

  /**
   Log matching under compaction: if two servers hold an entry of equal index and term, their full logs,
   what the snapshot stands for and what is retained, agree up to there. So entries both still hold are
   equal, and the snapshot of one is what the complete log of the other folds to.
   */
  lemma LogsMatch(r: seq<Cluster>, i: nat, s: Server, u: Server, x: nat)
    requires Run(r) && i < |r| && s < |r[i].peers| && u < |r[i].peers|
    requires Holds(r[i].peers[s], x) && Holds(r[i].peers[u], x)
    requires EntryAt(r[i].peers[s], x).term == EntryAt(r[i].peers[u], x).term
    ensures s < |r[i].g.logs| && u < |r[i].g.logs| && Agree(r[i].g.logs[s], r[i].g.logs[u], x + 1)
    ensures r[i].peers[s].snapshot == Fold(r[i].g.logs[u], P.Base(r[i].peers[s]) + 1)
    ensures forall y :: y <= x && P.Base(r[i].peers[s]) < y && P.Base(r[i].peers[u]) < y ==>
              Holds(r[i].peers[s], y) && Holds(r[i].peers[u], y)
              && EntryAt(r[i].peers[s], y) == EntryAt(r[i].peers[u], y)
  {
    RunState(r, i, s);
    RunState(r, i, u);
    FullLogsAgree(r[i].g, s, r[i].peers[s], u, r[i].peers[u], x);
    HeldAlike(r[i].peers[s], r[i].g.logs[s], r[i].peers[u], r[i].g.logs[u], x);
  }

  lemma FullLogsAgree(g: State, s: Server, p: P.Peer, u: Server, q: P.Peer, x: nat)
    requires Inv(g) && s < |g.logs| && u < |g.logs| && StateOk(g, s, p) && StateOk(g, u, q)
    requires Holds(p, x) && Holds(q, x) && EntryAt(p, x).term == EntryAt(q, x).term
    ensures Agree(g.logs[s], g.logs[u], x + 1) && p.snapshot == Fold(g.logs[u], P.Base(p) + 1)
  {
    assert LogOk(g, s) && LogOk(g, u);
    HeldEntry(p, g.logs[s], x);
    HeldEntry(q, g.logs[u], x);
    LogMatching(g, g.logs[s], g.logs[u], x);
    FoldAgree(g.logs[s], g.logs[u], P.Base(p) + 1);
  }

  lemma HeldAlike(p: P.Peer, l: Log, q: P.Peer, m: Log, x: nat)
    requires Trimmed(p.log, l) && Trimmed(q.log, m) && Agree(l, m, x + 1)
    ensures forall y :: y <= x && P.Base(p) < y && P.Base(q) < y ==>
              Holds(p, y) && Holds(q, y) && EntryAt(p, y) == EntryAt(q, y)
  {
    forall y | y <= x && P.Base(p) < y && P.Base(q) < y
      ensures Holds(p, y) && Holds(q, y) && EntryAt(p, y) == EntryAt(q, y) {
      HeldEntry(p, l, y);
      HeldEntry(q, m, y);
    }
  }

  /**
   The same without history: where the logs of two servers meet, the snapshot of the one that has
   compacted further is the snapshot of the other with that server's own entries applied up to there.
   */
  lemma SnapshotsMatch(r: seq<Cluster>, i: nat, s: Server, u: Server, x: nat)
    requires Run(r) && i < |r| && s < |r[i].peers| && u < |r[i].peers|
    requires Holds(r[i].peers[s], x) && Holds(r[i].peers[u], x)
    requires EntryAt(r[i].peers[s], x).term == EntryAt(r[i].peers[u], x).term
    requires P.Base(r[i].peers[u]) <= P.Base(r[i].peers[s])
    ensures var p, q := r[i].peers[s], r[i].peers[u];
            p.snapshot == FoldOver(q.snapshot, q.log[1..P.Base(p) - P.Base(q) + 1])
  {
    LogsMatch(r, i, s, u, x);
    RunState(r, i, u);
    TrimmedFold(r[i].peers[u], r[i].g.logs[u], P.Base(r[i].peers[s]));
  }

  /** Applying a peer's entries up to index b to its snapshot gives what the complete log folds to. */
  lemma TrimmedFold(q: P.Peer, l: Log, b: nat)
    requires Trimmed(q.log, l) && q.snapshot == Fold(l, P.Base(q) + 1) && P.Base(q) <= b < |l|
    ensures FoldOver(q.snapshot, q.log[1..b - P.Base(q) + 1]) == Fold(l, b + 1)
  {
    FoldSplit(l, P.Base(q) + 1, b + 1);
    assert q.log[1..b - P.Base(q) + 1] == l[P.Base(q) + 1..b + 1];
  }

  /**
   Leader completeness: what any server had committed, every leader of a later term holds, or has covered
   by its snapshot base, even if it was seen before the commit; so does a later leader of the same term.
   */
  lemma LeadersHoldCommitted(r: seq<Cluster>, i: nat, s: Server, j: nat, u: Server, x: nat)
    requires Run(r) && i < |r| && j < |r| && s < |r[i].peers| && u < |r[j].peers|
    requires P.Valid(r[i].peers[s]) && P.Base(r[i].peers[s]) < x <= r[i].peers[s].commitIndex
    requires r[j].peers[u].role == P.Leader && r[i].peers[s].currentTerm <= r[j].peers[u].currentTerm
    requires i <= j || r[i].peers[s].currentTerm < r[j].peers[u].currentTerm
    ensures Holds(r[i].peers[s], x)
    ensures P.Valid(r[j].peers[u]) && x <= P.LastIndex(r[j].peers[u])
    ensures P.Base(r[j].peers[u]) < x ==> Holds(r[j].peers[u], x) && EntryAt(r[j].peers[u], x) == EntryAt(r[i].peers[s], x)
  {
    RunInv(r, i);
    RunInv(r, j);
    if i <= j {
      RunGrows(r, i, j);
      CommittedReaches(r[i], s, r[j], u, x);
    } else {
      RunGrows(r, j, i);
      CommittedReached(r[j], u, r[i], s, x);
    }
  }

  lemma CommittedReaches(c: Cluster, s: Server, d: Cluster, u: Server, x: nat)
    requires CInv(c) && CInv(d) && Grows(c.g, d.g) && s < |c.peers| && u < |d.peers|
    requires |c.peers[s].log| > 0 && P.Base(c.peers[s]) < x <= c.peers[s].commitIndex
    requires d.peers[u].role == P.Leader && c.peers[s].currentTerm <= d.peers[u].currentTerm
    ensures Holds(c.peers[s], x)
    ensures P.Valid(d.peers[u]) && x <= P.LastIndex(d.peers[u])
    ensures P.Base(d.peers[u]) < x ==> Holds(d.peers[u], x) && EntryAt(d.peers[u], x) == EntryAt(c.peers[s], x)
  {
    var g, h, p, q := c.g, d.g, c.peers[s], d.peers[u];
    assert PeerOk(g, c.counted, s, p) && PeerOk(h, d.counted, u, q);
    PeerValid(h, d.counted, u, q);
    CommittedGrows(g, h, p.currentTerm, q.currentTerm, g.logs[s], p.commitIndex + 1);
    CommittedInLeader(h, q.currentTerm, g.logs[s], p.commitIndex + 1, q.currentTerm);
    LeaderLog(h, u, q);
    HeldEntry(p, g.logs[s], x);
    HeldEntry(q, h.logs[u], x);
  }

  /** What a stale leader commits later, the leader u of a later term had already when it was elected. */
  lemma CommittedReached(d: Cluster, u: Server, c: Cluster, s: Server, x: nat)
    requires CInv(d) && CInv(c) && Grows(d.g, c.g) && s < |c.peers| && u < |d.peers|
    requires |c.peers[s].log| > 0 && P.Base(c.peers[s]) < x <= c.peers[s].commitIndex
    requires d.peers[u].role == P.Leader && c.peers[s].currentTerm < d.peers[u].currentTerm
    ensures Holds(c.peers[s], x)
    ensures P.Valid(d.peers[u]) && x <= P.LastIndex(d.peers[u])
    ensures P.Base(d.peers[u]) < x ==> Holds(d.peers[u], x) && EntryAt(d.peers[u], x) == EntryAt(c.peers[s], x)
  {
    var h, g, q, p := d.g, c.g, d.peers[u], c.peers[s];
    assert PeerOk(g, c.counted, s, p) && PeerOk(h, d.counted, u, q);
    PeerValid(h, d.counted, u, q);
    LeaderLog(h, u, q);
    assert TermGrows(h, g, q.currentTerm) && ElectedOk(h, q.currentTerm);
    CommittedInInitial(g, p.currentTerm, g.logs[s], p.commitIndex + 1, q.currentTerm);
    HeldEntry(p, g.logs[s], x);
    HeldEntry(q, h.logs[u], x);
  }

  lemma CommittedInInitial(g: State, t: Term, l: Log, k: nat, u: Term)
    requires History(g) && Committed(g, t, l, k) && t < u && u in g.elected && k > 1
    ensures Agree(l, g.elected[u].initial, k)
  {
    var w: nat, m: nat :| w <= t && Chosen(g, w, m) && k <= m && Agree(l, g.elected[w].log, k);
    LeaderHasChosen(g, w, m, u);
    AgreeTrans(l, g.elected[w].log, g.elected[u].initial, k);
  }

  /** Above its base, a peer holds the entries of the complete log. */
  lemma HeldEntry(p: P.Peer, l: Log, x: nat)
    requires Trimmed(p.log, l) && x < |l|
    ensures P.Base(p) < x ==> Holds(p, x) && EntryAt(p, x) == l[x]
    ensures P.Base(p) <= x ==> Holds(p, x) && EntryAt(p, x).term == l[x].term
  {
  }

  // ---------------------------------------------------------------- one log explains everything

  /** Everything delivered, in the whole run so far, is as in l. */
  ghost predicate Explains(l: Log, d: Delivery) {
    && d.msg.index < |l|
    && match d.msg
       case CommandMsg(i, c) => c == l[i].command
       case SnapshotMsg(i, t, data) => t == l[i].term && data == Fold(l, i + 1)
  }

  /** What server s has committed, compacted and applied is as in l. */
  ghost predicate Follows(l: Log, p: P.Peer, a: App) {
    PeerFollows(l, p) && AppFollows(l, p, a)
  }

  ghost predicate PeerFollows(l: Log, p: P.Peer) {
    && |p.log| > 0
    && P.Base(p) <= p.commitIndex < |l|
    && (forall x :: P.Base(p) < x <= p.commitIndex ==> Holds(p, x) && EntryAt(p, x) == l[x])
    && p.snapshot == Fold(l, P.Base(p) + 1)
    && p.disk.snapshot == p.snapshot
  }

  /** The store is that of l up to an index already handed over, and the channel goes on from there. */
  ghost predicate AppFollows(l: Log, p: P.Peer, a: App) {
    && a.at < |l|
    && a.at <= p.lastApplied <= p.commitIndex
    && a.store == Fold(l, a.at + 1)
    && (a.lastAppliedID == a.at || a.lastAppliedID == 0)
    && StreamOk(a.queue, a.at, l, p.lastApplied)
  }

  /** The snapshot in a request is the fold of l. */
  ghost predicate Carries(l: Log, a: P.SnapshotArgs) {
    a.lastIndex < |l| && a.lastTerm == l[a.lastIndex].term && a.data == Fold(l, a.lastIndex + 1)
  }

  lemma CarriesCommitted(c: Cluster, t: Term, l: Log, k: nat, to: Server, a: P.SnapshotArgs, prefix: Log)
    requires CInv(c) && SnapshotRequested(to, a, prefix) in c.net && Committed(c.g, t, l, k)
    requires forall s :: 0 <= s < |c.peers| ==> c.peers[s].commitIndex < k
    ensures Carries(l, a)
  {
    assert MessageOk(c.g, c.peers, SnapshotRequested(to, a, prefix));
    assert PeerOk(c.g, c.counted, a.leaderId, c.peers[a.leaderId]);
    CommittedAgree(c.g, t, l, k, a.term, prefix, |prefix|);
    FoldAgree(prefix, l, |prefix|);
  }

  lemma {:induction false} LongestDelivered(g: State, ds: set<Delivery>) returns (t: Term, l: Log, k: nat)
    requires forall d :: d in ds ==> DeliveryOk(g, d)
    ensures Committed(g, t, l, k)
    ensures forall d :: d in ds ==> d.msg.index < k
    decreases |ds|
  {
    if ds == {} {
      t, l, k := 0, [SENTINEL], 1;
    } else {
      var d :| d in ds;
      t, l, k := LongestDelivered(g, ds - {d});
      if k <= d.msg.index {
        t, l, k := d.term, d.log, d.msg.index + 1;
      }
    }
  }

  /** What server s has committed is committed in history. */
  ghost predicate CommittedOn(c: Cluster, s: Server) {
    && s < |c.g.logs| && s < |c.peers|
    && Committed(c.g, c.peers[s].currentTerm, c.g.logs[s], c.peers[s].commitIndex + 1)
  }

  lemma AllCommitted(c: Cluster)
    requires CInv(c)
    ensures forall d :: d in c.delivered ==> DeliveryOk(c.g, d)
    ensures forall s: nat :: s < |c.peers| ==> CommittedOn(c, s)
  {
    forall s: nat | s < |c.peers| ensures CommittedOn(c, s) {
      assert PeerOk(c.g, c.counted, s, c.peers[s]);
    }
  }

  lemma {:induction false} LongestCommitted(c: Cluster, n: nat) returns (t: Term, l: Log, k: nat)
    requires n <= |c.peers| && (forall d :: d in c.delivered ==> DeliveryOk(c.g, d))
    requires forall s: nat :: s < |c.peers| ==> CommittedOn(c, s)
    ensures Committed(c.g, t, l, k)
    ensures forall d :: d in c.delivered ==> d.msg.index < k
    ensures forall s :: 0 <= s < n ==> c.peers[s].commitIndex < k
    decreases n
  {
    if n == 0 {
      t, l, k := LongestDelivered(c.g, c.delivered);
    } else {
      t, l, k := LongestCommitted(c, n - 1);
      var p := c.peers[n - 1];
      assert CommittedOn(c, n - 1);
      if k <= p.commitIndex {
        t, l, k := p.currentTerm, c.g.logs[n - 1], p.commitIndex + 1;
      }
    }
  }

  lemma ExplainsDelivery(g: State, t: Term, l: Log, k: nat, d: Delivery)
    requires History(g) && Committed(g, t, l, k) && DeliveryOk(g, d) && d.msg.index < k
    ensures Explains(l, d)
  {
    CommittedAgree(g, t, l, k, d.term, d.log, d.msg.index + 1);
    FoldAgree(d.log, l, d.msg.index + 1);
  }

  lemma FollowsLog(c: Cluster, t: Term, l: Log, k: nat, s: Server)
    requires CInv(c) && Committed(c.g, t, l, k) && s < |c.peers| && c.peers[s].commitIndex < k
    ensures Follows(l, c.peers[s], c.apps[s])
  {
    var p, f := c.peers[s], c.g.logs[s];
    assert PeerOk(c.g, c.counted, s, p) && AppOk(c.apps[s], p, f);
    CommittedAgree(c.g, t, l, k, p.currentTerm, f, p.commitIndex + 1);
    FollowsAgree(l, f, p, c.apps[s]);
  }

  lemma FollowsAgree(l: Log, f: Log, p: P.Peer, a: App)
    requires Trimmed(p.log, f) && P.Saved(p) && AppOk(a, p, f) && p.snapshot == Fold(f, P.Base(p) + 1)
    requires P.Base(p) <= p.commitIndex && p.lastApplied <= p.commitIndex && Agree(f, l, p.commitIndex + 1)
    ensures Follows(l, p, a)
  {
    AppFollowsAgree(l, f, p, a);
    PeerFollowsAgree(l, f, p);
  }

  lemma AppFollowsAgree(l: Log, f: Log, p: P.Peer, a: App)
    requires AppOk(a, p, f) && p.lastApplied <= p.commitIndex && Agree(f, l, p.commitIndex + 1)
    ensures AppFollows(l, p, a)
  {
    StreamOkAgree(a.queue, a.at, f, l, p.lastApplied);
    FoldAgree(f, l, a.at + 1);
  }

  lemma PeerFollowsAgree(l: Log, f: Log, p: P.Peer)
    requires Trimmed(p.log, f) && P.Saved(p) && p.snapshot == Fold(f, P.Base(p) + 1)
    requires P.Base(p) <= p.commitIndex && Agree(f, l, p.commitIndex + 1)
    ensures PeerFollows(l, p)
  {
    FoldAgree(f, l, P.Base(p) + 1);
    forall x | P.Base(p) < x <= p.commitIndex ensures Holds(p, x) && EntryAt(p, x) == l[x] {
      HeldEntry(p, f, x);
    }
  }

  /**
   State machine safety and replica refinement: in every state of every run there is one log such that
   every command ever delivered on any server is its entry of that index, every snapshot ever delivered
   is its fold up to that index, every server's committed entries, persisted snapshot and store are
   those of this log, and so is every snapshot on the network, whoever built it and in whatever role.
   */
  lemma StateMachineSafety(r: seq<Cluster>, i: nat) returns (l: Log)
    requires Run(r) && i < |r|
    ensures forall d :: d in r[i].delivered ==> Explains(l, d)
    ensures |r[i].apps| == |r[i].peers|
    ensures forall s :: 0 <= s < |r[i].peers| ==> Follows(l, r[i].peers[s], r[i].apps[s])
    ensures forall to, a, prefix :: SnapshotRequested(to, a, prefix) in r[i].net ==> Carries(l, a)
  {
    RunInv(r, i);
    var c := r[i];
    var t, k;
    AllCommitted(c);
    t, l, k := LongestCommitted(c, |c.peers|);
    forall d | d in c.delivered ensures Explains(l, d) {
      ExplainsDelivery(c.g, t, l, k, d);
    }
    forall s | 0 <= s < |c.peers| ensures Follows(l, c.peers[s], c.apps[s]) {
      FollowsLog(c, t, l, k, s);
    }
    forall to, a, prefix | SnapshotRequested(to, a, prefix) in c.net ensures Carries(l, a) {
      CarriesCommitted(c, t, l, k, to, a, prefix);
    }
  }

  /** No two servers ever deliver different commands at the same index. */
  lemma SameCommands(r: seq<Cluster>, i: nat, d: Delivery, e: Delivery)
    requires Run(r) && i < |r| && d in r[i].delivered && e in r[i].delivered
    requires d.msg.CommandMsg? && e.msg.CommandMsg? && d.msg.index == e.msg.index
    ensures d.msg.command == e.msg.command
  {
    var l := StateMachineSafety(r, i);
    assert Explains(l, d) && Explains(l, e);
  }

  /** Replicas that have applied equally far have equal stores. */
  lemma SameStores(r: seq<Cluster>, i: nat, s: Server, u: Server)
    requires Run(r) && i < |r| && s < |r[i].apps| && u < |r[i].apps|
    requires r[i].apps[s].at == r[i].apps[u].at
    ensures r[i].apps[s].store == r[i].apps[u].store
  {
    var l := StateMachineSafety(r, i);
    assert Follows(l, r[i].peers[s], r[i].apps[s]) && Follows(l, r[i].peers[u], r[i].apps[u]);
  }

  /**
   Answers given to waiting Submit calls: on every server of every run, whoever is answered at all by
   the messages on the channel is answered as its own operation, at its own index, in the one log.
   */
  lemma SubmitAnswers(r: seq<Cluster>, i: nat, s: Server, waiters: map<nat, Waiter>) returns (l: Log)
    requires Run(r) && i < |r| && s < |r[i].apps|
    requires forall x :: x in waiters ==> waiters[x].ch.Empty?
    ensures forall d :: d in r[i].delivered ==> Explains(l, d)
    ensures var woken := WokenAll(waiters, r[i].apps[s]);
            woken.Keys == waiters.Keys && forall x :: x in waiters ==> Told(woken[x], l, x)
  {
    l := StateMachineSafety(r, i);
    assert Follows(l, r[i].peers[s], r[i].apps[s]);
    AnswersFromLog(waiters, r[i].apps[s], l, r[i].peers[s].lastApplied);
  }

  /** The message is no duplicate, and is what l has next after the store. */
  ghost predicate IsNext(l: Log, a: App, m: P.ApplyMsg) {
    && a.lastAppliedID < m.index < |l|
    && match m
       case CommandMsg(x, c) => l[x].command == c && a.store == Fold(l, x)
       case SnapshotMsg(x, t, data) => l[x].term == t && data == Fold(l, x + 1)
  }

  /**
   And they are answered: on every server of every run, when the next message is a command, it is the
   entry of its index in the one log, it is no duplicate, and the store is what the log leads to just
   before; so a waiter there with that operation finds its answer, and the others what Notified says.
   */
  lemma NextIsAnswered(r: seq<Cluster>, i: nat, s: Server, waiters: map<nat, Waiter>) returns (l: Log)
    requires Run(r) && i < |r| && s < |r[i].apps| && r[i].apps[s].queue != []
    ensures forall d :: d in r[i].delivered ==> Explains(l, d)
    ensures var a := r[i].apps[s]; Notified(waiters, Woken(waiters, a), a.queue[0], a.lastAppliedID, a.store)
    ensures IsNext(l, r[i].apps[s], r[i].apps[s].queue[0])
  {
    l := StateMachineSafety(r, i);
    assert Follows(l, r[i].peers[s], r[i].apps[s]);
    WokenNotified(waiters, r[i].apps[s]);
  }

  // ---------------------------------------------------------------- single steps in reachable states

  /** Within one lifetime the commit index never decreases. */
  lemma CommitIndexMonotone(r: seq<Cluster>, i: nat, s: Server)
    requires Run(r) && 0 < i < |r| && s < |r[i].peers|
    ensures |r[i - 1].peers| == |r[i].peers|
    ensures r[i - 1].peers[s].commitIndex <= r[i].peers[s].commitIndex || Restarted(r[i - 1], r[i], s)
  {
    RunStep(r, i);
  }

  /**
   The follower's bound, its own last index, never commits an entry the sender lacked: the leader's
   commit index stays within the request, and what the follower newly commits is the sender's log.
   */
  lemma CommitsWhatSenderHas(r: seq<Cluster>, i: nat, s: Server, a: P.AppendArgs, full: Log)
    requires Run(r) && 0 < i < |r| && HandleAppend(r[i - 1], r[i], s, a, full)
    ensures a.leaderCommit <= a.prevLogIndex + |a.entries| == |full| - 1
    ensures var p := r[i].peers[s];
            r[i - 1].peers[s].commitIndex < p.commitIndex ==>
              && p.commitIndex <= a.leaderCommit && P.Valid(p)
              && forall y :: P.Base(p) < y <= p.commitIndex ==> Holds(p, y) && EntryAt(p, y) == full[y]
  {
    RunStep(r, i);
    assert r[i].peers[s] == P.AppendEntry(r[i - 1].peers[s], a).0;
    SenderCommits(r[i], s, a, full);
  }

  lemma SenderCommits(c: Cluster, s: Server, a: P.AppendArgs, full: Log)
    requires CInv(c) && s < |c.peers| && AppendRequested(s, a, full) in c.net
    ensures a.leaderCommit <= a.prevLogIndex + |a.entries| == |full| - 1
    ensures var p := c.peers[s];
            && P.Valid(p)
            && forall y :: P.Base(p) < y <= p.commitIndex && y <= a.leaderCommit ==> Holds(p, y) && EntryAt(p, y) == full[y]
  {
    var g, p := c.g, c.peers[s];
    assert PeerOk(g, c.counted, s, p) && MessageOk(g, c.peers, AppendRequested(s, a, full));
    PeerValid(g, c.counted, s, p);
    CommittedAgree(g, a.term, full, a.leaderCommit + 1, p.currentTerm, g.logs[s], p.commitIndex + 1);
    forall y | P.Base(p) < y <= p.commitIndex && y <= a.leaderCommit ensures Holds(p, y) && EntryAt(p, y) == full[y] {
      HeldEntry(p, g.logs[s], y);
    }
  }

  /**
   In every reachable state every section can run: logs are contiguous with sorted terms, the base is
   not above commitIndex nor commitIndex above the last index, what the persister holds is what memory
   holds, a leader's nextIndex stays in its log, every request on the way to s is well-formed, and every
   successful answer to a leader's request of its term ends within its log.
   */
  lemma InRange(r: seq<Cluster>, i: nat, s: Server)
    requires Run(r) && i < |r| && s < |r[i].peers|
    ensures Ready(r[i], s)
    ensures var p := r[i].peers[s];
            && (forall x, y :: 0 <= x <= y < |p.log| ==> p.log[x].term <= p.log[y].term)
            && P.Base(p) <= p.commitIndex <= P.LastIndex(p)
            && p.lastApplied <= p.commitIndex
            && P.Saved(p)
            && (p.role == P.Leader ==>
                  forall x :: 0 <= x < |p.nextIndex| && x != s ==> 1 <= p.nextIndex[x] <= P.LastIndex(p) + 1)
            && (forall a, full :: AppendRequested(s, a, full) in r[i].net ==> P.ArgsOk(a))
            && (forall v: Server, a, reply :: AppendReplied(v, a, reply) in r[i].net ==> AnswerInRange(p, s, a, reply))
  {
    RunInv(r, i);
    var g, p := r[i].g, r[i].peers[s];
    assert PeerOk(g, r[i].counted, s, p) && LogOk(g, s);
    PeerValid(g, r[i].counted, s, p);
    TrimmedSorted(g, s, p);
    forall x | 0 <= x < |p.nextIndex| && x != s && p.role == P.Leader
      ensures 1 <= p.nextIndex[x] <= P.LastIndex(p) + 1 {
      assert FollowerOk(g, s, p, x);
    }
    forall a, full | AppendRequested(s, a, full) in r[i].net ensures P.ArgsOk(a) {
      assert MessageOk(g, r[i].peers, AppendRequested(s, a, full));
      RequestNumbered(g, s, a, full);
    }
    forall v: Server, a, reply | AppendReplied(v, a, reply) in r[i].net ensures AnswerInRange(p, s, a, reply) {
      assert MessageOk(g, r[i].peers, AppendReplied(v, a, reply));
      AnswerWithinLog(g, s, p, v, a, reply);
    }
  }

  /** A successful answer to server s, leading in the request's term, speaks of entries in its log. */
  ghost predicate AnswerInRange(p: P.Peer, s: Server, a: P.AppendArgs, reply: P.AppendReply)
    requires |p.log| > 0
  {
    a.leaderId == s && a.term == p.currentTerm && p.role == P.Leader && reply.success ==>
      a.prevLogIndex + |a.entries| < P.Base(p) + |p.log|
  }

  lemma AnswerWithinLog(g: State, s: Server, p: P.Peer, v: Server, a: P.AppendArgs, reply: P.AppendReply)
    requires Inv(g) && s < |g.terms| && StateOk(g, s, p) && LeaderPeerOk(g, s, p) && AppendReplyOk(g, v, a, reply)
    ensures AnswerInRange(p, s, a, reply)
  {
    if p.role == P.Leader { LeaderLog(g, s, p); }
  }

  lemma TrimmedSorted(g: State, s: Server, p: P.Peer)
    requires Inv(g) && s < |g.logs| && LogOk(g, s) && Trimmed(p.log, g.logs[s])
    ensures forall x, y :: 0 <= x <= y < |p.log| ==> p.log[x].term <= p.log[y].term
  {
    forall x, y | 0 <= x <= y < |p.log| ensures p.log[x].term <= p.log[y].term {
      TermsSorted(g, g.logs[s], P.Base(p) + x, P.Base(p) + y);
    }
  }

  lemma RequestNumbered(g: State, s: Server, a: P.AppendArgs, full: Log)
    requires Inv(g) && AppendRequestOk(g, s, a, full)
    ensures P.ArgsOk(a)
  {
    assert ElectedOk(g, a.term);
    PrefixBacked(g, full, g.elected[a.term].log);
    forall i | 0 <= i < |a.entries| ensures a.entries[i].index == a.prevLogIndex + 1 + i {
      assert BackedAt(g, full, a.prevLogIndex + 1 + i);
    }
  }

  /** The side conditions under which Cluster.Next takes its steps hold in every reachable state. */
  lemma GuardsHold(r: seq<Cluster>, i: nat, s: Server)
    requires Run(r) && i < |r| && s < |r[i].peers|
    ensures Ready(r[i], s)
    ensures P.Base(r[i].peers[s]) < |r[i].g.logs[s]|
    ensures r[i].peers[s].role == P.Leader ==>
              r[i].peers[s].currentTerm == r[i].g.terms[s] && r[i].peers[s].currentTerm in r[i].g.elected
    ensures forall a, prefix :: SnapshotRequested(s, a, prefix) in r[i].net ==> |prefix| > 0
    ensures forall v: Server, a, reply :: AppendReplied(v, a, reply) in r[i].net ==> v < |r[i].peers[s].nextIndex|
    ensures forall v: Server, a, reply :: SnapshotReplied(v, a, reply) in r[i].net ==> v < |r[i].peers[s].nextIndex|
  {
    RunInv(r, i);
    var g, p := r[i].g, r[i].peers[s];
    assert PeerOk(g, r[i].counted, s, p);
    PeerValid(g, r[i].counted, s, p);
    forall a, prefix | SnapshotRequested(s, a, prefix) in r[i].net ensures |prefix| > 0 {
      assert MessageOk(g, r[i].peers, SnapshotRequested(s, a, prefix));
    }
    forall v: Server, a, reply | AppendReplied(v, a, reply) in r[i].net ensures v < |p.nextIndex| {
      assert MessageOk(g, r[i].peers, AppendReplied(v, a, reply));
    }
    forall v: Server, a, reply | SnapshotReplied(v, a, reply) in r[i].net ensures v < |p.nextIndex| {
      assert MessageOk(g, r[i].peers, SnapshotReplied(v, a, reply));
    }
  }

  /** Indices of consecutive messages: a command follows its predecessor, a snapshot jumps forward. */
  ghost predicate GapFree(q: seq<P.ApplyMsg>, from: nat) {
    forall i :: 0 <= i < |q| ==>
      var prev := if i == 0 then from else q[i - 1].index;
      if q[i].CommandMsg? then q[i].index == prev + 1 else q[i].index > prev
  }

  lemma {:induction false} StreamGapFree(q: seq<P.ApplyMsg>, from: nat, l: Log, to: nat)
    requires StreamOk(q, from, l, to)
    ensures GapFree(q, from)
  {
    if q != [] {
      StreamGapFree(q[1..], q[0].index, l, to);
      forall i | 0 <= i < |q|
        ensures var prev := if i == 0 then from else q[i - 1].index;
                if q[i].CommandMsg? then q[i].index == prev + 1 else q[i].index > prev {
        if i > 0 { assert q[i] == q[1..][i - 1]; }
      }
    }
  }

  /**
   The apply stream is gap-free: what waits on the channel continues what the store shows, what is
   applied next continues the channel, and the reader's duplicate test drops nothing.
   */
  lemma ApplyStreamGapFree(r: seq<Cluster>, i: nat, s: Server)
    requires Run(r) && i < |r| && s < |r[i].peers| && s < |r[i].apps|
    ensures var a, p := r[i].apps[s], r[i].peers[s];
            && P.Valid(p) && p.lastApplied <= p.commitIndex <= P.LastIndex(p)
            && GapFree(a.queue + P.Apply(p).1, a.at)
            && (a.queue != [] ==> !Duplicate(a, a.queue[0].index))
  {
    RunInv(r, i);
    var g, p, a := r[i].g, r[i].peers[s], r[i].apps[s];
    assert PeerOk(g, r[i].counted, s, p) && AppOk(a, p, g.logs[s]);
    PeerValid(g, r[i].counted, s, p);
    ApplyStream(p, g.logs[s]);
    StreamJoin(a.queue, P.Apply(p).1, a.at, g.logs[s], p.lastApplied, p.commitIndex);
    StreamGapFree(a.queue + P.Apply(p).1, a.at, g.logs[s], p.commitIndex);
    if a.queue != [] { ReadOk(a, p, g.logs[s]); }
  }

  /** Back-off in reachable states: the new nextIndex is below the position that was rejected. */
  lemma BackOffBelowRejection(r: seq<Cluster>, i: nat, s: Server, v: Server, a: P.AppendArgs, reply: P.AppendReply)
    requires Run(r) && i < |r| && s < |r[i].peers| && AppendReplied(v, a, reply) in r[i].net && a.leaderId == s
    requires r[i].peers[s].role == P.Leader && a.term == r[i].peers[s].currentTerm
    requires !reply.success && reply.term <= a.term
    ensures 1 <= P.BackOff(r[i].peers[s], reply) <= a.prevLogIndex
  {
    RunInv(r, i);
    var g, p := r[i].g, r[i].peers[s];
    assert PeerOk(g, r[i].counted, s, p) && MessageOk(g, r[i].peers, AppendReplied(v, a, reply));
    LeaderLog(g, s, p);
    BackOffProgress(g, s, p, a, reply);
  }

  /** The servers known to the leader s to hold index y: itself, and those it has a match from. */
  ghost function Holders(s: Server, matchIndex: seq<int>, y: nat): set<Server> {
    {s} + set x | 0 <= x < |matchIndex| && x != s && matchIndex[x] >= y
  }

  lemma HoldersMatched(p: P.Peer, y: nat)
    requires p.me < |p.matchIndex|
    ensures P.Matched(p, y) == Holders(p.me, p.matchIndex, y) <= Servers(|p.matchIndex|)
  {
  }

  /**
   The scan from one follower's matchIndex misses nothing: on a leader, no entry of its term above the
   commit index is known to be held by a majority.
   */
  lemma NothingLeftToCommit(r: seq<Cluster>, i: nat, s: Server, y: nat)
    requires Run(r) && i < |r| && s < |r[i].peers| && r[i].peers[s].role == P.Leader
    requires r[i].peers[s].commitIndex < y && Holds(r[i].peers[s], y)
    requires EntryAt(r[i].peers[s], y).term == r[i].peers[s].currentTerm
    ensures !Majority(|r[i].peers|, Holders(s, r[i].peers[s].matchIndex, y))
  {
    RunInv(r, i);
    assert PeerOk(r[i].g, r[i].counted, s, r[i].peers[s]);
    HoldersMatched(r[i].peers[s], y);
    assert !P.Commits(r[i].peers[s], y);
  }

  /** Entry y was committed on server s, or acknowledged by it to the leader of term t. */
  ghost predicate Promised(c: Cluster, s: Server, t: Term, y: nat)
    requires s < |c.peers|
  {
    || y <= c.peers[s].commitIndex
    || (At(t, s) in c.g.acked && y < c.g.acked[At(t, s)])
  }

  /**
   Snapshot installation is safe: an entry committed on the receiver, or acknowledged by it to the
   leader of its new term, is still in its log or at or below its new base.
   */
  lemma InstallLosesNothing(r: seq<Cluster>, i: nat, s: Server, a: P.SnapshotArgs, prefix: Log, y: nat)
    requires Run(r) && 0 < i < |r| && HandleSnapshot(r[i - 1], r[i], s, a, prefix)
    requires Promised(r[i - 1], s, r[i].peers[s].currentTerm, y)
    ensures P.Valid(r[i].peers[s]) && y <= P.LastIndex(r[i].peers[s])
    ensures P.Base(r[i].peers[s]) < y && P.Base(r[i - 1].peers[s]) < y ==>
              Holds(r[i].peers[s], y) && Holds(r[i - 1].peers[s], y) &&
              EntryAt(r[i].peers[s], y) == EntryAt(r[i - 1].peers[s], y)
  {
    RunStep(r, i);
    InstallSnapshotCommit(r[i - 1].peers[s], a);
    PromisedHeld(r[i - 1], r[i], s, y);
  }

  lemma PromisedHeld(c: Cluster, d: Cluster, s: Server, y: nat)
    requires CInv(c) && CInv(d) && Grows(c.g, d.g) && s < |c.peers| && s < |d.peers|
    requires Promised(c, s, d.peers[s].currentTerm, y) && c.peers[s].commitIndex <= d.peers[s].commitIndex
    ensures P.Valid(d.peers[s]) && y <= P.LastIndex(d.peers[s])
    ensures P.Base(d.peers[s]) < y && |c.peers[s].log| > 0 && P.Base(c.peers[s]) < y ==>
              Holds(d.peers[s], y) && Holds(c.peers[s], y) && EntryAt(d.peers[s], y) == EntryAt(c.peers[s], y)
  {
    var g, h, p, q := c.g, d.g, c.peers[s], d.peers[s];
    assert PeerOk(g, c.counted, s, p) && PeerOk(h, d.counted, s, q);
    PeerValid(h, d.counted, s, q);
    if y <= p.commitIndex {
      CommittedGrows(g, h, p.currentTerm, p.currentTerm, g.logs[s], p.commitIndex + 1);
      CommittedAgree(h, p.currentTerm, g.logs[s], p.commitIndex + 1, q.currentTerm, h.logs[s], q.commitIndex + 1);
    } else {
      var k := At(q.currentTerm, s);
      assert SlotGrows(g, h, k) && TermGrows(g, h, q.currentTerm);
      AckedHeld(g, s, q.currentTerm, y);
      AckedHeld(h, s, q.currentTerm, y);
    }
    HeldEntry(p, g.logs[s], y);
    HeldEntry(q, h.logs[s], y);
  }

  lemma InstallSnapshotCommit(p: P.Peer, a: P.SnapshotArgs)
    requires P.Valid(p)
    ensures p.commitIndex <= P.InstallSnapshot(p, a).0.commitIndex
  {
  }

  /** While in term t, a server has all it acknowledged in term t. */
  lemma AckedHeld(g: State, s: Server, t: Term, y: nat)
    requires Inv(g) && s < |g.terms| && At(t, s) in g.acked && y < g.acked[At(t, s)] && g.terms[s] <= t
    ensures t in g.elected && y < |g.elected[t].log| && y < |g.logs[s]| && g.logs[s][y] == g.elected[t].log[y]
  {
    assert AckOk(g, At(t, s));
    assert KeptAt(g, t, y + 1, g.logs[s], g.terms[s]);
  }
}
