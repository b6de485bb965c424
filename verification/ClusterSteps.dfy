/**
 The cluster invariant holds initially and every step keeps it.

 A step changes one server. Its own peer and service are in order by the lemmas of the modules for
 elections, replication, leaders and snapshots; every other peer, every service, every message sent
 before, every counted vote and every past delivery stays in order because history only grows. Each
 step also leaves every commit index where it was or higher, but for the one of a server that restarts.
 The last lemma covers all fourteen kinds of step.
 */
module ClusterSteps {
  import opened RaftLog
  import opened Consensus
  import opened ConsensusSteps
  import opened Cluster
  import opened ClusterInv
  import opened ElectionSteps
  import opened ReplicationSteps
  import opened LeaderSteps
  import opened SnapshotSteps
  import P = Peer

  lemma InitInv(c: Cluster)
    requires Init(c)
    ensures CInv(c)
  {
    forall s | 0 <= s < |c.peers| ensures PeerOk(c.g, c.counted, s, c.peers[s]) && AppOk(c.apps[s], c.peers[s], c.g.logs[s]) {
      assert c.g.logs[s] == [SENTINEL];
      assert Fold([SENTINEL], 1) == map[];
    }
  }

  /** What one step of server s preserves for all the others. */
  ghost predicate Stepped(c: Cluster, c': Cluster, s: Server)
    requires s < |c.peers|
  {
    && |c'.peers| == |c.peers| && |c'.apps| == |c.apps|
    && (forall x :: 0 <= x < |c.peers| && x != s ==> c'.peers[x] == c.peers[x])
    && (forall x :: 0 <= x < |c.apps| && x != s ==> c'.apps[x] == c.apps[x])
    && StepOf(c.g, c'.g, s)
    && |c.peers[s].log| > 0 && |c'.peers[s].log| > 0
    && P.Base(c.peers[s]) <= P.Base(c'.peers[s])
    && c.counted <= c'.counted
    && (forall k :: k in c'.counted && k !in c.counted ==> k.candidate == s && CountedOk(c'.g, k))
    && (forall m :: m in c'.net && m !in c.net ==> MessageOk(c'.g, c'.peers, m))
    && (forall d :: d in c'.delivered && d !in c.delivered ==> DeliveryOk(c'.g, d))
  }

  lemma Assemble(c: Cluster, c': Cluster, s: Server)
    requires CInv(c) && s < |c.peers| && Stepped(c, c', s)
    requires PeerOk(c'.g, c'.counted, s, c'.peers[s]) && AppOk(c'.apps[s], c'.peers[s], c'.g.logs[s])
    ensures CInv(c')
  {
    forall x | 0 <= x < |c.peers| && x != s
      ensures PeerOk(c'.g, c'.counted, x, c'.peers[x]) && AppOk(c'.apps[x], c'.peers[x], c'.g.logs[x]) {
      PeerOkOther(c.g, c'.g, c.counted, c'.counted, s, x, c.peers[x]);
    }
    assert BasesGrow(c.peers, c'.peers);
    forall m | m in c'.net ensures MessageOk(c'.g, c'.peers, m) {
      if m in c.net { MessageOkGrows(c.g, c'.g, c.peers, c'.peers, m); }
    }
    forall k | k in c'.counted ensures CountedOk(c'.g, k) {
      if k in c.counted { CountedOkGrows(c.g, c'.g, k); }
    }
    forall d | d in c'.delivered ensures DeliveryOk(c'.g, d) {
      if d in c.delivered { DeliveryOkGrows(c.g, c'.g, d); }
    }
  }

  /** A step of the peer of s alone: its service keeps its place in the stream. */
  lemma PeerStep(c: Cluster, c': Cluster, s: Server, q: P.Peer)
    requires CInv(c) && s < |c.peers| && StepGood(c.g, c'.g, c'.counted, s, c.peers[s], q)
    requires c'.peers == c.peers[s := q] && c'.apps == c.apps && c'.delivered == c.delivered
    requires c.counted <= c'.counted
    requires forall k :: k in c'.counted && k !in c.counted ==> k.candidate == s && CountedOk(c'.g, k)
    requires forall m :: m in c'.net && m !in c.net ==> MessageOk(c'.g, c'.peers, m)
    ensures CInv(c') && Grows(c.g, c'.g)
    ensures forall x :: 0 <= x < |c.peers| ==> c.peers[x].commitIndex <= c'.peers[x].commitIndex
  {
    assert PeerOk(c.g, c.counted, s, c.peers[s]) && AppOk(c.apps[s], c.peers[s], c.g.logs[s]);
    AppOkAgree(c.apps[s], c.peers[s], c.g.logs[s], q, c'.g.logs[s]);
    PeerStepped(c, c', s, q);
    Assemble(c, c', s);
  }

  lemma PeerStepped(c: Cluster, c': Cluster, s: Server, q: P.Peer)
    requires s < |c.peers| == |c.g.terms| == |c.g.logs| && |c.peers[s].log| > 0
    requires StepGood(c.g, c'.g, c'.counted, s, c.peers[s], q)
    requires c'.peers == c.peers[s := q] && c'.apps == c.apps && c'.delivered == c.delivered
    requires c.counted <= c'.counted
    requires forall k :: k in c'.counted && k !in c.counted ==> k.candidate == s && CountedOk(c'.g, k)
    requires forall m :: m in c'.net && m !in c.net ==> MessageOk(c'.g, c'.peers, m)
    ensures Stepped(c, c', s)
  {
  }

  /** Every step keeps the invariant, only adds to history, and lowers no commit index but by a restart. */
  ghost predicate StepSafe(c: Cluster, c': Cluster) {
    && CInv(c')
    && Grows(c.g, c'.g)
    && |c'.peers| == |c.peers|
    && forall s :: 0 <= s < |c.peers| ==>
         c.peers[s].commitIndex <= c'.peers[s].commitIndex || Restarted(c, c', s)
  }

  lemma TimeoutSafe(c: Cluster, c': Cluster, s: Server)
    requires CInv(c) && Timeout(c, c', s)
    ensures StepSafe(c, c')
  {
    TimeoutOk(c.g, c.counted, s, c.peers[s]);
    PeerStep(c, c', s, P.Timeout(c.peers[s]).0);
  }

  lemma HandleVoteSafe(c: Cluster, c': Cluster, s: Server, a: P.VoteArgs)
    requires CInv(c) && HandleVote(c, c', s, a)
    ensures StepSafe(c, c')
  {
    assert MessageOk(c.g, c.peers, VoteRequested(a));
    RequestVoteOk(c.g, c.counted, s, c.peers[s], a);
    PeerStep(c, c', s, P.RequestVote(c.peers[s], a).0);
  }

  lemma VoteAnsweredSafe(c: Cluster, c': Cluster, s: Server, v: Server, a: P.VoteArgs, r: P.VoteReply)
    requires CInv(c) && VoteAnswered(c, c', s, v, a, r)
    ensures StepSafe(c, c')
  {
    assert MessageOk(c.g, c.peers, VoteReplied(v, a, r));
    var q := P.VoteAnswered(c.peers[s], a, r);
    if r.voteGranted {
      BallotSlot(c.g, At(a.term, v));
      VoteAnsweredOk(c.g, c.counted, s, c.peers[s], v, a, r);
      assert c'.g == AnswerState(c.g, s, c'.counted, c.peers[s], q);
      assert SlotGrows(c.g, c'.g, At(a.term, v));
      assert CountedOk(c'.g, Counted(a.term, s, v));
    } else {
      VoteRefusedOk(c.g, c.counted, s, c.peers[s], a, r);
      assert c'.g == Seen(c.g, s, q.currentTerm);
    }
    PeerStep(c, c', s, q);
  }

  lemma BallotSlot(g: State, k: Slot)
    requires Inv(g) && k in g.ballots
    ensures At(k.term, g.ballots[k].candidate) in g.stood
    ensures g.ballots[k].candidate < |g.terms| && k.term <= g.terms[g.ballots[k].candidate]
  {
    assert BallotOk(g, k) && StoodOk(g, At(k.term, g.ballots[k].candidate));
  }

  lemma VoteRefusedOk(g: State, counted: set<Counted>, s: Server, p: P.Peer, a: P.VoteArgs, r: P.VoteReply)
    requires Inv(g) && s < |g.terms| && PeerOk(g, counted, s, p) && !r.voteGranted
    ensures P.Valid(p)
    ensures var q := P.VoteAnswered(p, a, r);
            StepGood(g, Seen(g, s, q.currentTerm), counted, s, p, q) && !(q.role == P.Leader && p.role == P.Candidate)
  {
    PeerValid(g, counted, s, p);
    Unchanged(g, counted, s, p);
    StepTermOk(g, counted, s, p, r.term);
  }

  lemma SendAppendSafe(c: Cluster, c': Cluster, s: Server, to: Server)
    requires CInv(c) && SendAppend(c, c', s, to)
    ensures StepSafe(c, c')
  {
    AppendRequestSent(c.g, c.counted, s, c.peers[s], to);
    Unchanged(c.g, c.counted, s, c.peers[s]);
    assert c'.peers == c.peers[s := c.peers[s]];
    PeerStep(c, c', s, c.peers[s]);
  }

  lemma HandleAppendSafe(c: Cluster, c': Cluster, s: Server, a: P.AppendArgs, full: Log)
    requires CInv(c) && HandleAppend(c, c', s, a, full)
    ensures StepSafe(c, c')
  {
    assert MessageOk(c.g, c.peers, AppendRequested(s, a, full));
    AppendEntryOk(c.g, c.counted, s, c.peers[s], a, full);
    PeerStep(c, c', s, P.AppendEntry(c.peers[s], a).0);
  }

  lemma AppendAnsweredSafe(c: Cluster, c': Cluster, s: Server, v: Server, a: P.AppendArgs, r: P.AppendReply)
    requires CInv(c) && AppendAnswered(c, c', s, v, a, r)
    ensures StepSafe(c, c')
  {
    assert MessageOk(c.g, c.peers, AppendReplied(v, a, r));
    AppendAnsweredOk(c.g, c.counted, s, c.peers[s], v, a, r);
    PeerStep(c, c', s, P.AppendAnswered(c.peers[s], v, a, r));
  }

  lemma SendSnapshotSafe(c: Cluster, c': Cluster, s: Server, to: Server)
    requires CInv(c) && SendSnapshot(c, c', s, to)
    ensures StepSafe(c, c')
  {
    SnapshotRequestSent(c.g, c.peers, s, c.peers[s]);
    Unchanged(c.g, c.counted, s, c.peers[s]);
    assert c'.peers == c.peers[s := c.peers[s]];
    PeerStep(c, c', s, c.peers[s]);
  }

  /** The answer to a snapshot request names what its sender has compacted, as the request did. */
  lemma SnapshotReplySent(c: Cluster, c': Cluster, s: Server, q: P.Peer, a: P.SnapshotArgs, prefix: Log, r: P.SnapshotReply)
    requires s < |c.peers| && MessageOk(c.g, c.peers, SnapshotRequested(s, a, prefix)) && c'.peers == c.peers[s := q]
    ensures MessageOk(c'.g, c'.peers, SnapshotReplied(s, a, r))
  {
  }

  lemma HandleSnapshotSafe(c: Cluster, c': Cluster, s: Server, a: P.SnapshotArgs, prefix: Log)
    requires CInv(c) && HandleSnapshot(c, c', s, a, prefix)
    ensures StepSafe(c, c')
  {
    var (q, r) := P.InstallSnapshot(c.peers[s], a);
    assert MessageOk(c.g, c.peers, SnapshotRequested(s, a, prefix));
    SnapshotReplySent(c, c', s, q, a, prefix, r);
    SnapshotHandled(c.g, c.peers, c.counted, s, a, prefix);
    PeerStep(c, c', s, q);
  }

  lemma SnapshotHandled(g: State, peers: seq<P.Peer>, counted: set<Counted>, s: Server, a: P.SnapshotArgs, prefix: Log)
    requires Inv(g) && s < |g.terms| == |peers| && PeerOk(g, counted, s, peers[s]) && P.Valid(peers[s])
    requires MessageOk(g, peers, SnapshotRequested(s, a, prefix))
    ensures var (q, r) := P.InstallSnapshot(peers[s], a);
            StepGood(g, SnapshotHistory(g, s, a.term, prefix, r.success), counted, s, peers[s], q)
  {
    InstallSnapshotOk(g, counted, s, peers[s], a, prefix);
  }

  lemma SnapshotAnsweredSafe(c: Cluster, c': Cluster, s: Server, v: Server, a: P.SnapshotArgs, r: P.SnapshotReply)
    requires CInv(c) && SnapshotAnswered(c, c', s, v, a, r)
    ensures StepSafe(c, c')
  {
    assert MessageOk(c.g, c.peers, SnapshotReplied(v, a, r));
    SnapshotAnsweredOk(c.g, c.counted, s, c.peers[s], v, a, r);
    PeerStep(c, c', s, P.SnapshotAnswered(c.peers[s], v, a, r));
  }

  lemma StartSafe(c: Cluster, c': Cluster, s: Server, cmd: Command)
    requires CInv(c) && Start(c, c', s, cmd)
    ensures StepSafe(c, c')
  {
    var p := c.peers[s];
    if p.role == P.Leader {
      StartOk(c.g, c.counted, s, p, cmd);
    } else {
      Unchanged(c.g, c.counted, s, p);
    }
    PeerStep(c, c', s, P.Start(p, cmd));
  }

  lemma TakeSnapshotSafe(c: Cluster, c': Cluster, s: Server)
    requires CInv(c) && TakeSnapshot(c, c', s)
    ensures StepSafe(c, c')
  {
    var a := c.apps[s];
    assert AppOk(a, c.peers[s], c.g.logs[s]);
    SnapshotOk(c.g, c.counted, s, c.peers[s], a.lastAppliedID, a.store);
    PeerStep(c, c', s, P.Snapshot(c.peers[s], a.lastAppliedID, a.store));
  }

  /** What a round of applyLog delivers is committed. */
  lemma DeliveredOk(g: State, s: Server, p: P.Peer, msgs: seq<P.ApplyMsg>, m: P.ApplyMsg)
    requires s < |g.terms| == |g.logs| && StateOk(g, s, p) && m in msgs
    requires StreamOk(msgs, p.lastApplied, g.logs[s], p.commitIndex)
    ensures DeliveryOk(g, Delivery(s, g.terms[s], g.logs[s], m))
  {
    var i :| 0 <= i < |msgs| && m == msgs[i];
    var l := g.logs[s];
    StreamMessages(msgs, p.lastApplied, l, p.commitIndex, i);
    CommittedPart(g, p.currentTerm, l, p.commitIndex + 1, l, m.index + 1);
  }

  lemma ApplySafe(c: Cluster, c': Cluster, s: Server)
    requires CInv(c) && Apply(c, c', s)
    ensures StepSafe(c, c')
  {
    var p, l, a := c.peers[s], c.g.logs[s], c.apps[s];
    assert PeerOk(c.g, c.counted, s, p) && AppOk(a, p, l);
    ApplyHandsOver(c.g, c.counted, s, p, a);
    ApplyStepped(c, c', s);
    Assemble(c, c', s);
  }

  /** The peer that has handed over its messages, and the service that has them on its channel. */
  lemma ApplyHandsOver(g: State, counted: set<Counted>, s: Server, p: P.Peer, a: App)
    requires Inv(g) && s < |g.terms| && PeerOk(g, counted, s, p) && AppOk(a, p, g.logs[s])
    requires P.Valid(p) && p.lastApplied <= p.commitIndex <= P.LastIndex(p)
    ensures var (q, msgs) := P.Apply(p);
            PeerOk(g, counted, s, q) && AppOk(a.(queue := a.queue + msgs), q, g.logs[s])
  {
    ApplyStream(p, g.logs[s]);
    AppliedPeer(g, counted, s, p);
    StreamJoin(a.queue, P.Apply(p).1, a.at, g.logs[s], p.lastApplied, p.commitIndex);
  }

  lemma ApplyStepped(c: Cluster, c': Cluster, s: Server)
    requires CInv(c) && Apply(c, c', s)
    ensures Stepped(c, c', s)
  {
    var p, msgs := c.peers[s], P.Apply(c.peers[s]).1;
    assert PeerOk(c.g, c.counted, s, p);
    ApplyStream(p, c.g.logs[s]);
    forall d | d in c'.delivered && d !in c.delivered ensures DeliveryOk(c.g, d) {
      DeliveredOk(c.g, s, p, msgs, d.msg);
    }
    StepOfRefl(c.g, s);
  }

  lemma ReadSafe(c: Cluster, c': Cluster, s: Server)
    requires CInv(c) && Read(c, c', s)
    ensures StepSafe(c, c')
  {
    assert PeerOk(c.g, c.counted, s, c.peers[s]);
    ReadOk(c.apps[s], c.peers[s], c.g.logs[s]);
    StepOfRefl(c.g, s);
    Assemble(c, c', s);
  }

  lemma RestartSafe(c: Cluster, c': Cluster, s: Server, t: Term)
    requires CInv(c) && Restart(c, c', s, t)
    ensures StepSafe(c, c')
  {
    var g, p := Seen(c.g, s, t), P.StepTerm(c.peers[s], t);
    assert PeerOk(c.g, c.counted, s, c.peers[s]);
    StepTermOk(c.g, c.counted, s, c.peers[s], t);
    RestartOk(g, c.counted, s, p);
    Assemble(c, c', s);
  }

  lemma NextSafe(c: Cluster, c': Cluster)
    requires CInv(c) && Next(c, c')
    ensures StepSafe(c, c')
  {
    if s :| Timeout(c, c', s) { TimeoutSafe(c, c', s); }
    else if s, a :| HandleVote(c, c', s, a) { HandleVoteSafe(c, c', s, a); }
    else if s, v, a, r :| VoteAnswered(c, c', s, v, a, r) { VoteAnsweredSafe(c, c', s, v, a, r); }
    else if s, to :| SendAppend(c, c', s, to) { SendAppendSafe(c, c', s, to); }
    else if s, a, full :| HandleAppend(c, c', s, a, full) { HandleAppendSafe(c, c', s, a, full); }
    else if s, v, a, r :| AppendAnswered(c, c', s, v, a, r) { AppendAnsweredSafe(c, c', s, v, a, r); }
    else if s, to :| SendSnapshot(c, c', s, to) { SendSnapshotSafe(c, c', s, to); }
    else if s, a, prefix :| HandleSnapshot(c, c', s, a, prefix) { HandleSnapshotSafe(c, c', s, a, prefix); }
    else if s, v, a, r :| SnapshotAnswered(c, c', s, v, a, r) { SnapshotAnsweredSafe(c, c', s, v, a, r); }
    else if s, cmd :| Start(c, c', s, cmd) { StartSafe(c, c', s, cmd); }
    else if s :| TakeSnapshot(c, c', s) { TakeSnapshotSafe(c, c', s); }
    else if s :| Apply(c, c', s) { ApplySafe(c, c', s); }
    else if s :| Read(c, c', s) { ReadSafe(c, c', s); }
    else if s, t :| Restart(c, c', s, t) { RestartSafe(c, c', s, t); }
  }
}
