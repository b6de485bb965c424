/** Real-time order of the replicated service: an operation started later has a later place in the log. */
module ServiceOrder {
  import P = Peer
  import opened RaftLog
  import opened Consensus
  import opened LeaderCompleteness
  import opened Cluster
  import opened ClusterInv
  import opened LeaderSteps
  import opened Safety

  ghost predicate KnownAt(g: State, t: Term, x: nat, cmd: Command) {
    t in g.elected && x < |g.elected[t].log| && g.elected[t].log[x].command == cmd
  }

  /** Some leader has had the command in its log. */
  ghost predicate Known(g: State, cmd: Command) {
    exists t: Term, x: nat :: KnownAt(g, t, x, cmd)
  }

  /** A leader's Start appends the command. */
  ghost predicate Starts(c: Cluster, c': Cluster, cmd: Command) {
    exists s: Server :: Start(c, c', s, cmd) && c.peers[s].role == P.Leader
  }

  lemma SameKnown(g: State, h: State, cmd: Command)
    requires h.elected == g.elected && Known(h, cmd)
    ensures Known(g, cmd)
  {
    var t: Term, x: nat :| KnownAt(h, t, x, cmd);
    assert KnownAt(g, t, x, cmd);
  }

  /** What a new leader brings, but for its no-op, some leader has had before. */
  lemma ElectKnown(g: State, s: Server, q: set<Server>, cmd: Command)
    requires Inv(g) && s < |g.terms| && cmd.Op? && Known(Elect(g, s, q), cmd)
    ensures Known(g, cmd)
  {
    var t: Term, x: nat :| KnownAt(Elect(g, s, q), t, x, cmd);
    var l := g.logs[s];
    assert LogOk(g, s);
    if t == g.terms[s] {
      assert l[x].command == cmd;
      assert BackedAt(g, l, x);
      assert KnownAt(g, l[x].term, x, cmd);
    } else {
      assert KnownAt(g, t, x, cmd);
    }
  }

  lemma LeadKnown(g: State, s: Server, c: Command, cmd: Command)
    requires s < |g.terms| && s < |g.logs| && g.terms[s] in g.elected && Known(Lead(g, s, c), cmd)
    requires g.logs[s] == g.elected[g.terms[s]].log
    ensures c == cmd || Known(g, cmd)
  {
    var t: Term, x: nat :| KnownAt(Lead(g, s, c), t, x, cmd);
    assert KnownAt(g, t, x, cmd) || c == cmd;
  }

  lemma AnsweredKnown(c: Cluster, c': Cluster, s: Server, v: Server, a: P.VoteArgs, r: P.VoteReply, cmd: Command)
    requires CInv(c) && VoteAnswered(c, c', s, v, a, r) && cmd.Op? && Known(c'.g, cmd)
    ensures Known(c.g, cmd)
  {
    var p := P.VoteAnswered(c.peers[s], a, r);
    if p.role == P.Leader && c.peers[s].role == P.Candidate {
      ElectKnown(c.g, s, Tally(c'.counted, |c.peers|, p.currentTerm, s), cmd);
    } else {
      SameKnown(c.g, c'.g, cmd);
    }
  }

  lemma StartKnown(c: Cluster, c': Cluster, s: Server, x: Command, cmd: Command)
    requires CInv(c) && Start(c, c', s, x) && Known(c'.g, cmd)
    ensures Known(c.g, cmd) || Starts(c, c', cmd)
  {
    if c.peers[s].role == P.Leader {
      assert PeerOk(c.g, c.counted, s, c.peers[s]);
      LeaderLog(c.g, s, c.peers[s]);
      LeadKnown(c.g, s, x, cmd);
    } else {
      SameKnown(c.g, c'.g, cmd);
    }
  }

  /** The other steps do not touch the logs of leaders. */
  ghost predicate KeepsElected(c: Cluster, c': Cluster) {
    c'.g.elected == c.g.elected
  }

  lemma VoteKeepsElected(c: Cluster, c': Cluster, s: Server, a: P.VoteArgs)
    requires HandleVote(c, c', s, a)
    ensures KeepsElected(c, c')
  {
  }

  lemma AppendKeepsElected(c: Cluster, c': Cluster, s: Server, a: P.AppendArgs, full: Log)
    requires HandleAppend(c, c', s, a, full)
    ensures KeepsElected(c, c')
  {
  }

  lemma SnapshotKeepsElected(c: Cluster, c': Cluster, s: Server, a: P.SnapshotArgs, prefix: Log)
    requires HandleSnapshot(c, c', s, a, prefix)
    ensures KeepsElected(c, c')
  {
  }

  lemma AnswerKeepsElected(c: Cluster, c': Cluster, s: Server, v: Server, a: P.AppendArgs, r: P.AppendReply)
    requires AppendAnswered(c, c', s, v, a, r)
    ensures KeepsElected(c, c')
  {
  }

  lemma NextElected(c: Cluster, c': Cluster)
    requires Next(c, c')
    ensures || KeepsElected(c, c')
            || (exists s, v, a, r :: VoteAnswered(c, c', s, v, a, r))
            || (exists s, x :: Start(c, c', s, x))
  {
    if s :| Timeout(c, c', s) { assert KeepsElected(c, c'); }
    else if s, a :| HandleVote(c, c', s, a) { VoteKeepsElected(c, c', s, a); }
    else if s, v, a, r :| VoteAnswered(c, c', s, v, a, r) { }
    else if s, to :| SendAppend(c, c', s, to) { assert KeepsElected(c, c'); }
    else if s, a, full :| HandleAppend(c, c', s, a, full) { AppendKeepsElected(c, c', s, a, full); }
    else if s, v, a, r :| AppendAnswered(c, c', s, v, a, r) { AnswerKeepsElected(c, c', s, v, a, r); }
    else if s, to :| SendSnapshot(c, c', s, to) { assert KeepsElected(c, c'); }
    else if s, a, prefix :| HandleSnapshot(c, c', s, a, prefix) { SnapshotKeepsElected(c, c', s, a, prefix); }
    else if s, v, a, r :| SnapshotAnswered(c, c', s, v, a, r) { assert KeepsElected(c, c'); }
    else if s, cmd :| Start(c, c', s, cmd) { }
    else if s :| TakeSnapshot(c, c', s) { assert KeepsElected(c, c'); }
    else if s :| Apply(c, c', s) { assert KeepsElected(c, c'); }
    else if s :| Read(c, c', s) { assert KeepsElected(c, c'); }
    else if s, t :| Restart(c, c', s, t) { assert KeepsElected(c, c'); }
  }

  /** Commands enter the logs of leaders by Start only. */
  lemma NextKnown(c: Cluster, c': Cluster, cmd: Command)
    requires CInv(c) && Next(c, c') && cmd.Op? && Known(c'.g, cmd)
    ensures Known(c.g, cmd) || Starts(c, c', cmd)
  {
    NextElected(c, c');
    if KeepsElected(c, c') {
      SameKnown(c.g, c'.g, cmd);
    } else if s, v, a, r :| VoteAnswered(c, c', s, v, a, r) {
      AnsweredKnown(c, c', s, v, a, r, cmd);
    } else {
      var s, x :| Start(c, c', s, x);
      StartKnown(c, c', s, x, cmd);
    }
  }

  ghost predicate Started(r: seq<Cluster>, j: nat, cmd: Command) {
    0 < j < |r| && Starts(r[j - 1], r[j], cmd)
  }

  lemma {:induction false} KnownWasStarted(r: seq<Cluster>, i: nat, cmd: Command)
    requires Run(r) && i < |r| && cmd.Op? && Known(r[i].g, cmd)
    ensures exists j: nat :: j <= i && Started(r, j, cmd)
  {
    if i > 0 {
      RunInv(r, i - 1);
      assert Follow(r, i);
      NextKnown(r[i - 1], r[i], cmd);
      if Known(r[i - 1].g, cmd) {
        KnownWasStarted(r, i - 1, cmd);
      } else {
        assert Started(r, i, cmd);
      }
    }
  }

  /** What was delivered up to an index, some leader has had. */
  lemma DeliveredKnown(g: State, d: Delivery, y: nat)
    requires DeliveryOk(g, d) && y <= d.msg.index && y < |d.log| && d.log[y].command.Op?
    ensures Known(g, d.log[y].command)
  {
    var k := d.msg.index + 1;
    var u: nat, m: nat :| u <= d.term && Chosen(g, u, m) && k <= m && Agree(d.log, g.elected[u].log, k);
    assert KnownAt(g, u, y, d.log[y].command);
  }

  /**
   If a command was delivered anywhere by state i, and an operation was not yet started then, that
   operation is delivered, whenever and wherever, at a greater index.
   */
  lemma LaterStartedIsLater(r: seq<Cluster>, i: nat, d: Delivery, k: nat, e: Delivery)
    requires Run(r) && i <= k < |r| && d in r[i].delivered && e in r[k].delivered
    requires d.msg.CommandMsg? && e.msg.CommandMsg? && e.msg.command.Op?
    requires forall j: nat :: j <= i ==> !Started(r, j, e.msg.command)
    ensures d.msg.index < e.msg.index
  {
    RunInv(r, i);
    RunInv(r, k);
    RunGrows(r, i, k);
    DeliveryOkGrows(r[i].g, r[k].g, d);
    CommittedAgree(r[k].g, d.term, d.log, d.msg.index + 1, e.term, e.log, e.msg.index + 1);
    if e.msg.index <= d.msg.index {
      DeliveredKnown(r[i].g, d, e.msg.index);
      KnownWasStarted(r, i, e.msg.command);
    }
  }
}
