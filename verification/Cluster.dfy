/**
 A cluster of Raft peers, each with its replicated service, over a network that loses, delays,
 duplicates and reorders. One step is one locked section of one peer, one message read by one service,
 or one restart.
 */
module Cluster {
  import opened KvStore
  import opened RaftLog
  import opened Consensus
  import P = Peer

  /**
   The network: whatever was ever sent. Requests carry, beside what the peer sees, history for the
   proof: the complete log of the sender, and the complete log a snapshot stands for.
   */
  datatype Message =
    | VoteRequested(va: P.VoteArgs)
    | VoteReplied(from: Server, va: P.VoteArgs, vr: P.VoteReply)
    | AppendRequested(to: Server, aa: P.AppendArgs, full: Log)
    | AppendReplied(from: Server, aa: P.AppendArgs, ar: P.AppendReply)
    | SnapshotRequested(to: Server, sa: P.SnapshotArgs, prefix: Log)
    | SnapshotReplied(from: Server, sa: P.SnapshotArgs, sr: P.SnapshotReply)

  /**
   The replicated state machine of one server: messages on the apply channel not yet read, the store,
   the reader's lastAppliedID, and (history) the index whose effect the store shows.
   */
  datatype App = App(queue: seq<P.ApplyMsg>, store: Store, lastAppliedID: nat, at: nat)

  /** A message handed to the apply channel, with (history) the server's term and complete log then. */
  datatype Delivery = Delivery(server: Server, term: Term, log: Log, msg: P.ApplyMsg)

  /** A granted vote that its Call returned: in `term`, to `candidate`, from `voter`. */
  datatype Counted = Counted(term: Term, candidate: Server, voter: Server)

  datatype Cluster = Cluster(
    peers: seq<P.Peer>,
    apps: seq<App>,
    net: set<Message>,
    counted: set<Counted>,
    delivered: set<Delivery>,
    g: State)

  ghost predicate Init(c: Cluster) {
    && |c.peers| == |c.apps| == |c.g.terms| == |c.g.logs|
    && |c.peers| > 0
    && (forall s :: 0 <= s < |c.peers| ==>
          && c.peers[s] == P.Boot(s, |c.peers|, P.BLANK)
          && c.apps[s] == App([], map[], 0, 0)
          && c.g.terms[s] == 0
          && c.g.logs[s] == [SENTINEL])
    && c.net == {} && c.counted == {} && c.delivered == {}
    && c.g.stood == map[] && c.g.ballots == map[] && c.g.elected == map[] && c.g.acked == map[]
  }

  ghost predicate Ready(c: Cluster, s: Server) {
    && |c.peers| == |c.apps| == |c.g.terms| == |c.g.logs|
    && s < |c.peers|
    && P.Valid(c.peers[s])
  }

  /** Server s took a step: its peer is now p, one message was sent, history is now g. */
  function Sent(c: Cluster, s: Server, p: P.Peer, m: Message, g: State): Cluster
    requires s < |c.peers|
  {
    c.(peers := c.peers[s := p], net := c.net + {m}, g := g)
  }

  function Silent(c: Cluster, s: Server, p: P.Peer, g: State): Cluster
    requires s < |c.peers|
  {
    c.(peers := c.peers[s := p], g := g)
  }

  /** History of a server that saw term t. */
  function Seen(g: State, s: Server, t: Term): State
    requires s < |g.terms|
  {
    if g.terms[s] < t then Advance(g, s, t) else g
  }

  // ---------------------------------------------------------------- steps

  ghost predicate Timeout(c: Cluster, c': Cluster, s: Server) {
    && Ready(c, s)
    && c.peers[s].role != P.Leader
    && var (p, a) := P.Timeout(c.peers[s]);
       c' == Sent(c, s, p, VoteRequested(a), Stand(c.g, s))
  }

  function CastIfNew(g: State, s: Server, c: Server): State
    requires s < |g.terms| && s < |g.logs|
  {
    if At(g.terms[s], s) in g.ballots then g else Cast(g, s, c)
  }

  function VoteHistory(g: State, s: Server, a: P.VoteArgs, granted: bool): State
    requires s < |g.terms| && s < |g.logs|
  {
    var h := Seen(g, s, a.term);
    if granted then CastIfNew(h, s, a.candidateId) else h
  }

  ghost predicate HandleVote(c: Cluster, c': Cluster, s: Server, a: P.VoteArgs) {
    && Ready(c, s)
    && VoteRequested(a) in c.net
    && a.candidateId != s
    && var (p, r) := P.RequestVote(c.peers[s], a);
       c' == Sent(c, s, p, VoteReplied(s, a, r), VoteHistory(c.g, s, a, r.voteGranted))
  }

  /** The voters counted for s in term t, itself included. */
  ghost function Tally(counted: set<Counted>, n: nat, t: Term, s: Server): set<Server> {
    set v | 0 <= v < n && (v == s || Counted(t, s, v) in counted)
  }

  ghost function AnswerHistory(c: Cluster, s: Server, p: P.Peer, counted: set<Counted>): State
    requires s < |c.peers| && s < |c.g.terms| && s < |c.g.logs|
  {
    if p.role == P.Leader && c.peers[s].role == P.Candidate
    then Elect(c.g, s, Tally(counted, |c.peers|, p.currentTerm, s))
    else Seen(c.g, s, p.currentTerm)
  }

  /** A vote call returns, once; further replies to the same call are not seen. */
  ghost predicate VoteAnswered(c: Cluster, c': Cluster, s: Server, v: Server, a: P.VoteArgs, r: P.VoteReply) {
    && Ready(c, s)
    && VoteReplied(v, a, r) in c.net
    && a.candidateId == s
    && Counted(a.term, s, v) !in c.counted
    && var p := P.VoteAnswered(c.peers[s], a, r);
       var counted := if r.voteGranted then c.counted + {Counted(a.term, s, v)} else c.counted;
       c' == Silent(c, s, p, AnswerHistory(c, s, p, counted)).(counted := counted)
  }

  ghost predicate SendAppend(c: Cluster, c': Cluster, s: Server, to: Server) {
    && Ready(c, s)
    && to < |c.peers[s].nextIndex| && to != s
    && var p := c.peers[s];
       && p.role == P.Leader
       && P.SendsEntries(p, to)
       && p.nextIndex[to] <= P.LastIndex(p) + 1
       && c' == c.(net := c.net + {AppendRequested(to, P.AppendRequest(p, to), c.g.logs[s])})
  }

  ghost function AppendHistory(g: State, s: Server, t: Term, full: Log, success: bool): State
    requires s < |g.terms| && s < |g.logs|
  {
    if success then Accept(Seen(g, s, t), s, full) else Seen(g, s, t)
  }

  ghost predicate HandleAppend(c: Cluster, c': Cluster, s: Server, a: P.AppendArgs, full: Log) {
    && Ready(c, s)
    && AppendRequested(s, a, full) in c.net
    && var (p, r) := P.AppendEntry(c.peers[s], a);
       c' == Sent(c, s, p, AppendReplied(s, a, r), AppendHistory(c.g, s, a.term, full, r.success))
  }

  ghost predicate AppendAnswered(c: Cluster, c': Cluster, s: Server, v: Server, a: P.AppendArgs, r: P.AppendReply) {
    && Ready(c, s)
    && AppendReplied(v, a, r) in c.net
    && a.leaderId == s
    && v < |c.peers[s].nextIndex|
    && var p := P.AppendAnswered(c.peers[s], v, a, r);
       c' == Silent(c, s, p, Seen(c.g, s, p.currentTerm))
  }

  /** A snapshot request is built some time after the leader decided to send one: in any role. */
  ghost predicate SendSnapshot(c: Cluster, c': Cluster, s: Server, to: Server) {
    && Ready(c, s)
    && to != s
    && var p := c.peers[s];
       && P.Base(p) < |c.g.logs[s]|
       && c' == c.(net := c.net + {SnapshotRequested(to, P.SnapshotRequest(p), c.g.logs[s][..P.Base(p) + 1])})
  }

  function SnapshotHistory(g: State, s: Server, t: Term, prefix: Log, success: bool): State
    requires s < |g.terms| && s < |g.logs| && |prefix| > 0
  {
    if success then Install(Seen(g, s, t), s, prefix) else Seen(g, s, t)
  }

  ghost predicate HandleSnapshot(c: Cluster, c': Cluster, s: Server, a: P.SnapshotArgs, prefix: Log) {
    && Ready(c, s)
    && SnapshotRequested(s, a, prefix) in c.net
    && |prefix| > 0
    && var (p, r) := P.InstallSnapshot(c.peers[s], a);
       c' == Sent(c, s, p, SnapshotReplied(s, a, r), SnapshotHistory(c.g, s, a.term, prefix, r.success))
  }

  ghost predicate SnapshotAnswered(c: Cluster, c': Cluster, s: Server, v: Server, a: P.SnapshotArgs, r: P.SnapshotReply) {
    && Ready(c, s)
    && SnapshotReplied(v, a, r) in c.net
    && a.leaderId == s
    && v < |c.peers[s].nextIndex|
    && var p := P.SnapshotAnswered(c.peers[s], v, a, r);
       c' == Silent(c, s, p, Seen(c.g, s, p.currentTerm))
  }

  ghost predicate Start(c: Cluster, c': Cluster, s: Server, cmd: Command) {
    && Ready(c, s)
    && var p := c.peers[s];
       && (p.role == P.Leader ==> p.currentTerm == c.g.terms[s] && p.currentTerm in c.g.elected)
       && c' == Silent(c, s, P.Start(p, cmd), if p.role == P.Leader then Lead(c.g, s, cmd) else c.g)
  }

  /** The snapshot thread of the service hands its store to the peer. */
  ghost predicate TakeSnapshot(c: Cluster, c': Cluster, s: Server) {
    && Ready(c, s)
    && c' == Silent(c, s, P.Snapshot(c.peers[s], c.apps[s].lastAppliedID, c.apps[s].store), c.g)
  }

  ghost predicate Apply(c: Cluster, c': Cluster, s: Server) {
    && Ready(c, s)
    && c.peers[s].lastApplied <= c.peers[s].commitIndex <= P.LastIndex(c.peers[s])
    && var (p, msgs) := P.Apply(c.peers[s]);
       c' == c.(peers := c.peers[s := p],
                apps := c.apps[s := c.apps[s].(queue := c.apps[s].queue + msgs)],
                delivered := c.delivered + set m | m in msgs :: Delivery(s, c.g.terms[s], c.g.logs[s], m))
  }

  /** The reader's duplicate test. */
  predicate Duplicate(a: App, index: nat) {
    a.lastAppliedID >= index
  }

  /** RSM.reader: one message off the apply channel. */
  function ReadOne(a: App): App
    requires a.queue != []
  {
    var rest := a.(queue := a.queue[1..]);
    match a.queue[0]
    case CommandMsg(index, command) =>
      var store :=
        if command.Op? && !Duplicate(a, index) then Execute(a.store, command.req) else a.store;
      rest.(store := store, lastAppliedID := if index >= a.lastAppliedID then index else a.lastAppliedID,
            at := index)
    case SnapshotMsg(index, _, data) =>
      if Duplicate(a, index) then rest
      else rest.(store := data, lastAppliedID := index, at := index)
  }

  ghost predicate Read(c: Cluster, c': Cluster, s: Server) {
    && s < |c.apps|
    && c.apps[s].queue != []
    && c' == c.(apps := c.apps[s := ReadOne(c.apps[s])])
  }

  /** A request of term t on its way to server s. */
  predicate Asks(m: Message, s: Server, t: Term) {
    match m
    case VoteRequested(a) => a.term == t
    case AppendRequested(to, a, _) => to == s && a.term == t
    case SnapshotRequested(to, a, _) => to == s && a.term == t
    case _ => false
  }

  /**
   The server crashes and comes back with what its persister held; the service restores from it. The
   crash falls between two sections, or inside the section of a request whose greater term t had been
   adopted and persisted already; a section persists nothing after that but its final state.
   */
  ghost predicate Restart(c: Cluster, c': Cluster, s: Server, t: Term) {
    && Ready(c, s)
    && (t <= c.peers[s].currentTerm || exists m :: m in c.net && Asks(m, s, t))
    && var p := P.Boot(s, |c.peers|, P.StepTerm(c.peers[s], t).disk);
       c' == c.(peers := c.peers[s := p], apps := c.apps[s := App([], p.snapshot, 0, p.commitIndex)], g := Seen(c.g, s, t))
  }

  ghost predicate Restarted(c: Cluster, c': Cluster, s: Server) {
    exists t :: Restart(c, c', s, t)
  }

  ghost predicate Next(c: Cluster, c': Cluster) {
    || (exists s :: Timeout(c, c', s))
    || (exists s, a :: HandleVote(c, c', s, a))
    || (exists s, v, a, r :: VoteAnswered(c, c', s, v, a, r))
    || (exists s, to :: SendAppend(c, c', s, to))
    || (exists s, a, full :: HandleAppend(c, c', s, a, full))
    || (exists s, v, a, r :: AppendAnswered(c, c', s, v, a, r))
    || (exists s, to :: SendSnapshot(c, c', s, to))
    || (exists s, a, prefix :: HandleSnapshot(c, c', s, a, prefix))
    || (exists s, v, a, r :: SnapshotAnswered(c, c', s, v, a, r))
    || (exists s, cmd :: Start(c, c', s, cmd))
    || (exists s :: TakeSnapshot(c, c', s))
    || (exists s :: Apply(c, c', s))
    || (exists s :: Read(c, c', s))
    || (exists s, t :: Restart(c, c', s, t))
  }
}
