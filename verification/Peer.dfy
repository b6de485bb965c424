/**
 The Raft peer of src/raft1/raft.go as a value, with one function per locked section. The functions
 say what a section leaves behind and answers; the class Raft carries the sections out step by step.
 The field `rf.snapshot` is never nil once a peer is made (the persister hands out a copy of a slice),
 so the tests against nil are not repeated here; an empty snapshot is the empty store.
 */
module Peer {
  import opened KvStore
  import opened RaftLog

  datatype Role = Follower | Candidate | Leader

  const NOBODY: int := -1

  /** What the persister holds. */
  datatype Persistent = Persistent(term: Term, votedFor: int, log: seq<Entry>, snapshot: Store)

  /** The persister of a peer that never saved anything. */
  const BLANK := Persistent(0, NOBODY, [], map[])

  datatype Peer = Peer(
    me: Server,
    currentTerm: Term,
    votedFor: int,
    log: seq<Entry>,
    snapshot: Store,
    commitIndex: nat,
    lastApplied: nat,
    role: Role,
    nextIndex: seq<int>,
    matchIndex: seq<int>,
    voteGrantedCount: nat,
    disk: Persistent)

  datatype VoteArgs = VoteArgs(term: Term, candidateId: Server, lastLogIndex: nat, lastLogTerm: Term)
  datatype VoteReply = VoteReply(term: Term, voteGranted: bool)

  datatype AppendArgs = AppendArgs(
    term: Term, leaderId: Server, prevLogIndex: nat, prevLogTerm: Term, entries: seq<Entry>, leaderCommit: nat)
  datatype AppendReply = AppendReply(term: Term, success: bool, xTerm: int, xIndex: int, xLen: int)

  datatype SnapshotArgs = SnapshotArgs(
    term: Term, leaderId: Server, lastIndex: nat, lastTerm: Term, data: Store)
  datatype SnapshotReply = SnapshotReply(term: Term, success: bool)

  /** What the peer delivers to the service. */
  datatype ApplyMsg =
    | CommandMsg(index: nat, command: Command)
    | SnapshotMsg(index: nat, term: Term, data: Store)

  // ---------------------------------------------------------------- well-formed peers and arguments

  /** Positions are consecutive indices, starting at the snapshot base. */
  ghost predicate Contiguous(log: seq<Entry>) {
    |log| > 0 && forall i :: 0 <= i < |log| ==> log[i].index == log[0].index + i
  }

  function Image(p: Peer): Persistent {
    Persistent(p.currentTerm, p.votedFor, p.log, p.snapshot)
  }

  /** A restart from the persister would find the term, vote, log and snapshot held in memory. */
  ghost predicate Saved(p: Peer) {
    || p.disk == Image(p)
    || (p.disk == BLANK && Image(p) == Persistent(0, NOBODY, [SENTINEL], map[]))
  }

  /** What every locked section relies on and re-establishes without help from the other peers. */
  ghost predicate Valid(p: Peer) {
    && Contiguous(p.log)
    && p.log[0].index <= p.commitIndex
    && p.me < |p.nextIndex| == |p.matchIndex|
    && Saved(p)
  }

  function Base(p: Peer): nat
    requires |p.log| > 0
  {
    p.log[0].index
  }

  function LastIndex(p: Peer): nat
    requires |p.log| > 0
  {
    p.log[|p.log| - 1].index
  }

  /** Entries are numbered from the one after prevLogIndex on: what every sender provides. */
  ghost predicate ArgsOk(a: AppendArgs) {
    forall i :: 0 <= i < |a.entries| ==> a.entries[i].index == a.prevLogIndex + 1 + i
  }

  // ---------------------------------------------------------------- parts shared by the sections

  function Save(p: Peer): Peer {
    p.(disk := Image(p))
  }

  /** checkAndMaySetTermAndStateWithLocked */
  function StepTerm(p: Peer, term: Term): Peer {
    if p.currentTerm < term
    then Save(p.(currentTerm := term, votedFor := NOBODY, role := Follower))
    else p
  }

  function Min(a: nat, b: nat): nat { if a <= b then a else b }

  function Max(a: int, b: int): int { if a >= b then a else b }

  // ---------------------------------------------------------------- RequestVote

  function RequestVote(p: Peer, a: VoteArgs): (Peer, VoteReply)
    requires |p.log| > 0
  {
    if p.currentTerm > a.term then (p, VoteReply(p.currentTerm, false))
    else
      var q := StepTerm(p, a.term);
      var last := q.log[|q.log| - 1];
      if a.lastLogTerm < last.term || (a.lastLogTerm == last.term && a.lastLogIndex < last.index) then
        (q, VoteReply(q.currentTerm, false))
      else if q.votedFor == NOBODY || q.votedFor == a.candidateId then
        (Save(q.(votedFor := a.candidateId)), VoteReply(q.currentTerm, true))
      else (q, VoteReply(q.currentTerm, false))
  }

  // ---------------------------------------------------------------- AppendEntry

  /** How many entries of `es` are already in the log from position `at` on. */
  function MatchLen(log: seq<Entry>, at: nat, es: seq<Entry>): (k: nat)
    ensures k <= |es| && (k > 0 ==> at + k <= |log|)
    ensures forall j :: 0 <= j < k ==> log[at + j].index == es[j].index && log[at + j].term == es[j].term
    ensures k < |es| && at + k < |log| ==> log[at + k].index != es[k].index || log[at + k].term != es[k].term
    decreases |es|
  {
    if es == [] || at >= |log| || log[at].index != es[0].index || log[at].term != es[0].term then 0
    else 1 + MatchLen(log, at + 1, es[1..])
  }

  /** The first position of the run of equal terms that ends in position i. */
  function RunStart(log: seq<Entry>, i: nat): (j: nat)
    requires i < |log|
    ensures j <= i
    ensures forall k :: j <= k <= i ==> log[k].term == log[i].term
    ensures j > 0 ==> log[j - 1].term != log[i].term
  {
    if i > 0 && log[i - 1].term == log[i].term then RunStart(log, i - 1) else i
  }

  /** The entries above the snapshot base, for a request that starts below it. */
  function Clipped(base: nat, a: AppendArgs): seq<Entry>
    requires a.prevLogIndex < base
  {
    var end := a.prevLogIndex + |a.entries|;
    if end > base then a.entries[|a.entries| - (end - base)..] else []
  }

  /** The log brought in line with `es` after position `pre`, truncated only at a conflict. */
  function MergedLog(log: seq<Entry>, pre: nat, es: seq<Entry>): (r: seq<Entry>)
    requires pre < |log|
    ensures |r| > pre && r[..pre + 1] == log[..pre + 1]
  {
    var k := MatchLen(log, pre + 1, es);
    if k == |es| then log else log[..pre + 1 + k] + es[k..]
  }

  function Merged(p: Peer, pre: nat, es: seq<Entry>): (q: Peer)
    requires pre < |p.log|
    ensures q.log == MergedLog(p.log, pre, es)
  {
    if MatchLen(p.log, pre + 1, es) == |es| then p else Save(p.(log := MergedLog(p.log, pre, es)))
  }

  function Appended(p: Peer, a: AppendArgs, pre: nat, es: seq<Entry>): (r: (Peer, AppendReply))
    requires pre < |p.log|
    ensures r.0.commitIndex > p.commitIndex ==> r.0.commitIndex <= a.leaderCommit
  {
    var q := Merged(p, pre, es);
    var commit := if a.leaderCommit > q.commitIndex then Min(a.leaderCommit, LastIndex(q)) else q.commitIndex;
    (q.(commitIndex := commit), AppendReply(q.currentTerm, true, 0, 0, 0))
  }

  /** The log has no entry of the request's previous index and term. */
  predicate Rejects(p: Peer, a: AppendArgs)
    requires |p.log| > 0
  {
    a.prevLogIndex >= Base(p) &&
    (a.prevLogIndex - Base(p) >= |p.log| || p.log[a.prevLogIndex - Base(p)].term != a.prevLogTerm)
  }

  /** The answer then: where the log ends, or where the conflicting term begins. */
  function Rejection(p: Peer, a: AppendArgs): AppendReply
    requires |p.log| > 0 && a.prevLogIndex >= Base(p)
  {
    var pre := a.prevLogIndex - Base(p);
    if pre >= |p.log| then AppendReply(p.currentTerm, false, -1, -1, LastIndex(p))
    else AppendReply(p.currentTerm, false, p.log[pre].term, p.log[RunStart(p.log, pre)].index, LastIndex(p))
  }

  function AppendEntry(p: Peer, a: AppendArgs): (r: (Peer, AppendReply))
    requires |p.log| > 0
    ensures r.0.commitIndex > p.commitIndex ==> r.0.commitIndex <= a.leaderCommit
  {
    if p.currentTerm > a.term then (p, AppendReply(p.currentTerm, false, 0, 0, 0))
    else
      var q := StepTerm(p, a.term).(role := Follower);
      if Rejects(q, a) then (q, Rejection(q, a))
      else if a.prevLogIndex < Base(q) then Appended(q, a, 0, Clipped(Base(q), a))
      else Appended(q, a, a.prevLogIndex - Base(q), a.entries)
  }

  // ---------------------------------------------------------------- InstallSnapshot, Snapshot

  function InstallSnapshot(p: Peer, a: SnapshotArgs): (Peer, SnapshotReply)
    requires Valid(p)
  {
    if a.term < p.currentTerm then (p, SnapshotReply(p.currentTerm, false))
    else
      var q := StepTerm(p, a.term);
      if a.lastIndex <= Base(q) then (q, SnapshotReply(p.currentTerm, false))
      else
        var log :=
          if a.lastIndex >= LastIndex(q) || q.log[a.lastIndex - Base(q)].term != a.lastTerm
          then [Entry(a.lastTerm, a.lastIndex, Nop)]
          else q.log[a.lastIndex - Base(q)..];
        var commit := if q.commitIndex >= a.lastIndex then q.commitIndex else a.lastIndex;
        (Save(q.(log := log, snapshot := a.data, commitIndex := commit)), SnapshotReply(p.currentTerm, true))
  }

  /** The service hands over its state after `index`; the log up to there is dropped. */
  function Snapshot(p: Peer, index: nat, data: Store): Peer
    requires Valid(p)
  {
    if index > p.commitIndex || index <= Base(p) || index > LastIndex(p) then p
    else Save(p.(snapshot := data, log := p.log[index - Base(p)..]))
  }

  // ---------------------------------------------------------------- elections

  function Timeout(p: Peer): (Peer, VoteArgs)
    requires |p.log| > 0
  {
    var q := Save(p.(currentTerm := p.currentTerm + 1, votedFor := p.me, role := Candidate));
    var last := q.log[|q.log| - 1];
    (q.(voteGrantedCount := 1), VoteArgs(q.currentTerm, q.me, last.index, last.term))
  }

  function BecomeLeader(p: Peer): Peer
    requires Valid(p)
  {
    var last := LastIndex(p);
    Save(p.(
      nextIndex := seq(|p.nextIndex|, i requires 0 <= i < |p.nextIndex| => if i == p.me then p.nextIndex[i] else last + 1),
      matchIndex := seq(|p.matchIndex|, i requires 0 <= i < |p.matchIndex| => if i == p.me then p.matchIndex[i] else 0),
      role := Leader,
      log := p.log + [Entry(p.currentTerm, last + 1, Nop)]))
  }

  function VoteAnswered(p: Peer, a: VoteArgs, r: VoteReply): Peer
    requires Valid(p)
  {
    if a.term != p.currentTerm || p.role != Candidate then p
    else if !r.voteGranted then StepTerm(p, r.term)
    else
      var q := p.(voteGrantedCount := p.voteGrantedCount + 1);
      if q.voteGrantedCount > |q.nextIndex| / 2 then BecomeLeader(q) else q
  }

  // ---------------------------------------------------------------- the leader

  function Start(p: Peer, c: Command): Peer
    requires |p.log| > 0
  {
    if p.role != Leader then p
    else Save(p.(log := p.log + [Entry(p.currentTerm, LastIndex(p) + 1, c)]))
  }

  /** The servers whose log is known to reach index x, the leader included. */
  function Matched(p: Peer, x: nat): set<Server> {
    set s | 0 <= s < |p.matchIndex| && (s == p.me || p.matchIndex[s] >= x)
  }

  /** Index x is in the log, of the current term, and matched by a majority. */
  predicate Commits(p: Peer, x: nat)
    requires |p.log| > 0
  {
    && Base(p) <= x
    && x - Base(p) < |p.log|
    && p.log[x - Base(p)].term == p.currentTerm
    && |Matched(p, x)| > |p.matchIndex| / 2
  }

  /** The commit rule over all indices up to x: the highest one that commits, if above commitIndex. */
  function HighestCommit(p: Peer, x: nat): (c: nat)
    requires |p.log| > 0
    ensures c == p.commitIndex || (p.commitIndex < c <= x && Commits(p, c))
    ensures forall y :: c < y <= x ==> !Commits(p, y)
  {
    if x <= p.commitIndex then p.commitIndex
    else if Commits(p, x) then x
    else HighestCommit(p, x - 1)
  }

  /** The last position with an entry of the term, or -1. */
  function LastWithTerm(log: seq<Entry>, term: int): (i: int)
    ensures -1 <= i < |log|
    ensures i >= 0 ==> log[i].term == term
    ensures forall j :: i < j < |log| ==> log[j].term != term
  {
    if log == [] then -1
    else if log[|log| - 1].term == term then |log| - 1
    else LastWithTerm(log[..|log| - 1], term)
  }

  /** Where the leader resumes after a rejection. */
  function BackOff(p: Peer, r: AppendReply): int {
    if r.xTerm == -1 then r.xLen + 1
    else
      var i := LastWithTerm(p.log, r.xTerm);
      if i == -1 then r.xIndex else p.log[i].index + 1
  }

  function AppendAnswered(p: Peer, server: Server, a: AppendArgs, r: AppendReply): Peer
    requires Valid(p) && server < |p.nextIndex|
  {
    if a.term != p.currentTerm || p.role != Leader || a.prevLogIndex + 1 < p.nextIndex[server] then p
    else if r.success then
      var last := a.prevLogIndex + |a.entries|;
      if last > p.matchIndex[server] then
        var q := p.(matchIndex := p.matchIndex[server := last], nextIndex := p.nextIndex[server := last + 1]);
        q.(commitIndex := HighestCommit(q, last))
      else p
    else if r.term > p.currentTerm then StepTerm(p, r.term)
    else p.(nextIndex := p.nextIndex[server := BackOff(p, r)])
  }

  function SnapshotAnswered(p: Peer, server: Server, a: SnapshotArgs, r: SnapshotReply): Peer
    requires Valid(p) && server < |p.nextIndex|
  {
    if a.term != p.currentTerm || p.role != Leader then p
    else if r.term > p.currentTerm then StepTerm(p, r.term)
    else if r.success then
      p.(nextIndex := p.nextIndex[server := Max(p.nextIndex[server], a.lastIndex + 1)],
         matchIndex := p.matchIndex[server := Max(p.matchIndex[server], a.lastIndex)])
    else p
  }

  /** The leader can serve this follower from its log, rather than with a snapshot. */
  predicate SendsEntries(p: Peer, server: Server)
    requires |p.log| > 0 && server < |p.nextIndex|
  {
    p.nextIndex[server] > Base(p)
  }

  /** The AppendEntry request for a follower: everything from nextIndex to the end of the log. */
  function AppendRequest(p: Peer, server: Server): AppendArgs
    requires Valid(p) && server < |p.nextIndex|
    requires SendsEntries(p, server) && p.nextIndex[server] <= LastIndex(p) + 1
  {
    var begin := p.nextIndex[server] - Base(p);
    var prev := p.log[begin - 1];
    AppendArgs(p.currentTerm, p.me, prev.index, prev.term, p.log[begin..], p.commitIndex)
  }

  function SnapshotRequest(p: Peer): SnapshotArgs
    requires |p.log| > 0
  {
    SnapshotArgs(p.currentTerm, p.me, p.log[0].index, p.log[0].term, p.snapshot)
  }

  // ---------------------------------------------------------------- applying, restarting

  /** Commands of the log from position i up to, not including, position j. */
  function Commands(log: seq<Entry>, i: nat, j: nat): seq<ApplyMsg>
    requires i <= j <= |log|
  {
    if i == j then [] else Commands(log, i, j - 1) + [CommandMsg(log[j - 1].index, log[j - 1].command)]
  }

  /** One round of applyLog: the pending snapshot, then the newly committed commands. */
  function Apply(p: Peer): (Peer, seq<ApplyMsg>)
    requires Valid(p) && p.lastApplied <= p.commitIndex <= LastIndex(p)
  {
    var pending := p.lastApplied < Base(p);
    var first := if pending then 1 else p.lastApplied - Base(p) + 1;
    (p.(lastApplied := p.commitIndex),
     (if pending then [SnapshotMsg(Base(p), p.log[0].term, p.snapshot)] else []) +
     Commands(p.log, first, p.commitIndex - Base(p) + 1))
  }

  /** Make: a peer starts from what the persister holds. */
  function Boot(me: Server, n: nat, disk: Persistent): Peer {
    var log := if disk.log == [] then [SENTINEL] else disk.log;
    Peer(me, disk.term, disk.votedFor, log, disk.snapshot, log[0].index, log[0].index, Follower,
         seq(n, i => 0), seq(n, i => 0), 0, disk)
  }
}
