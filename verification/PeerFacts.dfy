/** What the peer's functions keep and mean, for the class that carries them out. */
module PeerFacts {
  import opened RaftLog
  import opened Peer

  lemma MergedValid(p: Peer, pre: nat, es: seq<Entry>)
    requires Valid(p) && pre < |p.log|
    requires forall i :: 0 <= i < |es| ==> es[i].index == p.log[0].index + pre + 1 + i
    ensures Valid(Merged(p, pre, es))
  {
    var k := MatchLen(p.log, pre + 1, es);
    if k < |es| {
      var log := p.log[..pre + 1 + k] + es[k..];
      forall i | 0 <= i < |log| ensures log[i].index == log[0].index + i {
        if i >= pre + 1 + k { assert log[i] == es[i - pre - 1]; }
      }
    }
  }

  lemma AppendedValid(p: Peer, a: AppendArgs, pre: nat, es: seq<Entry>)
    requires Valid(p) && pre < |p.log|
    requires forall i :: 0 <= i < |es| ==> es[i].index == p.log[0].index + pre + 1 + i
    ensures Valid(Appended(p, a, pre, es).0)
  {
    MergedValid(p, pre, es);
    var q := Merged(p, pre, es);
    assert q.log[..pre + 1][0] == p.log[..pre + 1][0];
  }

  /** Where a follower in the request's term merges, if it does not reject. */
  lemma AppendCases(p: Peer, a: AppendArgs) returns (ok: bool, pre: nat, es: seq<Entry>)
    requires |p.log| > 0 && p.role == Follower && p.currentTerm == a.term
    ensures ok == !Rejects(p, a)
    ensures ok ==> pre < |p.log| && AppendEntry(p, a) == Appended(p, a, pre, es)
    ensures ok && a.prevLogIndex < Base(p) ==> pre == 0 && es == Clipped(Base(p), a)
    ensures ok && a.prevLogIndex >= Base(p) ==>
              pre == a.prevLogIndex - Base(p) && es == a.entries && p.log[pre].term == a.prevLogTerm
    ensures !ok ==> AppendEntry(p, a) == (p, Rejection(p, a))
    ensures AppendEntry(p, a).1.success == ok
  {
    ok, pre, es := !Rejects(p, a), 0, a.entries;
    if a.prevLogIndex < Base(p) {
      es := Clipped(Base(p), a);
    } else if ok {
      pre := a.prevLogIndex - Base(p);
    }
  }

  /** The peer adopts the request's term and follows, then handles the request in that term. */
  lemma AppendAdopts(p: Peer, a: AppendArgs)
    requires |p.log| > 0 && p.currentTerm <= a.term
    ensures AppendEntry(p, a) == AppendEntry(StepTerm(p, a.term).(role := Follower), a)
  {
  }

  lemma InstallSnapshotValid(p: Peer, a: SnapshotArgs)
    requires Valid(p)
    ensures Valid(InstallSnapshot(p, a).0)
  {
  }

  /** The number of matching entries is where the first one does not match. */
  lemma MatchLenIs(log: seq<Entry>, at: nat, es: seq<Entry>, k: nat)
    requires k <= |es| && at + k <= |log|
    requires forall j :: 0 <= j < k ==> log[at + j].index == es[j].index && log[at + j].term == es[j].term
    requires k == |es| || at + k == |log| || log[at + k].index != es[k].index || log[at + k].term != es[k].term
    ensures MatchLen(log, at, es) == k
  {
  }

  /** The highest index that commits is unique. */
  lemma HighestIs(p: Peer, x: nat, c: nat)
    requires |p.log| > 0
    requires p.commitIndex < c <= x && Commits(p, c)
    requires forall y: nat :: c < y <= x ==> !Commits(p, y)
    ensures HighestCommit(p, x) == c
  {
  }

  lemma HighestNone(p: Peer, x: nat)
    requires |p.log| > 0
    requires forall y: nat :: p.commitIndex < y <= x ==> !Commits(p, y)
    ensures HighestCommit(p, x) == p.commitIndex
  {
  }

  /** With terms sorted, a search from the end can stop at the first smaller term. */
  lemma LastWithTermIs(log: seq<Entry>, term: int, i: int)
    requires -1 <= i < |log|
    requires i >= 0 ==> log[i].term == term
    requires forall j :: i < j < |log| ==> log[j].term != term
    ensures LastWithTerm(log, term) == i
  {
  }

  /** The servers known to hold index y: the peer itself, and those it has a match from. */
  ghost function Holding(p: Peer, y: nat): set<Server> {
    {p.me} + set x | 0 <= x < |p.matchIndex| && x != p.me && p.matchIndex[x] >= y
  }

  /** Index y is in the log, its entry of the current term, and known to be held by more than half. */
  ghost predicate HeldByMost(p: Peer, y: nat) {
    && |p.log| > 0 && p.log[0].index <= y < p.log[0].index + |p.log|
    && p.log[y - p.log[0].index].term == p.currentTerm
    && 2 * |Holding(p, y)| > |p.matchIndex|
  }

  /** c is the commit index the rule asks for, looking at indices up to x only. */
  ghost predicate CommitRule(p: Peer, x: nat, c: nat) {
    && (c == p.commitIndex || (p.commitIndex < c <= x && HeldByMost(p, c)))
    && (forall y: nat :: p.commitIndex < y <= x && HeldByMost(p, y) ==> y <= c)
  }

  lemma HeldCommits(p: Peer, y: nat)
    requires |p.log| > 0 && p.me < |p.matchIndex|
    ensures Commits(p, y) <==> HeldByMost(p, y)
  {
    assert Matched(p, y) == Holding(p, y);
  }

  lemma HighestExactly(p: Peer, x: nat)
    requires |p.log| > 0 && p.me < |p.matchIndex|
    ensures CommitRule(p, x, HighestCommit(p, x))
  {
    var c := HighestCommit(p, x);
    HeldCommits(p, c);
    forall y: nat | p.commitIndex < y <= x && HeldByMost(p, y) ensures y <= c {
      HeldCommits(p, y);
    }
  }
}
