/** The Raft peer of src/raft1/raft.go, one method per locked section, updated in place. */
module RaftPeer {
  import opened KvStore
  import opened RaftLog
  import opened PeerFacts
  import P = Peer

  class Raft {
    const me: Server
    var currentTerm: Term
    var votedFor: int
    var log: seq<Entry>
    var snapshot: Store
    var commitIndex: nat
    var lastApplied: nat
    var role: P.Role
    const nextIndex: array<int>
    const matchIndex: array<int>
    var voteGrantedCount: nat
    var disk: P.Persistent

    function State(): P.Peer
      reads this, nextIndex, matchIndex
    {
      P.Peer(me, currentTerm, votedFor, log, snapshot, commitIndex, lastApplied, role,
             nextIndex[..], matchIndex[..], voteGrantedCount, disk)
    }

    ghost predicate Valid()
      reads this, nextIndex, matchIndex
    {
      nextIndex != matchIndex && P.Valid(State())
    }

    constructor Make(me: Server, n: nat, disk: P.Persistent)
      requires me < n
      requires disk.log == [] ==> disk == P.BLANK
      requires disk.log != [] ==> P.Contiguous(disk.log)
      ensures Valid() && State() == P.Boot(me, n, disk)
      ensures fresh(nextIndex) && fresh(matchIndex)
    {
      this.me := me;
      currentTerm, votedFor, log, snapshot := disk.term, disk.votedFor, disk.log, disk.snapshot;
      commitIndex, lastApplied, role, voteGrantedCount := 0, 0, P.Follower, 0;
      nextIndex := new int[n](i => 0);
      matchIndex := new int[n](i => 0);
      this.disk := disk;
      new;
      if |log| == 0 {
        log := [SENTINEL];
      } else {
        lastApplied := log[0].index;
        commitIndex := log[0].index;
      }
      assert nextIndex[..] == seq(n, i => 0) && matchIndex[..] == seq(n, i => 0);
    }

    method Persist()
      modifies `disk
      ensures State() == P.Save(old(State()))
    {
      disk := P.Persistent(currentTerm, votedFor, log, snapshot);
    }

    method CheckAndMaySetTermAndState(term: Term)
      requires Valid()
      modifies this
      ensures Valid() && State() == P.StepTerm(old(State()), term)
    {
      if currentTerm < term {
        currentTerm := term;
        votedFor := P.NOBODY;
        role := P.Follower;
        Persist();
      }
    }

    method RequestVote(args: P.VoteArgs) returns (reply: P.VoteReply)
      requires Valid()
      modifies this
      ensures Valid() && (State(), reply) == P.RequestVote(old(State()), args)
    {
      if currentTerm > args.term {
        return P.VoteReply(currentTerm, false);
      }
      if args.term > currentTerm {
        CheckAndMaySetTermAndState(args.term);
      }
      var last := log[|log| - 1];
      if args.lastLogTerm < last.term || (args.lastLogTerm == last.term && args.lastLogIndex < last.index) {
        return P.VoteReply(currentTerm, false);
      }
      if votedFor == P.NOBODY || votedFor == args.candidateId {
        votedFor := args.candidateId;
        reply := P.VoteReply(currentTerm, true);
        Persist();
        return;
      }
      reply := P.VoteReply(currentTerm, false);
    }

    /** The backward scan for the first entry of the conflicting term. */
    method FirstOfTerm(pre: nat) returns (index: nat)
      requires Valid() && pre < |log|
      ensures index == log[P.RunStart(log, pre)].index
    {
      index := log[0].index;
      var i: int := pre;
      while i >= 0
        invariant -1 <= i <= pre
        invariant forall k :: i < k <= pre ==> log[k].term == log[pre].term
        invariant index == log[0].index
      {
        if log[i].term != log[pre].term {
          index := log[i + 1].index;
          break;
        }
        i := i - 1;
      }
    }

    /** The loop that skips the entries already in the log. */
    method SkipMatching(pre: nat, entries: seq<Entry>) returns (matched: nat)
      requires Valid() && pre < |log|
      ensures matched == P.MatchLen(log, pre + 1, entries)
    {
      var cur := pre + 1;
      matched := 0;
      while matched < |entries| && cur < |log|
        invariant matched <= |entries| && cur == pre + 1 + matched <= |log|
        invariant forall j :: 0 <= j < matched ==>
                    log[pre + 1 + j].index == entries[j].index && log[pre + 1 + j].term == entries[j].term
      {
        var entry := entries[matched];
        if log[cur].index != entry.index || log[cur].term != entry.term {
          break;
        }
        cur := cur + 1;
        matched := matched + 1;
      }
      MatchLenIs(log, pre + 1, entries, matched);
    }

    /** Skip what is already there, truncate at a conflict, append the rest. */
    method Merge(pre: nat, entries: seq<Entry>)
      requires Valid() && pre < |log|
      requires forall i :: 0 <= i < |entries| ==> entries[i].index == log[0].index + pre + 1 + i
      modifies `log, `disk
      ensures Valid() && State() == P.Merged(old(State()), pre, entries)
    {
      MergedValid(State(), pre, entries);
      var matched := SkipMatching(pre, entries);
      if matched < |entries| {
        ReplaceFrom(pre + 1 + matched, entries[matched..]);
      }
    }

    /** Truncate at a position and append. */
    method ReplaceFrom(keep: nat, rest: seq<Entry>)
      requires keep <= |log|
      modifies `log, `disk
      ensures State() == P.Save(old(State()).(log := old(log)[..keep] + rest))
    {
      if keep < |log| {
        log := log[..keep];
      }
      assert log == old(log)[..keep];
      log := log + rest;
      Persist();
    }

    /** The part of a request above the snapshot base. */
    method Clip(args: P.AppendArgs) returns (pre: nat, entries: seq<Entry>)
      requires Valid() && P.ArgsOk(args) && args.prevLogIndex < log[0].index
      ensures pre == 0 && entries == P.Clipped(log[0].index, args)
      ensures forall i :: 0 <= i < |entries| ==> entries[i].index == log[0].index + 1 + i
    {
      pre, entries := 0, [];
      var base, end := log[0].index, args.prevLogIndex + |args.entries|;
      if end > base {
        var left := end - base;
        entries := args.entries[|args.entries| - left..];
        assert entries[0].index == base + 1;
        pre := entries[0].index - base - 1;
      }
    }

    /** Find the place where the request attaches to the log, or the answer that rejects it. */
    method Locate(args: P.AppendArgs) returns (ok: bool, pre: nat, entries: seq<Entry>, reply: P.AppendReply)
      requires Valid() && P.ArgsOk(args) && currentTerm == args.term && role == P.Follower
      ensures ok ==> pre < |log|
      ensures ok ==> forall i :: 0 <= i < |entries| ==> entries[i].index == log[0].index + pre + 1 + i
      ensures ok && args.prevLogIndex < log[0].index ==> pre == 0 && entries == P.Clipped(log[0].index, args)
      ensures ok && args.prevLogIndex >= log[0].index ==>
                pre == args.prevLogIndex - log[0].index && entries == args.entries && log[pre].term == args.prevLogTerm
      ensures !ok ==> args.prevLogIndex >= log[0].index && P.Rejection(State(), args) == reply
      ensures !ok ==> P.Rejects(State(), args)
    {
      ok, pre, entries := true, 0, args.entries;
      reply := P.AppendReply(currentTerm, true, 0, 0, 0);
      var base := log[0].index;
      if args.prevLogIndex < base {
        pre, entries := Clip(args);
      } else {
        pre := args.prevLogIndex - base;
        if pre >= |log| {
          ok, reply := false, P.AppendReply(currentTerm, false, -1, -1, log[|log| - 1].index);
        } else if log[pre].term != args.prevLogTerm {
          var first := FirstOfTerm(pre);
          ok, reply := false, P.AppendReply(currentTerm, false, log[pre].term, first, log[|log| - 1].index);
        }
      }
    }

    /** AppendEntry once the term is settled. */
    method Reconcile(args: P.AppendArgs) returns (reply: P.AppendReply)
      requires Valid() && P.ArgsOk(args) && currentTerm == args.term && role == P.Follower
      modifies `log, `disk, `commitIndex
      ensures Valid() && (State(), reply) == P.AppendEntry(old(State()), args)
    {
      ghost var p := State();
      ghost var fits, at, es := AppendCases(p, args);
      var ok, pre, entries;
      ok, pre, entries, reply := Locate(args);
      if ok {
        assert fits && at == pre && es == entries;
        reply := MergeAndCommit(args, pre, entries);
      }
    }

    method MergeAndCommit(args: P.AppendArgs, pre: nat, entries: seq<Entry>) returns (reply: P.AppendReply)
      requires Valid() && pre < |log|
      requires forall i :: 0 <= i < |entries| ==> entries[i].index == log[0].index + pre + 1 + i
      modifies `log, `disk, `commitIndex
      ensures Valid() && (State(), reply) == P.Appended(old(State()), args, pre, entries)
    {
      AppendedValid(State(), args, pre, entries);
      Merge(pre, entries);
      AdvanceCommit(args.leaderCommit);
      reply := P.AppendReply(currentTerm, true, 0, 0, 0);
    }

    method AdvanceCommit(leaderCommit: nat)
      requires |log| > 0
      modifies `commitIndex
      ensures commitIndex == if leaderCommit > old(commitIndex)
                             then P.Min(leaderCommit, P.LastIndex(old(State()))) else old(commitIndex)
    {
      if leaderCommit > commitIndex {
        commitIndex := P.Min(leaderCommit, log[|log| - 1].index);
      }
    }

    method AppendEntry(args: P.AppendArgs) returns (reply: P.AppendReply)
      requires Valid() && P.ArgsOk(args)
      modifies this
      ensures Valid() && (State(), reply) == P.AppendEntry(old(State()), args)
    {
      if currentTerm > args.term {
        return P.AppendReply(currentTerm, false, 0, 0, 0);
      }
      AppendAdopts(State(), args);
      CheckAndMaySetTermAndState(args.term);
      role := P.Follower;
      reply := Reconcile(args);
    }

    method InstallSnapshot(args: P.SnapshotArgs) returns (reply: P.SnapshotReply)
      requires Valid()
      modifies this
      ensures Valid() && (State(), reply) == P.InstallSnapshot(old(State()), args)
    {
      InstallSnapshotValid(State(), args);
      reply := P.SnapshotReply(currentTerm, true);
      if args.term < currentTerm {
        return reply.(success := false);
      }
      CheckAndMaySetTermAndState(args.term);
      if args.lastIndex <= log[0].index {
        return reply.(success := false);
      }
      var i := args.lastIndex - log[0].index;
      if args.lastIndex >= log[|log| - 1].index || log[i].term != args.lastTerm {
        log := [Entry(args.lastTerm, args.lastIndex, Nop)];
      } else {
        log := log[i..];
      }
      commitIndex := if commitIndex >= log[0].index then commitIndex else log[0].index;
      snapshot := args.data;
      Persist();
    }

    method Snapshot(index: nat, data: Store)
      requires Valid()
      modifies this
      ensures Valid() && State() == P.Snapshot(old(State()), index, data)
    {
      if index > commitIndex {
        return;
      }
      if index <= log[0].index || index > log[|log| - 1].index {
        return;
      }
      snapshot := data;
      log := log[index - log[0].index..];
      Persist();
    }

    method Start(command: Command) returns (index: nat, term: Term, isLeader: bool)
      requires Valid()
      modifies this
      ensures Valid() && State() == P.Start(old(State()), command)
      ensures isLeader == (old(role) == P.Leader)
      ensures isLeader ==> term == currentTerm && index == old(P.LastIndex(State())) + 1
                           && log == old(log) + [Entry(term, index, command)]
    {
      if role != P.Leader {
        return 0, 0, false;
      }
      var last := log[|log| - 1].index;
      log := log + [Entry(currentTerm, last + 1, command)];
      Persist();
      return last + 1, currentTerm, true;
    }

    /** The part of the ticker that runs when the election timeout has passed. */
    method Timeout() returns (args: P.VoteArgs)
      requires Valid() && role != P.Leader
      modifies this
      ensures Valid() && (State(), args) == P.Timeout(old(State()))
    {
      currentTerm := currentTerm + 1;
      votedFor := me;
      role := P.Candidate;
      Persist();
      var last := log[|log| - 1];
      args := P.VoteArgs(currentTerm, me, last.index, last.term);
      voteGrantedCount := 1;
    }

    method BecomeLeader()
      requires Valid() && role == P.Candidate
      modifies this, nextIndex, matchIndex
      ensures Valid() && State() == P.BecomeLeader(old(State()))
    {
      var last := log[|log| - 1].index;
      var server := 0;
      while server < nextIndex.Length
        invariant server <= nextIndex.Length == matchIndex.Length
        invariant forall i :: 0 <= i < server && i != me ==> nextIndex[i] == last + 1 && matchIndex[i] == 0
        invariant forall i :: 0 <= i < nextIndex.Length && (i >= server || i == me) ==>
                    nextIndex[i] == old(nextIndex[i]) && matchIndex[i] == old(matchIndex[i])
        invariant State() == old(State()).(nextIndex := nextIndex[..], matchIndex := matchIndex[..])
      {
        if server != me {
          nextIndex[server] := last + 1;
          matchIndex[server] := 0;
        }
        server := server + 1;
      }
      role := P.Leader;
      log := log + [Entry(currentTerm, log[|log| - 1].index + 1, Nop)];
      Persist();
      assert nextIndex[..] == P.BecomeLeader(old(State())).nextIndex;
      assert matchIndex[..] == P.BecomeLeader(old(State())).matchIndex;
    }

    method VoteAnswered(args: P.VoteArgs, reply: P.VoteReply)
      requires Valid()
      modifies this, nextIndex, matchIndex
      ensures Valid() && State() == P.VoteAnswered(old(State()), args, reply)
    {
      if args.term != currentTerm || role != P.Candidate {
        return;
      }
      if reply.voteGranted {
        voteGrantedCount := voteGrantedCount + 1;
        if voteGrantedCount > nextIndex.Length / 2 {
          BecomeLeader();
        }
      } else {
        CheckAndMaySetTermAndState(reply.term);
      }
    }

    /** How many peers are known to hold index x, this one included. */
    method CountMatches(x: nat) returns (count: nat)
      requires Valid()
      ensures count == |P.Matched(State(), x)|
    {
      count := 1;
      ghost var seen: set<Server> := {me};
      var peer := 0;
      while peer < matchIndex.Length
        invariant peer <= matchIndex.Length
        invariant seen == set s | 0 <= s < matchIndex.Length && (s == me || (s < peer && matchIndex[s] >= x))
        invariant count == |seen|
      {
        if peer != me && matchIndex[peer] >= x {
          count := count + 1;
          seen := seen + {peer};
        }
        peer := peer + 1;
      }
      assert seen == P.Matched(State(), x);
    }

    /** The downward scan from one index; it finds what the commit rule over all indices would. */
    method UpdateCommitIndex(logIndex: nat)
      requires Valid() && logIndex < log[0].index + |log|
      modifies `commitIndex
      ensures Valid() && State() == old(State()).(commitIndex := P.HighestCommit(old(State()), logIndex))
      ensures CommitRule(old(State()), logIndex, commitIndex)
    {
      ghost var p := State();
      HighestExactly(p, logIndex);
      var i := logIndex - log[0].index;
      while i >= 0
        invariant i < |log| && State() == p
        invariant forall y: nat :: log[0].index + i < y <= logIndex && commitIndex < y ==> !P.Commits(p, y)
        decreases i
      {
        if log[i].term == currentTerm {
          var count := CountMatches(log[i].index);
          if count > matchIndex.Length / 2 && log[i].index > commitIndex {
            HighestIs(p, logIndex, log[i].index);
            commitIndex := log[i].index;
            return;
          }
        }
        i := i - 1;
      }
      HighestNone(p, logIndex);
    }

    /** The search for the last entry of a term, left early at the first smaller term. */
    method GetLastConflictTerm(term: int) returns (i: int)
      requires Valid()
      requires forall x, y :: 0 <= x <= y < |log| ==> log[x].term <= log[y].term
      ensures i == P.LastWithTerm(log, term)
    {
      i := |log| - 1;
      while i >= 0
        invariant -1 <= i < |log|
        invariant forall j :: i < j < |log| ==> log[j].term != term
      {
        if log[i].term == term {
          LastWithTermIs(log, term, i);
          return;
        }
        if log[i].term < term {
          LastWithTermIs(log, term, -1);
          return -1;
        }
        i := i - 1;
      }
      LastWithTermIs(log, term, -1);
    }

    method AppendAnswered(server: Server, args: P.AppendArgs, reply: P.AppendReply)
      requires Valid() && server < nextIndex.Length
      requires forall x, y :: 0 <= x <= y < |log| ==> log[x].term <= log[y].term
      requires args.term == currentTerm && role == P.Leader && reply.success ==>
                 args.prevLogIndex + |args.entries| < log[0].index + |log|
      modifies this, nextIndex, matchIndex
      ensures Valid() && State() == P.AppendAnswered(old(State()), server, args, reply)
    {
      if args.term != currentTerm || role != P.Leader || args.prevLogIndex + 1 < nextIndex[server] {
        return;
      }
      if reply.success {
        var last := args.prevLogIndex + |args.entries|;
        if last > matchIndex[server] {
          matchIndex[server] := last;
          nextIndex[server] := last + 1;
          UpdateCommitIndex(last);
        }
      } else if reply.term > currentTerm {
        CheckAndMaySetTermAndState(reply.term);
      } else if reply.xTerm == -1 {
        nextIndex[server] := reply.xLen + 1;
      } else {
        var conflict := GetLastConflictTerm(reply.xTerm);
        if conflict == -1 {
          nextIndex[server] := reply.xIndex;
        } else {
          nextIndex[server] := log[conflict].index + 1;
        }
      }
    }

    method SnapshotAnswered(server: Server, args: P.SnapshotArgs, reply: P.SnapshotReply)
      requires Valid() && server < nextIndex.Length
      modifies this, nextIndex, matchIndex
      ensures Valid() && State() == P.SnapshotAnswered(old(State()), server, args, reply)
    {
      if args.term != currentTerm || role != P.Leader {
        return;
      }
      if reply.term > currentTerm {
        CheckAndMaySetTermAndState(reply.term);
      } else if reply.success {
        nextIndex[server] := P.Max(nextIndex[server], args.lastIndex + 1);
        matchIndex[server] := P.Max(matchIndex[server], args.lastIndex);
      }
    }

    /** Follower x is due for a request in this round. */
    ghost predicate Due(x: int, force: bool, recent: seq<bool>)
      reads this, nextIndex
      requires |recent| == nextIndex.Length && |log| > 0
    {
      0 <= x < nextIndex.Length && x != me && (force || nextIndex[x] + 2 <= log[|log| - 1].index || !recent[x])
    }

    /**
     One round of sending. `recent` says for which followers the last request is younger than 100 ms.
     A follower whose entries are trimmed away gets a snapshot instead, built later.
     */
    method SendHeartbeat(force: bool, recent: seq<bool>)
      returns (requests: map<Server, P.AppendArgs>, snapshots: set<Server>)
      requires Valid() && role == P.Leader && |recent| == nextIndex.Length
      requires forall x :: 0 <= x < nextIndex.Length && x != me ==> nextIndex[x] <= log[|log| - 1].index + 1
      ensures forall x :: Due(x, force, recent) && nextIndex[x] > log[0].index ==> x in requests
      ensures forall x :: x in requests ==>
                Due(x, force, recent) && nextIndex[x] > log[0].index && requests[x] == P.AppendRequest(State(), x)
      ensures forall x :: x in snapshots <==> Due(x, force, recent) && nextIndex[x] <= log[0].index
    {
      requests, snapshots := map[], {};
      var peer := 0;
      while peer < nextIndex.Length
        invariant peer <= nextIndex.Length
        invariant forall x :: x < peer && Due(x, force, recent) && nextIndex[x] > log[0].index ==> x in requests
        invariant forall x :: x in requests ==> x < peer
        invariant forall x :: x in requests ==>
                    Due(x, force, recent) && nextIndex[x] > log[0].index && requests[x] == P.AppendRequest(State(), x)
        invariant forall x :: x in snapshots <==> x < peer && Due(x, force, recent) && nextIndex[x] <= log[0].index
      {
        if peer != me && (force || nextIndex[peer] + 2 <= log[|log| - 1].index || !recent[peer]) {
          if nextIndex[peer] <= log[0].index {
            snapshots := snapshots + {peer};
          } else {
            var begin := nextIndex[peer] - log[0].index;
            var prev := log[begin - 1];
            var entries: seq<Entry> := [];
            if nextIndex[peer] <= log[|log| - 1].index {
              entries := log[begin..];
            }
            assert entries == log[begin..];
            requests := requests[peer := P.AppendArgs(currentTerm, me, prev.index, prev.term, entries, commitIndex)];
          }
        }
        peer := peer + 1;
      }
    }

    /** One round of applyLog: what goes to the apply channel. */
    method ApplyLog() returns (msgs: seq<P.ApplyMsg>)
      requires Valid() && lastApplied <= commitIndex <= log[|log| - 1].index
      modifies `lastApplied
      ensures Valid() && (State(), msgs) == P.Apply(old(State()))
    {
      msgs := [];
      ghost var p := State();
      if lastApplied < log[0].index {
        msgs := msgs + [P.SnapshotMsg(log[0].index, log[0].term, snapshot)];
        lastApplied := log[0].index;
        assert msgs == [P.SnapshotMsg(log[0].index, log[0].term, snapshot)];
      }
      ghost var head := msgs;
      var first, end := lastApplied - log[0].index + 1, commitIndex - log[0].index;
      var i := first;
      while i <= end
        invariant first <= i <= end + 1
        invariant msgs == head + P.Commands(log, first, i)
      {
        msgs := msgs + [P.CommandMsg(log[i].index, log[i].command)];
        i := i + 1;
      }
      lastApplied := commitIndex;
    }
  }
}
