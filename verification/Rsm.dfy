/**
 The reader of src/kvraft1/rsm/rsm.go over the service of src/kvraft1/server.go: it applies what the
 peer delivers, and wakes the Submit calls that wait for an index.
 */
module Rsm {
  import opened KvStore
  import opened KvServer
  import opened RaftLog
  import opened Cluster
  import opened ClusterInv
  import P = Peer

  /** What a waiter is told: an error, or the service's answer. */
  datatype Result = Answered(reply: Reply) | Unanswered | WrongLeader

  datatype Slot = Empty | Full(result: Result)

  /** A Submit waiting for its index: its operation, the term it started in, and its one-place channel. */
  datatype Waiter = Waiter(op: Command, term: Term, ch: Slot)

  /** A send that finds the channel full is dropped. */
  function Wake(w: Waiter, result: Result): Waiter {
    if w.ch.Empty? then w.(ch := Full(result)) else w
  }

  /** Who is woken, and with what, by one message read while the service was in state `a`. */
  function Woken(waiters: map<nat, Waiter>, a: App): map<nat, Waiter>
    requires a.queue != []
  {
    match a.queue[0]
    case CommandMsg(index, command) =>
      if index !in waiters then waiters
      else if command.Op? && waiters[index].op == command then
        waiters[index := Wake(waiters[index], if Duplicate(a, index) then Unanswered else Answered(Answer(a.store, command.req)))]
      else map i | i in waiters :: Wake(waiters[i], WrongLeader)
    case SnapshotMsg(index, term, _) =>
      map i | i in waiters :: if i <= index || waiters[i].term < term then Wake(waiters[i], WrongLeader) else waiters[i]
  }

  /** No waiter loses a result it has, nor its operation and term. */
  ghost predicate Waiting(before: Waiter, after: Waiter) {
    after.op == before.op && after.term == before.term && (before.ch.Full? ==> after == before)
  }

  ghost predicate ToldWrongLeader(before: Waiter, after: Waiter) {
    Waiting(before, after) && (before.ch.Empty? ==> after.ch == Full(WrongLeader))
  }

  /**
   What waiters find in their channels after a message. The one at the index of its own operation finds
   the answer in the store as it was, and nobody else anything; with any other command at an index waited
   for everybody is told WrongLeader; after a snapshot exactly those it overtakes are.
   */
  ghost predicate Notified(before: map<nat, Waiter>, after: map<nat, Waiter>, msg: P.ApplyMsg, applied: nat, store: Store) {
    && after.Keys == before.Keys
    && match msg
       case CommandMsg(x, c) =>
         if x !in before then after == before
         else if c.Op? && before[x].op == c then
           && Waiting(before[x], after[x])
           && (before[x].ch.Empty? && applied < x ==> after[x].ch == Full(Answered(Answer(store, c.req))))
           && (before[x].ch.Empty? && x <= applied ==> after[x].ch == Full(Unanswered))
           && (forall i :: i in before && i != x ==> after[i] == before[i])
         else forall i :: i in before ==> ToldWrongLeader(before[i], after[i])
       case SnapshotMsg(x, t, _) =>
         forall i :: i in before ==>
           if i <= x || before[i].term < t then ToldWrongLeader(before[i], after[i]) else after[i] == before[i]
  }

  lemma WokenNotified(waiters: map<nat, Waiter>, a: App)
    requires a.queue != []
    ensures Notified(waiters, Woken(waiters, a), a.queue[0], a.lastAppliedID, a.store)
  {
  }

  /** The service after all messages on the channel. */
  function ReadAll(a: App): App
    decreases |a.queue|
  {
    if a.queue == [] then a else ReadAll(ReadOne(a))
  }

  function WokenAll(waiters: map<nat, Waiter>, a: App): map<nat, Waiter>
    decreases |a.queue|
  {
    if a.queue == [] then waiters else WokenAll(Woken(waiters, a), ReadOne(a))
  }

  /** What a waiter was told is right: the answer of the log's operations up to its own, which is its own. */
  ghost predicate Told(w: Waiter, l: Log, x: nat) {
    w.ch.Full? && w.ch.result != WrongLeader ==>
      x < |l| && w.op.Op? && l[x].command == w.op && w.ch.result == Answered(Answer(Fold(l, x), w.op.req))
  }

  /**
   Reading messages of a log, waiters are answered only from that log: whoever is not told WrongLeader
   is told the answer its own operation has at its own place in the log.
   */
  lemma {:induction false} AnswersFromLog(waiters: map<nat, Waiter>, a: App, l: Log, to: nat)
    requires a.at < |l| && a.store == Fold(l, a.at + 1) && (a.lastAppliedID == a.at || a.lastAppliedID == 0)
    requires StreamOk(a.queue, a.at, l, to)
    requires forall x :: x in waiters ==> Told(waiters[x], l, x)
    ensures WokenAll(waiters, a).Keys == waiters.Keys
    ensures forall x :: x in waiters ==> Told(WokenAll(waiters, a)[x], l, x)
    decreases |a.queue|
  {
    if a.queue != [] { AnswersFromLog(Woken(waiters, a), ReadOne(a), l, to); }
  }

  class RSM {
    const sm: KVServer
    var lastAppliedID: nat
    var waiters: map<nat, Waiter>

    ghost function Contents(queue: seq<P.ApplyMsg>, at: nat): App
      reads this, sm
    {
      App(queue, sm.data, lastAppliedID, at)
    }

    constructor (service: KVServer)
      ensures sm == service && lastAppliedID == 0 && waiters == map[]
    {
      sm, lastAppliedID, waiters := service, 0, map[];
    }

    method DoOp(req: Request) returns (reply: Reply)
      modifies sm
      ensures sm.data == Execute(old(sm.data), req) && reply == Answer(old(sm.data), req)
    {
      match req
      case GetRequest(key) => reply := sm.Get(key);
      case PutRequest(key, value, version) => reply := sm.Put(key, value, version);
    }

    method IsDuplicate(index: nat) returns (dup: bool)
      ensures dup <==> lastAppliedID >= index
    {
      dup := lastAppliedID >= index;
    }

    /** Wakes every waiter, in the order of the map. */
    method WakeAll()
      modifies this`waiters
      ensures waiters == map i | i in old(waiters) :: Wake(old(waiters)[i], WrongLeader)
    {
      var todo := waiters.Keys;
      while todo != {}
        invariant waiters.Keys == old(waiters).Keys && todo <= waiters.Keys
        invariant forall i :: i in waiters ==>
                    waiters[i] == if i in todo then old(waiters)[i] else Wake(old(waiters)[i], WrongLeader)
        decreases |todo|
      {
        var i :| i in todo;
        waiters := waiters[i := Wake(waiters[i], WrongLeader)];
        todo := todo - {i};
      }
    }

    /** Wakes the waiters a snapshot overtakes. */
    method WakeOvertaken(index: nat, term: Term)
      modifies this`waiters
      ensures waiters == map i | i in old(waiters) ::
                (if i <= index || old(waiters)[i].term < term then Wake(old(waiters)[i], WrongLeader) else old(waiters)[i])
    {
      var todo := waiters.Keys;
      while todo != {}
        invariant waiters.Keys == old(waiters).Keys && todo <= waiters.Keys
        invariant forall i :: i in waiters ==>
                    waiters[i] == if i !in todo && (i <= index || old(waiters)[i].term < term)
                                  then Wake(old(waiters)[i], WrongLeader) else old(waiters)[i]
        decreases |todo|
      {
        var i :| i in todo;
        if i <= index || waiters[i].term < term {
          waiters := waiters[i := Wake(waiters[i], WrongLeader)];
        }
        todo := todo - {i};
      }
    }

    /** One message off the channel. */
    method Handle(msg: P.ApplyMsg, ghost at: nat) returns (ghost at': nat)
      modifies this, sm
      ensures Contents([], at') == ReadOne(old(Contents([msg], at)))
      ensures waiters == Woken(old(waiters), old(Contents([msg], at)))
      ensures Notified(old(waiters), waiters, msg, old(lastAppliedID), old(sm.data))
    {
      WokenNotified(waiters, Contents([msg], at));
      at' := ReadOne(Contents([msg], at)).at;
      match msg
      case CommandMsg(index, command) =>
        var result := Unanswered;
        var dup := IsDuplicate(index);
        if command.Op? && !dup {
          var reply := DoOp(command.req);
          result := Answered(reply);
        }
        lastAppliedID := if index >= lastAppliedID then index else lastAppliedID;
        if index in waiters {
          if command.Op? && waiters[index].op == command {
            waiters := waiters[index := Wake(waiters[index], result)];
          } else {
            WakeAll();
          }
        }
      case SnapshotMsg(index, term, data) =>
        var dup := IsDuplicate(index);
        if !dup {
          sm.Restore(Encoded(data));
          lastAppliedID := index;
        }
        WakeOvertaken(index, term);
    }

    /** The reader's loop. */
    method Reader(queue: seq<P.ApplyMsg>, ghost at: nat) returns (ghost at': nat)
      modifies this, sm
      ensures Contents([], at') == ReadAll(old(Contents(queue, at)))
      ensures waiters == WokenAll(old(waiters), old(Contents(queue, at)))
    {
      at' := at;
      var i := 0;
      while i < |queue|
        invariant 0 <= i <= |queue|
        invariant ReadAll(Contents(queue[i..], at')) == ReadAll(old(Contents(queue, at)))
        invariant WokenAll(waiters, Contents(queue[i..], at')) == WokenAll(old(waiters), old(Contents(queue, at)))
      {
        ghost var before := Contents(queue[i..], at');
        ghost var told := waiters;
        at' := Handle(queue[i], at');
        assert queue[i..][1..] == queue[i + 1..];
        assert Contents(queue[i + 1..], at') == ReadOne(before);
        assert waiters == Woken(told, before);
        i := i + 1;
      }
    }
  }
}
