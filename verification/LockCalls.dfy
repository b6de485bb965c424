/**
 The loops of Acquire and Release in src/kvsrv1/lock/lock.go as they run, against the server object: in
 each round RPCs are lost as the round says, and other clients act between the remote calls. Requests
 served late are the subject of modules Lock and LockSafety.
 */
module LockCalls {
  import opened KvStore
  import opened KvServer
  import opened ClerkCalls
  import opened Lock

  /** What happens to one round: the RPCs of Get, what others do then, the RPCs of Put, and again others. */
  datatype Round = Round(get: seq<Fate>, between: seq<Request>, put: seq<Fate>, after: seq<Request>)

  /** The value stored under the name is the token. */
  predicate Carries(store: Store, name: Key, token: string) {
    name in store && store[name].value == token
  }

  /** The lock is free: no such key, or the release mark. */
  predicate Free(store: Store, name: Key) {
    name !in store || store[name].value == RELEASED
  }

  /** In this round nobody interferes, and the first Put served is answered. */
  predicate Calm(round: Round) {
    && Hears(round.get).Some? && round.between == []
    && match Hears(round.put) case None => false case Some(n) => n <= |round.put| && !ServedBefore(round.put, n)
  }

  /** Nobody else does anything. */
  predicate Alone(rounds: seq<Round>) {
    forall i :: 0 <= i < |rounds| ==> rounds[i].between == [] && rounds[i].after == []
  }

  /** Others' requests, served in turn. */
  method Others(server: KVServer, reqs: seq<Request>)
    requires Positive(server.data)
    modifies server
    ensures Positive(server.data)
    ensures reqs == [] ==> server.data == old(server.data)
  {
    var i := 0;
    while i < |reqs|
      invariant 0 <= i <= |reqs| && Positive(server.data)
      invariant i == 0 ==> server.data == old(server.data)
    {
      match reqs[i] {
        case GetRequest(key) =>
          var _ := server.Get(key);
        case PutRequest(key, value, version) =>
          PutEffect(server.data, key, value, version);
          var _ := server.Put(key, value, version);
      }
      i := i + 1;
    }
  }

  class LockHandle {
    const server: KVServer
    const lockname: Key
    const lockToken: string
    var version: nat

    constructor (kv: KVServer, name: Key, token: string)
      requires |token| == 8
      ensures server == kv && lockname == name && lockToken == token && version == 0
    {
      server, lockname, lockToken, version := kv, name, token, 0;
    }

    /**
     Acquire returns (true) only when the token is stored, put there by this call or found there; with
     the rounds used up, or a remote call never answered, it is still waiting (false).
     */
    method Acquire(rounds: seq<Round>) returns (acquired: bool)
      requires Positive(server.data)
      modifies this, server
      ensures Positive(server.data)
      ensures acquired ==> Carries(server.data, lockname, lockToken)
      ensures rounds != [] && Calm(rounds[0]) && old(Free(server.data, lockname) || Carries(server.data, lockname, lockToken)) ==> acquired
      ensures Alone(rounds) && old(!Free(server.data, lockname) && !Carries(server.data, lockname, lockToken)) ==>
                !acquired && server.data == old(server.data)
    {
      var i := 0;
      while i < |rounds|
        invariant 0 <= i <= |rounds| && Positive(server.data)
        invariant i == 0 ==> server.data == old(server.data)
        invariant i > 0 && Calm(rounds[0]) ==> old(!Free(server.data, lockname) && !Carries(server.data, lockname, lockToken))
        invariant Alone(rounds) && old(!Free(server.data, lockname) && !Carries(server.data, lockname, lockToken)) ==>
                    server.data == old(server.data)
      {
        var round := rounds[i];
        i := i + 1;
        var got := ClerkCalls.Get(server, lockname, round.get);
        if got.None? { return false; }
        if got.value.err == OK {
          if got.value.value == lockToken { return true; }
          if got.value.value != RELEASED {
            Others(server, round.after);
            continue;
          }
        } else if got.value.err != ErrNoKey {
          continue;
        }
        Others(server, round.between);
        PutEffect(server.data, lockname, lockToken, got.value.version);
        var err := ClerkCalls.Put(server, lockname, lockToken, got.value.version, round.put);
        if err.None? { return false; }
        if err.value == ErrNoKey {
          version := 0;
          Others(server, round.after);
          continue;
        }
        if err.value == OK {
          version := got.value.version;
          return true;
        }
        Others(server, round.after);
      }
      return false;
    }

    /** Release returns (true) only when the token is not stored. */
    method Release(rounds: seq<Round>) returns (released: bool)
      requires Positive(server.data) && |lockToken| == 8
      modifies this, server
      ensures Positive(server.data)
      ensures released ==> !Carries(server.data, lockname, lockToken)
      ensures rounds != [] && Calm(rounds[0]) ==> released
      ensures rounds != [] && Calm(rounds[0]) && old(Carries(server.data, lockname, lockToken)) ==> Free(server.data, lockname)
      ensures Alone(rounds) && old(!Carries(server.data, lockname, lockToken)) ==> server.data == old(server.data)
    {
      assert RELEASED != lockToken by { assert |RELEASED| == 7; }
      var i := 0;
      while i < |rounds|
        invariant 0 <= i <= |rounds| && Positive(server.data)
        invariant i == 0 ==> server.data == old(server.data)
        invariant i > 0 ==> !Calm(rounds[0])
        invariant Alone(rounds) && old(!Carries(server.data, lockname, lockToken)) ==> server.data == old(server.data)
      {
        var round := rounds[i];
        i := i + 1;
        var got := ClerkCalls.Get(server, lockname, round.get);
        if got.None? { return false; }
        if got.value.err == OK {
          if got.value.value == RELEASED { return true; }
          if got.value.value != lockToken { return true; }
        } else if got.value.err == ErrNoKey {
          return true;
        } else {
          continue;
        }
        Others(server, round.between);
        PutEffect(server.data, lockname, RELEASED, got.value.version);
        var err := ClerkCalls.Put(server, lockname, RELEASED, got.value.version, round.put);
        if err.None? { return false; }
        if err.value == ErrNoKey {
          version := 0;
          Others(server, round.after);
          continue;
        }
        if err.value == OK {
          version := got.value.version;
          return true;
        }
        Others(server, round.after);
      }
      return false;
    }
  }
}
