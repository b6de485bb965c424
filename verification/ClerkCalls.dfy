/**
 The retry loops of src/kvsrv1/client.go against the server object, for one client alone: each RPC is
 lost on the way, served without its reply arriving, or answered. Requests served after their caller
 gave up, and other clients, are the subject of module Clerk.
 */
module ClerkCalls {
  import opened KvStore
  import opened KvServer
  import opened Clerk

  datatype Fate = Lost | Unheard | Heard

  /** The first RPC whose answer arrives. */
  function Hears(fates: seq<Fate>): Option<nat> {
    if fates == [] then None
    else if fates[0] == Heard then Some(0)
    else match Hears(fates[1..]) case None => None case Some(n) => Some(n + 1)
  }

  /** Was an RPC among the first n served without its reply arriving? */
  predicate ServedBefore(fates: seq<Fate>, n: nat)
    requires n <= |fates|
  {
    exists i :: 0 <= i < n && fates[i] == Unheard
  }

  lemma {:induction false} HearsFirst(fates: seq<Fate>, n: nat)
    requires n < |fates| && fates[n] == Heard && forall i :: 0 <= i < n ==> fates[i] != Heard
    ensures Hears(fates) == Some(n)
  {
    if n > 0 { HearsFirst(fates[1..], n - 1); }
  }

  lemma {:induction false} HearsNothing(fates: seq<Fate>)
    requires forall i :: 0 <= i < |fates| ==> fates[i] != Heard
    ensures Hears(fates) == None
  {
    if fates != [] { HearsNothing(fates[1..]); }
  }

  /** A second execution of a Put changes nothing and is answered ErrVersion. */
  lemma PutTwice(store: Store, req: Request)
    requires Positive(store) && req.PutRequest?
    ensures Positive(Execute(store, req)) && Execute(Execute(store, req), req) == Execute(store, req)
    ensures Takes(store, req) ==> Answer(Execute(store, req), req) == PutReply(ErrVersion)
    ensures !Takes(store, req) ==> Answer(Execute(store, req), req) == Answer(store, req)
  {
    PutEffect(store, req.key, req.value, req.version);
    PutEffect(Execute(store, req), req.key, req.value, req.version);
  }

  /**
   Put: however many RPCs are served, the store changes as by one; the caller is told OK only if its
   last RPC wrote, and ErrMaybe whenever a failed version check came after a retry.
   */
  method Put(server: KVServer, key: Key, value: string, version: nat, fates: seq<Fate>) returns (r: Option<Err>)
    requires Positive(server.data)
    modifies server
    ensures var req, n := PutRequest(key, value, version), Hears(fates);
            && r.Some? == n.Some?
            && (n.Some? ==>
                  && n.value < |fates|
                  && server.data == Execute(old(server.data), req)
                  && r.value == if Version(old(server.data), key) == version
                                then if ServedBefore(fates, n.value) then ErrMaybe else OK
                                else if key !in old(server.data) then ErrNoKey
                                else if n.value == 0 then ErrVersion else ErrMaybe)
            && (n.None? ==> server.data == if ServedBefore(fates, |fates|) then Execute(old(server.data), req) else old(server.data))
  {
    ghost var req, start := PutRequest(key, value, version), server.data;
    PutTwice(start, req);
    PutEffect(start, key, value, version);
    var retryCount := 0;
    while retryCount < |fates|
      invariant 0 <= retryCount <= |fates|
      invariant forall i :: 0 <= i < retryCount ==> fates[i] != Heard
      invariant server.data == if ServedBefore(fates, retryCount) then Execute(start, req) else start
    {
      if fates[retryCount] != Lost {
        var reply := server.Put(key, value, version);
        if fates[retryCount] == Heard {
          HearsFirst(fates, retryCount);
          if reply.err == ErrVersion && retryCount > 0 {
            return Some(ErrMaybe);
          }
          return Some(reply.err);
        }
        assert fates[retryCount] == Unheard;
      }
      retryCount := retryCount + 1;
    }
    HearsNothing(fates);
    r := None;
  }

  /** Get: the first answer that arrives, the store untouched. */
  method Get(server: KVServer, key: Key, fates: seq<Fate>) returns (r: Option<Reply>)
    ensures r == if Hears(fates).Some? then Some(Answer(server.data, GetRequest(key))) else None
  {
    var retryCount := 0;
    while retryCount < |fates|
      invariant 0 <= retryCount <= |fates|
      invariant forall i :: 0 <= i < retryCount ==> fates[i] != Heard
    {
      if fates[retryCount] == Heard {
        HearsFirst(fates, retryCount);
        var reply := server.Get(key);
        return Some(reply);
      }
      retryCount := retryCount + 1;
    }
    HearsNothing(fates);
    r := None;
  }
}
