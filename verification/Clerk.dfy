/**
 The clerk of src/kvsrv1/client.go over a network that loses and delays: a call may be reported as
 failed although its request is still on the way and will be served later. History records the order
 in which calls took effect.
 */
module Clerk {
  import opened KvStore
  import opened KvModel

  datatype Option<T> = None | Some(value: T)

  /**
   One Get or Put of a clerk: the request, how many RPCs it has sent, its result once returned; and
   history: the version of the key when it was called, whether and which RPC of it wrote, the length
   of the order when it was called and returned, and its place in the order.
   */
  datatype Call = Call(
    req: Request, tries: nat, result: Option<Reply>,
    seen: nat, took: bool, via: nat, born: nat, died: nat, point: nat)

  /** The `try`-th RPC of a call. */
  datatype Attempt = Attempt(call: nat, try: nat)

  datatype Served = Served(reply: Reply, point: nat)

  /** A place in the order: the request of a call. */
  datatype Event = Event(call: nat, req: Request, took: bool)

  datatype Sys = Sys(
    store: Store,
    calls: seq<Call>,
    waiting: set<Attempt>,
    answers: map<Attempt, Served>,
    order: seq<Event>)

  const START := Sys(map[], [], {}, map[], [])

  // ---------------------------------------------------------------- steps

  function Invoke(s: Sys, req: Request): Sys {
    s.(calls := s.calls + [Call(req, 1, None, Version(s.store, req.key), false, 0, |s.order|, 0, 0)],
       waiting := s.waiting + {Attempt(|s.calls|, 0)})
  }

  /** The last RPC is given up as failed, though it may still be served, and sent again. */
  function Retry(s: Sys, c: nat): Sys
    requires c < |s.calls|
  {
    s.(calls := s.calls[c := s.calls[c].(tries := s.calls[c].tries + 1)],
       waiting := s.waiting + {Attempt(c, s.calls[c].tries)})
  }

  predicate Takes(store: Store, req: Request) {
    req.PutRequest? && Answer(store, req).err == OK
  }

  /** The server handles one RPC. */
  function Serve(s: Sys, a: Attempt): Sys
    requires a.call < |s.calls|
  {
    var k := s.calls[a.call];
    var took := Takes(s.store, k.req);
    s.(store := Execute(s.store, k.req),
       waiting := s.waiting - {a},
       answers := s.answers[a := Served(Answer(s.store, k.req), |s.order|)],
       calls := if took then s.calls[a.call := k.(took := true, via := a.try, point := |s.order|)] else s.calls,
       order := if took || k.req.GetRequest? then s.order + [Event(a.call, k.req, took)] else s.order)
  }

  /** What the clerk makes of an answer: ErrVersion after a retry may hide an earlier success. */
  function Result(reply: Reply, tries: nat): Reply {
    if reply.PutReply? && reply.err == ErrVersion && tries > 1 then PutReply(ErrMaybe) else reply
  }

  /** The call returns the answer to its last RPC. */
  function Return(s: Sys, c: nat): Sys
    requires c < |s.calls| && s.calls[c].tries > 0 && Attempt(c, s.calls[c].tries - 1) in s.answers
  {
    var k := s.calls[c];
    var a := s.answers[Attempt(c, k.tries - 1)];
    var done := k.(result := Some(Result(a.reply, k.tries)));
    if k.req.GetRequest? then s.(calls := s.calls[c := done.(point := a.point, died := |s.order|)])
    else if k.took then s.(calls := s.calls[c := done.(died := |s.order|)])
    else
      s.(calls := s.calls[c := done.(point := |s.order|, died := |s.order| + 1)],
         order := s.order + [Event(c, k.req, false)])
  }

  ghost predicate InvokeStep(s: Sys, s': Sys) {
    exists req :: s' == Invoke(s, req)
  }

  ghost predicate RetryStep(s: Sys, s': Sys) {
    exists c: nat :: c < |s.calls| && s.calls[c].result.None? && s' == Retry(s, c)
  }

  ghost predicate ServeStep(s: Sys, s': Sys) {
    exists a :: a in s.waiting && a.call < |s.calls| && s' == Serve(s, a)
  }

  ghost predicate ReturnStep(s: Sys, s': Sys) {
    exists c: nat :: CanReturn(s, c) && s' == Return(s, c)
  }

  ghost predicate Next(s: Sys, s': Sys) {
    InvokeStep(s, s') || RetryStep(s, s') || ServeStep(s, s') || ReturnStep(s, s')
  }

  ghost predicate CanReturn(s: Sys, c: nat) {
    c < |s.calls| && s.calls[c].result.None? && s.calls[c].tries > 0 && Attempt(c, s.calls[c].tries - 1) in s.answers
  }

  // ---------------------------------------------------------------- invariant

  /** The specification's state of a key after the given order. */
  function Replay(order: seq<Event>, key: Key): KvState {
    if order == [] then INITIAL
    else
      var e := order[|order| - 1];
      var st := Replay(order[..|order| - 1], key);
      if e.req.key == key then After(st, e.req) else st
  }

  /** A Put names a version the key had reached when it was called. */
  predicate Honest(k: Call) {
    k.req.PutRequest? ==> k.req.version <= k.seen
  }

  /** The call has a place in the order, between its call and its return. */
  ghost predicate Placed(s: Sys, c: nat)
    requires c < |s.calls|
  {
    var k := s.calls[c];
    && k.born <= k.point < k.died <= |s.order|
    && s.order[k.point].call == c
    && s.order[k.point].req == k.req
  }

  ghost predicate CallOk(s: Sys, c: nat)
    requires c < |s.calls|
  {
    var k := s.calls[c];
    && k.tries >= 1
    && k.born <= |s.order|
    && k.seen <= Version(s.store, k.req.key)
    && (k.took ==>
          && k.req.PutRequest?
          && k.born <= k.point < |s.order|
          && s.order[k.point] == Event(c, k.req, true)
          && Version(s.store, k.req.key) > k.req.version
          && k.via < k.tries
          && Attempt(c, k.via) in s.answers
          && s.answers[Attempt(c, k.via)].reply == PutReply(OK))
    && (k.result.Some? ==> ReturnedOk(s, c))
  }

  ghost predicate ReturnedOk(s: Sys, c: nat)
    requires c < |s.calls| && s.calls[c].result.Some?
  {
    var k := s.calls[c];
    && (Honest(k) ==> Placed(s, c))
    && (k.req.GetRequest? <==> k.result.value.GetReply?)
    && (k.req.GetRequest? ==> k.result.value.version <= Version(s.store, k.req.key))
    && (k.req.PutRequest? ==>
          && (Honest(k) ==> Version(s.store, k.req.key) > k.req.version && k.result.value.err != ErrNoKey)
          && k.result.value.err in {OK, ErrVersion, ErrMaybe, ErrNoKey}
          && (k.result.value.err == OK <==> k.took && k.via == k.tries - 1)
          && (k.result.value.err == ErrVersion ==> k.tries == 1 && !k.took)
          && (k.result.value.err == ErrMaybe ==> k.tries > 1))
  }

  ghost predicate WaitingOk(s: Sys, a: Attempt) {
    a in s.waiting ==>
      && a.call < |s.calls|
      && a.try < s.calls[a.call].tries
      && a !in s.answers
      && (s.calls[a.call].result.Some? ==> a.try + 1 < s.calls[a.call].tries)
  }

  ghost predicate GetServedOk(s: Sys, a: Attempt)
    requires a in s.answers && a.call < |s.calls|
  {
    var v, k := s.answers[a], s.calls[a.call];
    && v.reply.GetReply?
    && k.born <= v.point < |s.order|
    && s.order[v.point] == Event(a.call, k.req, false)
    && v.reply.version <= Version(s.store, k.req.key)
    && (v.reply.version == Version(s.store, k.req.key) ==> v.reply.value == Value(s.store, k.req.key))
    && (v.reply.err == OK || (v.reply.err == ErrNoKey && v.reply.version == 0 && v.reply.value == ""))
  }

  ghost predicate PutServedOk(s: Sys, a: Attempt)
    requires a in s.answers && a.call < |s.calls| && s.calls[a.call].req.PutRequest?
  {
    var v, k := s.answers[a], s.calls[a.call];
    && v.reply.PutReply?
    && v.reply.err in {OK, ErrVersion, ErrNoKey}
    && (v.reply.err == OK <==> k.took && k.via == a.try)
    && (Honest(k) ==> Version(s.store, k.req.key) > k.req.version && v.reply.err != ErrNoKey)
  }

  ghost predicate AnswerOk(s: Sys, a: Attempt) {
    a in s.answers ==>
      && a.call < |s.calls|
      && a.try < s.calls[a.call].tries
      && (if s.calls[a.call].req.GetRequest? then GetServedOk(s, a) else PutServedOk(s, a))
  }

  /** In the order, a Put writes once, and an honest Put stands once. */
  ghost predicate EventOk(s: Sys, i: nat)
    requires i < |s.order|
  {
    var e := s.order[i];
    && e.call < |s.calls|
    && e.req == s.calls[e.call].req
    && (e.took ==> e.req.PutRequest? && s.calls[e.call].took && s.calls[e.call].point == i)
    && (e.req.PutRequest? && !e.took ==> s.calls[e.call].result.Some?)
    && (e.req.PutRequest? && !e.took && Honest(s.calls[e.call]) ==> !s.calls[e.call].took && s.calls[e.call].point == i)
  }

  ghost predicate SInv(s: Sys) {
    && Positive(s.store)
    && (forall c :: 0 <= c < |s.calls| ==> CallOk(s, c))
    && (forall a :: WaitingOk(s, a))
    && (forall a :: AnswerOk(s, a))
    && (forall i :: 0 <= i < |s.order| ==> EventOk(s, i))
  }

  // ---------------------------------------------------------------- every step keeps it

  /** Nothing in the history of calls is taken back; versions only rise. */
  ghost predicate Continues(s: Sys, s': Sys) {
    && |s.calls| <= |s'.calls|
    && (forall c :: 0 <= c < |s.calls| ==> CallContinues(s, s', c))
    && (forall key :: Version(s.store, key) <= Version(s'.store, key))
    && |s.order| <= |s'.order|
    && s'.order[..|s.order|] == s.order
  }

  ghost predicate CallContinues(s: Sys, s': Sys, c: nat)
    requires c < |s.calls| <= |s'.calls|
  {
    var k, k' := s.calls[c], s'.calls[c];
    && k'.req == k.req
    && k'.seen == k.seen
    && k'.born == k.born
    && (k.result.Some? ==> k'.result == k.result && k'.tries == k.tries && k'.died == k.died)
    && (k.result.Some? && Honest(k) ==> k'.point == k.point && k'.took == k.took)
    && (k.took ==> k'.took && k'.point == k.point)
  }

  lemma InvokeOk(s: Sys, req: Request)
    requires SInv(s)
    ensures SInv(Invoke(s, req)) && Continues(s, Invoke(s, req))
  {
    var s' := Invoke(s, req);
    forall c | 0 <= c < |s'.calls| ensures CallOk(s', c) {
      if c < |s.calls| { assert CallOk(s, c); }
    }
    forall a ensures WaitingOk(s', a) && AnswerOk(s', a) {
      assert WaitingOk(s, a) && AnswerOk(s, a);
    }
    forall i | 0 <= i < |s'.order| ensures EventOk(s', i) { assert EventOk(s, i); }
  }

  lemma RetryOk(s: Sys, c: nat)
    requires SInv(s) && c < |s.calls| && s.calls[c].result.None?
    ensures SInv(Retry(s, c)) && Continues(s, Retry(s, c))
  {
    var s' := Retry(s, c);
    forall x | 0 <= x < |s'.calls| ensures CallOk(s', x) { assert CallOk(s, x); }
    forall a ensures WaitingOk(s', a) && AnswerOk(s', a) {
      assert WaitingOk(s, a) && AnswerOk(s, a);
    }
    forall i | 0 <= i < |s'.order| ensures EventOk(s', i) { assert EventOk(s, i); }
  }

  /** Serving any request leaves versions no lower, and the served key's value unless its version rose. */
  lemma ServeStore(store: Store, req: Request)
    requires Positive(store)
    ensures Positive(Execute(store, req))
    ensures forall key :: Version(store, key) <= Version(Execute(store, req), key)
    ensures forall key :: Version(store, key) == Version(Execute(store, req), key) ==>
                            Value(store, key) == Value(Execute(store, req), key)
    ensures Takes(store, req) ==> Version(Execute(store, req), req.key) > req.version
  {
    if req.PutRequest? { PutEffect(store, req.key, req.value, req.version); }
  }

  /** A call is untouched by a served RPC that did not write. */
  lemma ServeOthers(s: Sys, a: Attempt, c: nat)
    requires SInv(s) && a in s.waiting && a.call < |s.calls| && c < |s.calls|
    requires c != a.call || !Takes(s.store, s.calls[a.call].req)
    ensures CallOk(Serve(s, a), c) && CallContinues(s, Serve(s, a), c)
  {
    assert WaitingOk(s, a) && CallOk(s, c);
    ServeStore(s.store, s.calls[a.call].req);
  }

  /** A call whose RPC writes had not written, and returned only if it named a version not yet reached. */
  lemma ServeWriter(s: Sys, a: Attempt)
    requires SInv(s) && a in s.waiting && a.call < |s.calls| && Takes(s.store, s.calls[a.call].req)
    ensures CallOk(Serve(s, a), a.call) && CallContinues(s, Serve(s, a), a.call)
  {
    var k := s.calls[a.call];
    assert WaitingOk(s, a) && CallOk(s, a.call);
    ServeStore(s.store, k.req);
    PutEffect(s.store, k.req.key, k.req.value, k.req.version);
  }

  lemma ServeCalls(s: Sys, a: Attempt, c: nat)
    requires SInv(s) && a in s.waiting && a.call < |s.calls| && c < |s.calls|
    ensures CallOk(Serve(s, a), c) && CallContinues(s, Serve(s, a), c)
  {
    if c == a.call && Takes(s.store, s.calls[c].req) { ServeWriter(s, a); } else { ServeOthers(s, a, c); }
  }

  lemma ServeAttempts(s: Sys, a: Attempt, b: Attempt)
    requires SInv(s) && a in s.waiting && a.call < |s.calls|
    ensures WaitingOk(Serve(s, a), b) && AnswerOk(Serve(s, a), b)
  {
    var k := s.calls[a.call];
    assert WaitingOk(s, a) && CallOk(s, a.call) && WaitingOk(s, b) && AnswerOk(s, b);
    ServeStore(s.store, k.req);
    if k.req.PutRequest? { PutEffect(s.store, k.req.key, k.req.value, k.req.version); }
  }

  lemma ServeEvents(s: Sys, a: Attempt, i: nat)
    requires SInv(s) && a in s.waiting && a.call < |s.calls| && i < |Serve(s, a).order|
    ensures EventOk(Serve(s, a), i)
  {
    var k := s.calls[a.call];
    assert WaitingOk(s, a) && CallOk(s, a.call);
    if k.req.PutRequest? { PutEffect(s.store, k.req.key, k.req.value, k.req.version); }
    if i < |s.order| {
      assert EventOk(s, i);
      var e := s.order[i];
      if e.call == a.call { assert CallOk(s, e.call); }
    }
  }

  lemma ServeOk(s: Sys, a: Attempt)
    requires SInv(s) && a in s.waiting
    ensures a.call < |s.calls| && SInv(Serve(s, a)) && Continues(s, Serve(s, a))
  {
    assert WaitingOk(s, a);
    var s' := Serve(s, a);
    ServeStore(s.store, s.calls[a.call].req);
    forall c | 0 <= c < |s'.calls| ensures CallOk(s', c) && CallContinues(s, s', c) { ServeCalls(s, a, c); }
    forall b ensures WaitingOk(s', b) && AnswerOk(s', b) { ServeAttempts(s, a, b); }
    forall i | 0 <= i < |s'.order| ensures EventOk(s', i) { ServeEvents(s, a, i); }
  }

  lemma ReturnCalls(s: Sys, c: nat, x: nat)
    requires SInv(s) && CanReturn(s, c) && x < |s.calls|
    ensures CallOk(Return(s, c), x) && CallContinues(s, Return(s, c), x)
  {
    assert CallOk(s, c) && AnswerOk(s, Attempt(c, s.calls[c].tries - 1)) && CallOk(s, x);
  }

  lemma ReturnOk(s: Sys, c: nat)
    requires SInv(s) && CanReturn(s, c)
    ensures SInv(Return(s, c)) && Continues(s, Return(s, c))
  {
    var s', k := Return(s, c), s.calls[c];
    assert CallOk(s, c) && AnswerOk(s, Attempt(c, k.tries - 1));
    forall x | 0 <= x < |s'.calls| ensures CallOk(s', x) && CallContinues(s, s', x) { ReturnCalls(s, c, x); }
    forall b ensures WaitingOk(s', b) && AnswerOk(s', b) {
      assert WaitingOk(s, b) && AnswerOk(s, b);
    }
    forall i | 0 <= i < |s'.order| ensures EventOk(s', i) {
      assert i < |s.order| ==> EventOk(s, i);
    }
  }

  lemma NextOk(s: Sys, s': Sys)
    requires SInv(s) && Next(s, s')
    ensures SInv(s') && Continues(s, s')
  {
    if InvokeStep(s, s') {
      var req :| s' == Invoke(s, req);
      InvokeOk(s, req);
    } else if RetryStep(s, s') {
      var c: nat :| c < |s.calls| && s.calls[c].result.None? && s' == Retry(s, c);
      RetryOk(s, c);
    } else if ServeStep(s, s') {
      var a :| a in s.waiting && a.call < |s.calls| && s' == Serve(s, a);
      ServeOk(s, a);
    } else {
      var c: nat :| CanReturn(s, c) && s' == Return(s, c);
      ReturnOk(s, c);
    }
  }
}
