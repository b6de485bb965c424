/**
 What the clerk's callers may rely on: linearizability against KvModel, the meaning of each error, and
 when exactly a request left behind by a returned Put can still write.
 */
module Linearizability {
  import opened KvStore
  import opened KvModel
  import opened Clerk

  // ---------------------------------------------------------------- runs

  ghost predicate Path(r: seq<Sys>) {
    |r| > 0 && forall i :: 0 < i < |r| ==> Follow(r, i)
  }

  ghost predicate Follow(r: seq<Sys>, i: int)
    requires 0 < i < |r|
  {
    Next(r[i - 1], r[i])
  }

  ghost predicate Run(r: seq<Sys>) {
    Path(r) && r[0] == START
  }

  lemma {:induction false} RunInv(r: seq<Sys>, i: nat)
    requires Run(r) && i < |r|
    ensures SInv(r[i])
  {
    if i > 0 {
      RunInv(r, i - 1);
      assert Follow(r, i);
      NextOk(r[i - 1], r[i]);
    }
  }

  lemma ContinuesTrans(s: Sys, t: Sys, u: Sys)
    requires Continues(s, t) && Continues(t, u)
    ensures Continues(s, u)
  {
    forall c | 0 <= c < |s.calls| ensures CallContinues(s, u, c) {
      assert CallContinues(s, t, c) && CallContinues(t, u, c);
    }
    assert u.order[..|s.order|] == u.order[..|t.order|][..|s.order|];
  }

  lemma {:induction false} RunContinues(r: seq<Sys>, i: nat, j: nat)
    requires Run(r) && i <= j < |r|
    ensures Continues(r[i], r[j])
    decreases j
  {
    if i < j {
      RunContinues(r, i, j - 1);
      RunInv(r, j - 1);
      assert Follow(r, j);
      NextOk(r[j - 1], r[j]);
      ContinuesTrans(r[i], r[j - 1], r[j]);
    }
  }

  // ---------------------------------------------------------------- the meaning of the answers

  /** OK: the Put wrote, in exactly one place of the order. */
  lemma OkWroteOnce(r: seq<Sys>, i: nat, c: nat, x: nat)
    requires Run(r) && i < |r| && c < |r[i].calls| && x < |r[i].order|
    requires r[i].calls[c].req.PutRequest? && r[i].calls[c].result == Some(PutReply(OK))
    ensures r[i].order[x].call == c && r[i].order[x].took <==> x == r[i].calls[c].point
  {
    RunInv(r, i);
    assert CallOk(r[i], c) && EventOk(r[i], x);
  }

  /** ErrVersion: the Put has not written and never will. */
  lemma ErrVersionNeverWrites(r: seq<Sys>, i: nat, c: nat, j: nat, x: nat)
    requires Run(r) && i <= j < |r| && c < |r[i].calls| && x < |r[j].order|
    requires r[i].calls[c].req.PutRequest? && r[i].calls[c].result == Some(PutReply(ErrVersion))
    ensures !(r[j].order[x].call == c && r[j].order[x].took)
  {
    RunInv(r, j);
    RunContinues(r, i, j);
    assert CallContinues(r[i], r[j], c) && CallOk(r[j], c) && EventOk(r[j], x);
  }

  /**
   What a returned Put was told, exactly: OK if its last RPC wrote, ErrVersion only if its only RPC was
   refused, ErrMaybe only after a retry. So a Put that was never retried knows whether it wrote.
   */
  lemma PutToldExactly(r: seq<Sys>, i: nat, c: nat)
    requires Run(r) && i < |r| && c < |r[i].calls|
    requires r[i].calls[c].req.PutRequest? && r[i].calls[c].result.Some?
    ensures var k, err := r[i].calls[c], r[i].calls[c].result.value.err;
            && r[i].calls[c].result.value == PutReply(err)
            && (err == OK <==> k.took && k.via == k.tries - 1)
            && (k.tries == 1 ==> err in {OK, ErrVersion, ErrNoKey} && (err == OK <==> k.took))
            && (k.tries > 1 ==> err in {OK, ErrMaybe, ErrNoKey})
            && (Honest(k) ==> err != ErrNoKey)
  {
    RunInv(r, i);
    assert CallOk(r[i], c);
  }

  /** An RPC of call c still on the way would write if served now. */
  ghost predicate Endangers(s: Sys, c: nat, a: Attempt)
    requires c < |s.calls|
  {
    a.call == c && a in s.waiting && Takes(s.store, s.calls[c].req)
  }

  /**
   A returned Put that was answered OK or ErrVersion, or that named a version the key had when it was
   called, leaves no request behind that could still write, then or at any later moment.
   */
  lemma LeftoverHarmless(r: seq<Sys>, i: nat, c: nat, j: nat, a: Attempt)
    requires Run(r) && i <= j < |r| && c < |r[i].calls|
    requires r[i].calls[c].req.PutRequest? && r[i].calls[c].result.Some?
    requires Honest(r[i].calls[c]) || r[i].calls[c].result.value.err in {OK, ErrVersion}
    ensures c < |r[j].calls| && !Endangers(r[j], c, a)
  {
    RunInv(r, j);
    RunContinues(r, i, j);
    assert CallContinues(r[i], r[j], c) && CallOk(r[j], c) && WaitingOk(r[j], a);
    var req := r[j].calls[c].req;
    PutEffect(r[j].store, req.key, req.value, req.version);
  }

  lemma PathJoin(p: seq<Sys>, s: Sys)
    requires Path(p) && Next(p[|p| - 1], s)
    ensures Path(p + [s])
  {
    var q := p + [s];
    forall i | 0 < i < |q| ensures Follow(q, i) {
      if i < |p| { assert Follow(p, i); }
    }
  }

  lemma PathJoin2(p: seq<Sys>, s: Sys, t: Sys)
    requires Path(p) && Next(p[|p| - 1], s) && Next(s, t)
    ensures Path(p + [s, t])
  {
    PathJoin(p, s);
    PathJoin(p + [s], t);
    assert p + [s] + [t] == p + [s, t];
  }

  lemma PathJoin4(p: seq<Sys>, s: Sys, t: Sys, u: Sys, v: Sys)
    requires Path(p) && Next(p[|p| - 1], s) && Next(s, t) && Next(t, u) && Next(u, v)
    ensures Path(p + [s, t, u, v])
  {
    PathJoin2(p, s, t);
    PathJoin2(p + [s, t], u, v);
    assert p + [s, t] + [u, v] == p + [s, t, u, v];
  }

  /** Another client's Put can raise a key's version by one, whatever is on the way. */
  lemma RaiseOne(s: Sys, key: Key) returns (t: Sys, u: Sys)
    requires Positive(s.store)
    ensures Next(s, t) && Next(t, u)
    ensures Positive(u.store) && Version(u.store, key) == Version(s.store, key) + 1
    ensures |s.calls| <= |u.calls| && u.calls[..|s.calls|] == s.calls
    ensures forall a :: a in s.waiting && a.call < |s.calls| ==> a in u.waiting
  {
    var n := Version(s.store, key);
    var req, b := PutRequest(key, "", n), Attempt(|s.calls|, 0);
    t := Invoke(s, req);
    assert b in t.waiting && b.call < |t.calls|;
    u := Serve(t, b);
    PutEffect(s.store, key, "", n);
  }

  /** The state s was followed by t: the calls of s are as they were, and a is still on the way. */
  ghost predicate Waits(s: Sys, t: Sys, a: Attempt) {
    |s.calls| <= |t.calls| && t.calls[..|s.calls|] == s.calls && a in t.waiting && a.call < |s.calls|
  }

  lemma RaiseOnPath(p: seq<Sys>, key: Key, a: Attempt) returns (q: seq<Sys>)
    requires Path(p) && Positive(p[|p| - 1].store) && Waits(p[|p| - 1], p[|p| - 1], a)
    ensures Path(q) && p <= q && Waits(p[|p| - 1], q[|q| - 1], a)
    ensures Positive(q[|q| - 1].store) && Version(q[|q| - 1].store, key) == Version(p[|p| - 1].store, key) + 1
  {
    var t, u := RaiseOne(p[|p| - 1], key);
    PathJoin2(p, t, u);
    q := p + [t, u];
  }

  lemma WaitsTrans(s: Sys, t: Sys, u: Sys, a: Attempt)
    requires Waits(s, t, a) && Waits(t, u, a)
    ensures Waits(s, u, a) && Waits(t, t, a)
  {
    assert u.calls[..|s.calls|] == u.calls[..|t.calls|][..|s.calls|];
  }

  /** Other clients can bring a key to any higher version, one Put at a time. */
  lemma {:induction false} RaiseTo(p: seq<Sys>, key: Key, v: nat, a: Attempt) returns (q: seq<Sys>)
    requires Path(p) && Positive(p[|p| - 1].store) && Version(p[|p| - 1].store, key) <= v
    requires Waits(p[|p| - 1], p[|p| - 1], a)
    ensures Path(q) && p <= q && Waits(p[|p| - 1], q[|q| - 1], a)
    ensures Positive(q[|q| - 1].store) && Version(q[|q| - 1].store, key) == v
    decreases v - Version(p[|p| - 1].store, key)
  {
    q := p;
    if Version(p[|p| - 1].store, key) < v {
      var p2 := RaiseOnPath(p, key, a);
      assert Waits(p2[|p2| - 1], p2[|p2| - 1], a);
      q := RaiseTo(p2, key, v, a);
      WaitsTrans(p[|p| - 1], p2[|p2| - 1], q[|q| - 1], a);
    }
  }

  /** A Put naming a version not yet reached is retried, and its second RPC refused. */
  lemma EarlyRefused(s: Sys, key: Key, value: string, version: nat) returns (s1: Sys, s2: Sys, s3: Sys)
    requires Positive(s.store) && Version(s.store, key) < version
    ensures Next(s, s1) && Next(s1, s2) && Next(s2, s3) && s3.store == s.store
    ensures s1 == Invoke(s, PutRequest(key, value, version))
    ensures var c := |s.calls|;
            && |s3.calls| == c + 1 && s3.calls[..c] == s.calls && CanReturn(s3, c)
            && s3.calls[c] == s1.calls[c].(tries := 2) && Attempt(c, 0) in s3.waiting
            && s3.answers[Attempt(c, 1)].reply == PutReply(if key in s.store then ErrVersion else ErrNoKey)
  {
    var req, c := PutRequest(key, value, version), |s.calls|;
    var b := Attempt(c, 1);
    s1 := Invoke(s, req);
    s2 := Retry(s1, c);
    assert b in s2.waiting && b.call < |s2.calls|;
    s3 := Serve(s2, b);
    PutEffect(s.store, key, value, version);
  }

  /** It then returns with its first RPC unserved. */
  lemma EarlyStates(s: Sys, key: Key, value: string, version: nat) returns (s1: Sys, s2: Sys, s3: Sys, s4: Sys)
    requires Positive(s.store) && Version(s.store, key) < version
    ensures Next(s, s1) && Next(s1, s2) && Next(s2, s3) && Next(s3, s4) && s4.store == s.store
    ensures s1 == Invoke(s, PutRequest(key, value, version))
    ensures EarlyReturned(s, s4, key, value, version)
  {
    s1, s2, s3 := EarlyRefused(s, key, value, version);
    s4 := Return(s3, |s.calls|);
  }

  ghost predicate EarlyReturned(s: Sys, t: Sys, key: Key, value: string, version: nat) {
    var c := |s.calls|;
    && |t.calls| == c + 1 && t.calls[..c] == s.calls
    && t.calls[c].req == PutRequest(key, value, version) && !Honest(t.calls[c])
    && t.calls[c].result == Some(PutReply(if key in s.store then ErrMaybe else ErrNoKey))
    && Waits(t, t, Attempt(c, 0))
  }

  lemma EarlyReturn(p: seq<Sys>, key: Key, value: string, version: nat) returns (q: seq<Sys>)
    requires Path(p) && Positive(p[|p| - 1].store) && Version(p[|p| - 1].store, key) < version
    ensures Path(q) && |q| == |p| + 4 && p <= q && q[|p|] == Invoke(p[|p| - 1], PutRequest(key, value, version))
    ensures q[|q| - 1].store == p[|p| - 1].store && EarlyReturned(p[|p| - 1], q[|q| - 1], key, value, version)
  {
    var s1, s2, s3, s4 := EarlyStates(p[|p| - 1], key, value, version);
    PathJoin4(p, s1, s2, s3, s4);
    q := p + [s1, s2, s3, s4];
  }

  /**
   The condition of LeftoverHarmless is needed: from any state, a Put that names a version the key has
   not reached can return (ErrMaybe, or ErrNoKey for an absent key) and later still write.
   */
  lemma LeftoverHarmful(s: Sys, key: Key, value: string, version: nat) returns (q: seq<Sys>, j: nat, a: Attempt)
    requires SInv(s) && Version(s.store, key) < version
    ensures Path(q) && q[0] == s && 0 < j < |q|
    ensures var c := |s.calls|;
            && c < |q[j].calls| && q[j].calls[c].req == PutRequest(key, value, version) && !Honest(q[j].calls[c])
            && q[j].calls[c].result == Some(PutReply(if key in s.store then ErrMaybe else ErrNoKey))
            && c < |q[|q| - 1].calls| && Endangers(q[|q| - 1], c, a)
  {
    var c := |s.calls|;
    var p := EarlyReturn([s], key, value, version);
    j, a := 4, Attempt(c, 0);
    q := RaiseTo(p, key, version, a);
    assert q[0] == p[0] && q[4] == p[4];
    var t := q[|q| - 1];
    assert t.calls[c] == t.calls[..|p[4].calls|][c];
    PutEffect(t.store, key, value, version);
  }

  // ---------------------------------------------------------------- which versions a caller may name

  /** A call sees the key's version as it then is, which is no lower than it was before. */
  lemma {:induction false} SeenLater(r: seq<Sys>, i: nat, j: nat, d: nat)
    requires Run(r) && i <= j < |r| && |r[i].calls| <= d < |r[j].calls|
    ensures Version(r[i].store, r[j].calls[d].req.key) <= r[j].calls[d].seen
    decreases j
  {
    if i < j {
      assert Follow(r, j);
      RunContinues(r, j - 1, j);
      if d < |r[j - 1].calls| {
        SeenLater(r, i, j - 1, d);
        assert CallContinues(r[j - 1], r[j], d);
      } else {
        RunContinues(r, i, j - 1);
      }
    }
  }

  /**
   What a caller can go by: a Put is honest if its version is 0, or no greater than one that a Get on
   the key, of whatever client, had returned before the Put was called.
   */
  lemma VersionFromGetIsHonest(r: seq<Sys>, i: nat, c: nat, j: nat, d: nat)
    requires Run(r) && i <= j < |r| && c < |r[i].calls| <= d < |r[j].calls|
    requires r[i].calls[c].req.GetRequest? && r[i].calls[c].result.Some?
    requires r[j].calls[d].req.PutRequest? && r[j].calls[d].req.key == r[i].calls[c].req.key
    ensures r[i].calls[c].result.value.GetReply?
    ensures r[j].calls[d].req.version <= r[i].calls[c].result.value.version ==> Honest(r[j].calls[d])
    ensures r[j].calls[d].req.version == 0 ==> Honest(r[j].calls[d])
  {
    RunInv(r, i);
    assert CallOk(r[i], c);
    SeenLater(r, i, j, d);
  }

  // ---------------------------------------------------------------- linearizability

  /** Every Put on the key names a version the key had reached. */
  ghost predicate AllHonest(s: Sys, key: Key) {
    forall c :: 0 <= c < |s.calls| && s.calls[c].req.key == key ==> Honest(s.calls[c])
  }

  /** The specification's state just before place i of the order. */
  function Before(s: Sys, i: nat, key: Key): KvState
    requires i <= |s.order|
  {
    Replay(s.order[..i], key)
  }

  ghost predicate View(s: Sys, key: Key) {
    Replay(s.order, key) == KvState(Value(s.store, key), Version(s.store, key))
  }

  /** The specification accepts the call's answer in the state at the call's place. */
  ghost predicate Accepted(s: Sys, c: nat)
    requires c < |s.calls|
  {
    var k := s.calls[c];
    && k.result.Some?
    && k.point < |s.order|
    && (k.req.GetRequest? <==> k.result.value.GetReply?)
    && Step(Before(s, k.point, k.req.key), k.req, k.result.value).0
    && (k.req.GetRequest? ==> k.result.value == Reading(Before(s, k.point, k.req.key)))
  }

  /** What a Get answers in a state of the specification: value, version, and whether there is a key at all. */
  function Reading(st: KvState): Reply {
    GetReply(st.value, st.version, if st.version == 0 then ErrNoKey else OK)
  }

  /** An event writes in the specification exactly when an RPC wrote. */
  ghost predicate EventFits(s: Sys, i: nat)
    requires i < |s.order|
  {
    var e := s.order[i];
    e.req.PutRequest? ==> (e.took <==> Before(s, i, e.req.key).version == e.req.version)
  }

  ghost predicate GetFits(s: Sys, a: Attempt, key: Key) {
    a in s.answers && a.call < |s.calls| && s.calls[a.call].req == GetRequest(key) ==>
      && s.answers[a].point <= |s.order|
      && s.answers[a].reply == Reading(Before(s, s.answers[a].point, key))
  }

  /** As far as the key is concerned, the order explains the store and all answers. */
  ghost predicate LInv(s: Sys, key: Key) {
    && View(s, key)
    && (forall i :: 0 <= i < |s.order| && s.order[i].req.key == key ==> EventFits(s, i))
    && (forall a :: GetFits(s, a, key))
    && (forall c :: 0 <= c < |s.calls| && s.calls[c].result.Some? && s.calls[c].req.key == key ==> Accepted(s, c))
  }

  /** An order with at most one more event has the same states before all the old places. */
  lemma BeforeSame(s: Sys, s': Sys, i: nat, key: Key)
    requires |s.order| <= |s'.order| && s'.order[..|s.order|] == s.order && i <= |s.order|
    ensures Before(s', i, key) == Before(s, i, key)
  {
    assert s'.order[..i] == s.order[..i];
  }

  lemma ReplayOne(order: seq<Event>, e: Event, key: Key)
    ensures Replay(order + [e], key) ==
              if e.req.key == key then After(Replay(order, key), e.req) else Replay(order, key)
  {
    assert (order + [e])[..|order|] == order;
  }

  lemma ServeFits(s: Sys, a: Attempt, key: Key)
    requires SInv(s) && LInv(s, key) && AllHonest(s, key) && a in s.waiting && a.call < |s.calls|
    ensures LInv(Serve(s, a), key)
  {
    var s', k := Serve(s, a), s.calls[a.call];
    var e := Event(a.call, k.req, Takes(s.store, k.req));
    ServeOk(s, a);
    if k.req.PutRequest? { PutEffect(s.store, k.req.key, k.req.value, k.req.version); }
    ReplayOne(s.order, e, key);
    forall i | 0 <= i < |s'.order| && s'.order[i].req.key == key ensures EventFits(s', i) {
      BeforeSame(s, s', i, key);
      if i < |s.order| {
        assert EventFits(s, i);
      } else {
        assert s.order[..i] == s.order;
      }
    }
    forall b ensures GetFits(s', b, key) {
      assert GetFits(s, b, key) && AnswerOk(s, b);
      if b == a && k.req == GetRequest(key) {
        assert s'.order[..|s.order|] == s.order;
      } else if b in s.answers && s.calls[b.call].req == GetRequest(key) {
        BeforeSame(s, s', s.answers[b].point, key);
      }
    }
    forall c | 0 <= c < |s'.calls| && s'.calls[c].result.Some? && s'.calls[c].req.key == key ensures Accepted(s', c) {
      AcceptedStays(s, s', c);
    }
  }

  lemma AcceptedStays(s: Sys, s': Sys, c: nat)
    requires Continues(s, s') && c < |s.calls| && Honest(s.calls[c]) && s.calls[c].result.Some? && Accepted(s, c)
    ensures Accepted(s', c)
  {
    assert CallContinues(s, s', c);
    BeforeSame(s, s', s.calls[c].point, s.calls[c].req.key);
  }

  /** A step that adds no event, answer, write or result keeps the fit. */
  lemma QuietFits(s: Sys, s': Sys, key: Key)
    requires SInv(s) && LInv(s, key) && AllHonest(s, key) && Continues(s, s')
    requires s'.order == s.order && s'.store == s.store && s'.answers == s.answers
    requires forall c :: |s.calls| <= c < |s'.calls| ==> s'.calls[c].result.None?
    requires forall c :: 0 <= c < |s.calls| && s.calls[c].result.None? ==> s'.calls[c].result.None?
    ensures LInv(s', key)
  {
    forall i | 0 <= i < |s'.order| && s'.order[i].req.key == key ensures EventFits(s', i) { assert EventFits(s, i); }
    forall a ensures GetFits(s', a, key) {
      assert GetFits(s, a, key) && AnswerOk(s, a);
      assert a in s.answers ==> CallContinues(s, s', a.call);
    }
    forall c | 0 <= c < |s'.calls| && s'.calls[c].result.Some? && s'.calls[c].req.key == key ensures Accepted(s', c) {
      assert CallContinues(s, s', c);
      AcceptedStays(s, s', c);
    }
  }

  /** The call that returns is answered as the specification allows at its place. */
  lemma ReturnAccepted(s: Sys, c: nat, key: Key)
    requires SInv(s) && LInv(s, key) && CanReturn(s, c) && Honest(s.calls[c]) && s.calls[c].req.key == key
    ensures Accepted(Return(s, c), c)
  {
    var s', k := Return(s, c), s.calls[c];
    var a := Attempt(c, k.tries - 1);
    assert CallOk(s, c) && AnswerOk(s, a) && GetFits(s, a, key);
    BeforeSame(s, s', |s.order|, key);
    assert s.order[..|s.order|] == s.order;
    if k.req.GetRequest? {
      BeforeSame(s, s', s.answers[a].point, key);
    } else if k.took {
      BeforeSame(s, s', k.point, key);
      assert EventFits(s, k.point);
    }
  }

  lemma ReturnFits(s: Sys, c: nat, key: Key)
    requires SInv(s) && LInv(s, key) && AllHonest(s, key) && CanReturn(s, c)
    ensures LInv(Return(s, c), key)
  {
    var s', k := Return(s, c), s.calls[c];
    var e := Event(c, k.req, false);
    ReturnOk(s, c);
    if k.req.key == key { ReturnAccepted(s, c, key); }
    assert AnswerOk(s, Attempt(c, k.tries - 1)) && CallOk(s, c);
    assert s.order[..|s.order|] == s.order;
    ReplayOne(s.order, e, key);
    forall i | 0 <= i < |s'.order| && s'.order[i].req.key == key ensures EventFits(s', i) {
      BeforeSame(s, s', i, key);
      assert i < |s.order| ==> EventFits(s, i);
    }
    forall b ensures GetFits(s', b, key) {
      assert GetFits(s, b, key) && AnswerOk(s, b);
      if b in s.answers && s.calls[b.call].req == GetRequest(key) {
        BeforeSame(s, s', s.answers[b].point, key);
      }
    }
    forall x | 0 <= x < |s'.calls| && s'.calls[x].result.Some? && s'.calls[x].req.key == key ensures Accepted(s', x) {
      if x != c { AcceptedStays(s, s', x); }
    }
  }

  /** Calls keep what makes them honest, so an honest history was honest before. */
  lemma HonestBefore(s: Sys, s': Sys, key: Key)
    requires Continues(s, s') && AllHonest(s', key)
    ensures AllHonest(s, key)
  {
    forall c | 0 <= c < |s.calls| && s.calls[c].req.key == key ensures Honest(s.calls[c]) {
      assert CallContinues(s, s', c) && Honest(s'.calls[c]);
    }
  }

  lemma NextFits(s: Sys, s': Sys, key: Key)
    requires SInv(s) && LInv(s, key) && AllHonest(s, key) && Next(s, s')
    ensures LInv(s', key)
  {
    NextOk(s, s');
    if InvokeStep(s, s') {
      QuietFits(s, s', key);
    } else if RetryStep(s, s') {
      QuietFits(s, s', key);
    } else if ServeStep(s, s') {
      var a :| a in s.waiting && a.call < |s.calls| && s' == Serve(s, a);
      ServeFits(s, a, key);
    } else {
      var c: nat :| CanReturn(s, c) && s' == Return(s, c);
      ReturnFits(s, c, key);
    }
  }

  lemma {:induction false} RunFits(r: seq<Sys>, i: nat, key: Key)
    requires Run(r) && i < |r| && AllHonest(r[i], key)
    ensures LInv(r[i], key)
  {
    if i > 0 {
      RunInv(r, i - 1);
      assert Follow(r, i);
      NextOk(r[i - 1], r[i]);
      HonestBefore(r[i - 1], r[i], key);
      RunFits(r, i - 1, key);
      NextFits(r[i - 1], r[i], key);
    }
  }

  /**
   Linearizability, key by key: when every Put on a key names a version the key had reached, each
   returned call on it has a place in one order, its own and no earlier than its call, where KvModel
   accepts its answer.
   */
  lemma Linearizable(r: seq<Sys>, i: nat, key: Key, c: nat, d: nat)
    requires Run(r) && i < |r| && AllHonest(r[i], key)
    requires c < |r[i].calls| && r[i].calls[c].req.key == key && r[i].calls[c].result.Some?
    requires d < |r[i].calls| && r[i].calls[d].req.key == key && r[i].calls[d].result.Some?
    ensures Placed(r[i], c) && Accepted(r[i], c)
    ensures c != d ==> r[i].calls[c].point != r[i].calls[d].point
  {
    RunInv(r, i);
    RunFits(r, i, key);
    assert CallOk(r[i], c) && CallOk(r[i], d) && Accepted(r[i], c);
  }

  /** A call is born with the order as it then is. */
  lemma {:induction false} BornLater(r: seq<Sys>, i: nat, j: nat, d: nat)
    requires Run(r) && i <= j < |r| && |r[i].calls| <= d < |r[j].calls|
    ensures |r[i].order| <= r[j].calls[d].born
    decreases j
  {
    if i < j {
      assert Follow(r, j);
      RunContinues(r, j - 1, j);
      if d < |r[j - 1].calls| {
        BornLater(r, i, j - 1, d);
        assert CallContinues(r[j - 1], r[j], d);
      } else {
        RunContinues(r, i, j - 1);
      }
    }
  }

  /** A call that has returned stands before every call made after that, returned or not, if it has a place. */
  lemma RealTimeOrder(r: seq<Sys>, i: nat, j: nat, c: nat, d: nat)
    requires Run(r) && i <= j < |r|
    requires c < |r[i].calls| <= d < |r[j].calls| && r[i].calls[c].result.Some?
    requires r[j].calls[d].result.Some? || r[j].calls[d].took
    requires Honest(r[i].calls[c]) && Honest(r[j].calls[d])
    ensures c < |r[j].calls| && r[j].calls[c].point < r[j].calls[d].point
  {
    RunContinues(r, i, j);
    assert CallContinues(r[i], r[j], c);
    RunInv(r, i);
    RunInv(r, j);
    BornLater(r, i, j, d);
    assert CallOk(r[i], c) && CallOk(r[j], d);
  }

  /** A returned Get answers exactly the value and version of the key at its place, and ErrNoKey at version 0. */
  lemma GetReadsItsPlace(r: seq<Sys>, i: nat, key: Key, c: nat)
    requires Run(r) && i < |r| && AllHonest(r[i], key)
    requires c < |r[i].calls| && r[i].calls[c].req == GetRequest(key) && r[i].calls[c].result.Some?
    ensures r[i].calls[c].point <= |r[i].order|
    ensures var st := Before(r[i], r[i].calls[c].point, key);
            r[i].calls[c].result.value == GetReply(st.value, st.version, if st.version == 0 then ErrNoKey else OK)
  {
    RunFits(r, i, key);
    assert Accepted(r[i], c);
  }

  /** Step m serves a Put that writes on the key. */
  ghost predicate Writes(r: seq<Sys>, m: nat, key: Key) {
    0 < m < |r| && exists b :: b in r[m - 1].waiting && b.call < |r[m - 1].calls| && r[m] == Serve(r[m - 1], b)
                                && r[m - 1].calls[b.call].req.key == key && Takes(r[m - 1].store, r[m - 1].calls[b.call].req)
  }

  lemma UnwrittenKeeps(r: seq<Sys>, m: nat, key: Key)
    requires Run(r) && 0 < m < |r| && !Writes(r, m, key)
    ensures Version(r[m].store, key) == Version(r[m - 1].store, key)
  {
    RunInv(r, m - 1);
    assert Follow(r, m);
    var s := r[m - 1];
    if ServeStep(s, r[m]) {
      var b :| b in s.waiting && b.call < |s.calls| && r[m] == Serve(s, b);
      var req := s.calls[b.call].req;
      if req.PutRequest? { PutEffect(s.store, req.key, req.value, req.version); }
    }
  }

  /**
   Read, then write: if a Get was served and nobody has written on the key since, a Put that names the
   version it was answered is served OK and writes.
   */
  lemma {:induction false} PutAfterGet(r: seq<Sys>, k: nat, a: Attempt, j: nat, key: Key, value: string)
    requires Run(r) && 0 < k <= j < |r| && a.call < |r[k - 1].calls| && r[k - 1].calls[a.call].req == GetRequest(key)
    requires a in r[k - 1].waiting && r[k] == Serve(r[k - 1], a)
    requires forall m :: k < m <= j ==> !Writes(r, m, key)
    ensures a in r[k].answers && r[k].answers[a].reply.GetReply?
    ensures var put := PutRequest(key, value, r[k].answers[a].reply.version);
            && Answer(r[j].store, put) == PutReply(OK)
            && Version(Execute(r[j].store, put), key) == put.version + 1 && Value(Execute(r[j].store, put), key) == value
    decreases j
  {
    if k < j {
      PutAfterGet(r, k, a, j - 1, key, value);
      UnwrittenKeeps(r, j, key);
      RunInv(r, j - 1);
      PutEffect(r[j - 1].store, key, value, r[k].answers[a].reply.version);
    } else {
      RunInv(r, k - 1);
      GetEffect(r[k - 1].store, key);
    }
    RunInv(r, j);
    PutEffect(r[j].store, key, value, r[k].answers[a].reply.version);
  }

  /**
   The order holds nothing that was not called: an event that changes the specification's state is the
   write of one Put, standing at that Put's place and not before its call; and what the order leads to
   is the store.
   */
  lemma OrderIsGenuine(r: seq<Sys>, i: nat, x: nat, key: Key)
    requires Run(r) && i < |r| && AllHonest(r[i], key) && x < |r[i].order|
    requires Replay(r[i].order[..x + 1], key) != Replay(r[i].order[..x], key)
    ensures var e := r[i].order[x];
            && e.call < |r[i].calls| && e.took && e.req == r[i].calls[e.call].req && e.req.key == key
            && r[i].calls[e.call].born <= x == r[i].calls[e.call].point
    ensures Replay(r[i].order, key) == KvState(Value(r[i].store, key), Version(r[i].store, key))
  {
    RunInv(r, i);
    RunFits(r, i, key);
    var e := r[i].order[x];
    assert r[i].order[..x + 1] == r[i].order[..x] + [e];
    ReplayOne(r[i].order[..x], e, key);
    assert EventOk(r[i], x) && EventFits(r[i], x) && CallOk(r[i], e.call);
  }
}
