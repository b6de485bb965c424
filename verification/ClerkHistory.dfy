/** When the calls made of clerks on one key, with their answers, can be put in an order KvModel accepts. */
module ClerkHistory {
  import opened KvStore
  import opened KvModel
  import opened Clerk
  import opened Linearizability

  // ---------------------------------------------------------------- explanations

  /** In state j of the run, call c had returned and call d was not yet made. */
  ghost predicate ReturnedBefore(r: seq<Sys>, j: nat, c: nat, d: nat) {
    j < |r| && c < |r[j].calls| <= d && r[j].calls[c].result.Some?
  }

  ghost predicate Precedes(r: seq<Sys>, c: nat, d: nat) {
    exists j: nat :: ReturnedBefore(r, j, c, d)
  }

  ghost predicate OnKey(u: Sys, key: Key, c: nat) {
    c < |u.calls| && u.calls[c].req.key == key
  }

  ghost predicate AllOnKey(u: Sys, key: Key, ord: seq<nat>) {
    forall k :: 0 <= k < |ord| ==> OnKey(u, key, ord[k])
  }

  /** The specification's state before place k of the order. */
  ghost function StateAt(u: Sys, key: Key, ord: seq<nat>, k: nat): KvState
    requires k <= |ord| && AllOnKey(u, key, ord)
  {
    if k == 0 then INITIAL
    else
      assert OnKey(u, key, ord[k - 1]);
      After(StateAt(u, key, ord, k - 1), u.calls[ord[k - 1]].req)
  }

  /** KvModel accepts the answer of the call at place k, if it has one. */
  ghost predicate Fits(u: Sys, key: Key, ord: seq<nat>, k: nat)
    requires k < |ord| && AllOnKey(u, key, ord)
  {
    assert OnKey(u, key, ord[k]);
    var c := u.calls[ord[k]];
    c.result.Some? ==>
      && (c.req.GetRequest? <==> c.result.value.GetReply?)
      && Step(StateAt(u, key, ord, k), c.req, c.result.value).0
  }

  ghost predicate InTime(r: seq<Sys>, ord: seq<nat>, j: nat, k: nat)
    requires j < k < |ord|
  {
    ord[j] != ord[k] && !Precedes(r, ord[k], ord[j])
  }

  /**
   An explanation of a run for a key, as porcupine looks for it: calls on the key, each at most once, all
   that have returned and any of those still open, none before a call that had returned when it was
   made, such that KvModel, started afresh, accepts every answer.
   */
  ghost predicate Explains(r: seq<Sys>, key: Key, ord: seq<nat>)
    requires |r| > 0
  {
    var u := r[|r| - 1];
    && AllOnKey(u, key, ord)
    && (forall j: nat, k: nat :: j < k < |ord| ==> InTime(r, ord, j, k))
    && (forall c: nat :: OnKey(u, key, c) && u.calls[c].result.Some? ==> c in ord)
    && (forall k :: 0 <= k < |ord| ==> Fits(u, key, ord, k))
  }

  // ---------------------------------------------------------------- honest histories have one

  /** The calls on the key that have their place among the first i events. */
  ghost function Trace(u: Sys, key: Key, i: nat): seq<nat>
    requires i <= |u.order|
  {
    if i == 0 then [] else Trace(u, key, i - 1) + if Places(u, key, i - 1) then [u.order[i - 1].call] else []
  }

  ghost predicate Places(u: Sys, key: Key, i: nat)
    requires i < |u.order|
  {
    var c := u.order[i].call;
    OnKey(u, key, c) && u.calls[c].point == i && (u.calls[c].result.Some? || u.calls[c].took)
  }

  /** Place k of the order is that of its call's point, and the states there agree. */
  ghost predicate TraceAt(u: Sys, key: Key, ord: seq<nat>, i: nat, k: nat)
    requires k < |ord| && AllOnKey(u, key, ord) && i <= |u.order|
  {
    assert OnKey(u, key, ord[k]);
    var c := u.calls[ord[k]];
    && c.point < i
    && (c.result.Some? || c.took)
    && (forall j :: 0 <= j < k ==> OnKey(u, key, ord[j]) && u.calls[ord[j]].point < c.point)
    && StateAt(u, key, ord, k) == Before(u, c.point, key)
  }

  lemma {:induction false} StateAtPrefix(u: Sys, key: Key, ord: seq<nat>, more: seq<nat>, k: nat)
    requires k <= |ord| && AllOnKey(u, key, ord) && AllOnKey(u, key, ord + more)
    ensures StateAt(u, key, ord + more, k) == StateAt(u, key, ord, k)
  {
    if k > 0 { StateAtPrefix(u, key, ord, more, k - 1); }
  }

  /** An event without a place of its own changes nothing: it is an RPC of a Get. */
  lemma UnplacedIsGet(u: Sys, key: Key, i: nat)
    requires SInv(u) && AllHonest(u, key) && i < |u.order| && u.order[i].req.key == key && !Places(u, key, i)
    ensures u.order[i].req.GetRequest?
  {
    assert EventOk(u, i);
  }

  lemma {:induction false} TraceOk(u: Sys, key: Key, i: nat)
    requires SInv(u) && AllHonest(u, key) && i <= |u.order|
    ensures var ord := Trace(u, key, i);
            && AllOnKey(u, key, ord)
            && (forall k :: 0 <= k < |ord| ==> TraceAt(u, key, ord, i, k))
            && StateAt(u, key, ord, |ord|) == Before(u, i, key)
  {
    if i > 0 {
      var front, e := Trace(u, key, i - 1), u.order[i - 1];
      TraceOk(u, key, i - 1);
      assert u.order[..i] == u.order[..i - 1] + [e];
      ReplayOne(u.order[..i - 1], e, key);
      assert EventOk(u, i - 1);
      if Places(u, key, i - 1) {
        TraceGrows(u, key, front, i - 1, i);
      } else {
        if e.req.key == key { UnplacedIsGet(u, key, i - 1); }
        assert Trace(u, key, i) == front;
        forall k | 0 <= k < |front| ensures TraceAt(u, key, front, i, k) { assert TraceAt(u, key, front, i - 1, k); }
      }
    }
  }

  lemma TraceGrows(u: Sys, key: Key, front: seq<nat>, i: nat, n: nat)
    requires n == i + 1 && i < |u.order| && Places(u, key, i) && AllOnKey(u, key, front)
    requires u.order[i].req == u.calls[u.order[i].call].req
    requires forall k :: 0 <= k < |front| ==> TraceAt(u, key, front, i, k)
    requires StateAt(u, key, front, |front|) == Before(u, i, key)
    ensures var ord := front + [u.order[i].call];
            && AllOnKey(u, key, ord)
            && (forall k :: 0 <= k < |ord| ==> TraceAt(u, key, ord, n, k))
            && StateAt(u, key, ord, |ord|) == After(Before(u, i, key), u.order[i].req)
  {
    var c := u.order[i].call;
    var ord := front + [c];
    StateAtPrefix(u, key, front, [c], |front|);
    forall k | 0 <= k < |ord| ensures TraceAt(u, key, ord, n, k) {
      if k < |front| {
        assert TraceAt(u, key, front, i, k);
        StateAtPrefix(u, key, front, [c], k);
      } else {
        forall j | 0 <= j < k ensures OnKey(u, key, ord[j]) && u.calls[ord[j]].point < i {
          assert TraceAt(u, key, front, i, j) && OnKey(u, key, front[j]);
        }
      }
    }
  }

  lemma {:induction false} TraceHas(u: Sys, key: Key, i: nat, c: nat)
    requires i <= |u.order| && OnKey(u, key, c) && u.calls[c].result.Some?
    requires u.calls[c].point < i && u.order[u.calls[c].point].call == c
    ensures c in Trace(u, key, i)
  {
    if u.calls[c].point == i - 1 {
      assert Places(u, key, i - 1);
    } else {
      TraceHas(u, key, i - 1, c);
    }
  }

  /** An honest history of a key has an explanation. */
  lemma HonestIsLinearizable(r: seq<Sys>, key: Key) returns (ord: seq<nat>)
    requires Run(r) && AllHonest(r[|r| - 1], key)
    ensures Explains(r, key, ord)
  {
    var n := |r| - 1;
    var u := r[n];
    RunInv(r, n);
    RunFits(r, n, key);
    ord := Trace(u, key, |u.order|);
    TraceOk(u, key, |u.order|);
    assert TracedIn(u, key, ord);
    forall j: nat, k: nat | j < k < |ord| ensures InTime(r, ord, j, k) { TraceInTime(r, key, ord, j, k); }
    forall c: nat | OnKey(u, key, c) && u.calls[c].result.Some? ensures c in ord {
      assert CallOk(u, c);
      TraceHas(u, key, |u.order|, c);
    }
    forall k | 0 <= k < |ord| ensures Fits(u, key, ord, k) {
      assert TraceAt(u, key, ord, |u.order|, k) && OnKey(u, key, ord[k]);
      assert u.calls[ord[k]].result.Some? ==> Accepted(u, ord[k]);
    }
  }

  lemma TraceInTime(r: seq<Sys>, key: Key, ord: seq<nat>, j: nat, k: nat)
    requires Run(r) && AllHonest(r[|r| - 1], key) && j < k < |ord|
    requires TracedIn(r[|r| - 1], key, ord)
    ensures InTime(r, ord, j, k)
  {
    assert TraceAt(r[|r| - 1], key, ord, |r[|r| - 1].order|, k);
    forall i: nat ensures !ReturnedBefore(r, i, ord[k], ord[j]) { NotReturnedBefore(r, key, ord, j, k, i); }
  }

  ghost predicate TracedIn(u: Sys, key: Key, ord: seq<nat>) {
    var n := |u.order|;
    AllOnKey(u, key, ord) && forall k :: 0 <= k < |ord| ==> TraceAt(u, key, ord, n, k)
  }

  lemma NotReturnedBefore(r: seq<Sys>, key: Key, ord: seq<nat>, j: nat, k: nat, i: nat)
    requires Run(r) && AllHonest(r[|r| - 1], key) && j < k < |ord|
    requires TracedIn(r[|r| - 1], key, ord)
    ensures !ReturnedBefore(r, i, ord[k], ord[j])
  {
    var n := |r| - 1;
    var c, d := ord[k], ord[j];
    assert TraceAt(r[n], key, ord, |r[n].order|, k) && TraceAt(r[n], key, ord, |r[n].order|, j);
    assert OnKey(r[n], key, c) && OnKey(r[n], key, d);
    if ReturnedBefore(r, i, c, d) {
      RunContinues(r, i, n);
      assert CallContinues(r[i], r[n], c);
      RealTimeOrder(r, i, n, c, d);
    }
  }

  // ---------------------------------------------------------------- others need not have one

  /** A call served and answered at once. */
  lemma AtOnce(s: Sys, req: Request) returns (s1: Sys, s2: Sys, t: Sys)
    requires Positive(s.store)
    ensures Next(s, s1) && Next(s1, s2) && Next(s2, t)
    ensures AnsweredAtOnce(s, t, req)
  {
    var a := Attempt(|s.calls|, 0);
    s1 := Invoke(s, req);
    assert a in s1.waiting && a.call < |s1.calls|;
    s2 := Serve(s1, a);
    assert CanReturn(s2, a.call);
    t := Return(s2, a.call);
  }

  ghost predicate AnsweredAtOnce(s: Sys, t: Sys, req: Request) {
    && |t.calls| == |s.calls| + 1 && t.calls[..|s.calls|] == s.calls
    && t.calls[|s.calls|].req == req && t.calls[|s.calls|].result == Some(Answer(s.store, req))
    && t.store == Execute(s.store, req)
    && forall a :: a in s.waiting && a.call < |s.calls| ==> a in t.waiting
  }

  lemma CallAtOnce(p: seq<Sys>, req: Request) returns (q: seq<Sys>)
    requires Path(p) && Positive(p[|p| - 1].store)
    ensures Path(q) && |q| == |p| + 3 && p <= q && AnsweredAtOnce(p[|p| - 1], q[|q| - 1], req)
  {
    var s1, s2, t := AtOnce(p[|p| - 1], req);
    PathJoin2(p, s1, s2);
    PathJoin(p + [s1, s2], t);
    q := p + [s1, s2] + [t];
  }

  /** Call c put b on the key at a version below w, and was told OK. */
  ghost predicate Raised(u: Sys, key: Key, b: string, w: nat, c: nat)
    requires c < |u.calls|
  {
    var k := u.calls[c];
    k.req.PutRequest? && k.req == PutRequest(key, b, k.req.version) && k.req.version < w && k.result == Some(PutReply(OK))
  }

  /** All calls made between s and u did. */
  ghost predicate AllRaised(s: Sys, u: Sys, key: Key, b: string, w: nat) {
    forall c :: |s.calls| <= c < |u.calls| ==> Raised(u, key, b, w, c)
  }

  /** Others bring the key to version w by Puts that return one after the other, while a is on the way. */
  lemma {:induction false} RaiseByCalls(p: seq<Sys>, key: Key, b: string, w: nat, a: Attempt) returns (q: seq<Sys>)
    requires Path(p) && Positive(p[|p| - 1].store) && Version(p[|p| - 1].store, key) < w
    requires Waits(p[|p| - 1], p[|p| - 1], a)
    ensures Path(q) && p <= q && Waits(p[|p| - 1], q[|q| - 1], a)
    ensures Positive(q[|q| - 1].store) && Version(q[|q| - 1].store, key) == w
    ensures |p[|p| - 1].calls| < |q[|q| - 1].calls|
    ensures AllRaised(p[|p| - 1], q[|q| - 1], key, b, w)
    ensures var u := q[|q| - 1]; u.calls[|u.calls| - 1].req == PutRequest(key, b, w - 1)
    decreases w - Version(p[|p| - 1].store, key)
  {
    var s := p[|p| - 1];
    var v := Version(s.store, key);
    PutEffect(s.store, key, b, v);
    q := CallAtOnce(p, PutRequest(key, b, v));
    var t := q[|q| - 1];
    assert Waits(s, t, a) && Waits(t, t, a) && Raised(t, key, b, w, |s.calls|);
    if v + 1 < w {
      q := RaiseByCalls(q, key, b, w, a);
      var u := q[|q| - 1];
      WaitsTrans(s, t, u, a);
      assert u.calls[|s.calls|] == u.calls[..|t.calls|][|s.calls|];
    }
  }

  /**
   The shape of a history without explanation: call n put x at version w, then call m - 1 put b at the
   version before and was told OK, then call m got x; and no other Put on the key names w or more.
   */
  ghost predicate Spoiled(q: seq<Sys>, key: Key, n: nat, m: nat, x: string, b: string, w: nat)
    requires |q| > 0
  {
    var u := q[|q| - 1];
    && n + 1 < m && |u.calls| == m + 1 && w > 0
    && u.calls[n].req == PutRequest(key, x, w)
    && u.calls[m - 1].req == PutRequest(key, b, w - 1) && u.calls[m - 1].result == Some(PutReply(OK))
    && u.calls[m].req == GetRequest(key) && u.calls[m].result.Some?
    && u.calls[m].result.value.GetReply? && u.calls[m].result.value.value == x
    && (forall c :: 0 <= c < m && c != n ==> Below(u, key, w, c))
    && Precedes(q, n, m - 1) && Precedes(q, m - 1, m)
  }

  ghost predicate Below(u: Sys, key: Key, w: nat, c: nat)
    requires c < |u.calls|
  {
    u.calls[c].req.key == key && u.calls[c].req.PutRequest? ==> u.calls[c].req.version < w
  }

  /** From the Put of b on, up to the Get, the specification's state cannot change. */
  lemma {:induction false} NothingApplies(
    q: seq<Sys>, key: Key, n: nat, m: nat, x: string, b: string, w: nat, ord: seq<nat>, pl: nat, pg: nat, k: nat)
    requires |q| > 0 && Spoiled(q, key, n, m, x, b, w) && Explains(q, key, ord)
    requires pl < k <= pg < |ord| && ord[pl] == m - 1 && ord[pg] == m
    ensures StateAt(q[|q| - 1], key, ord, k) == KvState(b, w)
  {
    var u := q[|q| - 1];
    if k == pl + 1 {
      assert Fits(u, key, ord, pl);
    } else {
      NothingApplies(q, key, n, m, x, b, w, ord, pl, pg, k - 1);
      var c := ord[k - 1];
      assert InTime(q, ord, pl, k - 1) && InTime(q, ord, k - 1, pg) && OnKey(u, key, c);
      assert Below(u, key, w, c);
    }
  }

  lemma GetComesLast(
    q: seq<Sys>, key: Key, n: nat, m: nat, x: string, b: string, w: nat, ord: seq<nat>, pl: nat, pg: nat)
    requires |q| > 0 && Spoiled(q, key, n, m, x, b, w) && Explains(q, key, ord)
    requires pl < |ord| && pg < |ord| && ord[pl] == m - 1 && ord[pg] == m
    ensures pl < pg
  {
    assert pg < pl ==> InTime(q, ord, pg, pl);
  }

  /** In any explanation the Get would have to read b. */
  lemma SpoiledReads(q: seq<Sys>, key: Key, n: nat, m: nat, x: string, b: string, w: nat, ord: seq<nat>)
    requires |q| > 0 && Spoiled(q, key, n, m, x, b, w) && Explains(q, key, ord)
    ensures x == b
  {
    var u := q[|q| - 1];
    assert OnKey(u, key, m - 1) && OnKey(u, key, m);
    var pl: nat :| pl < |ord| && ord[pl] == m - 1;
    var pg: nat :| pg < |ord| && ord[pg] == m;
    GetComesLast(q, key, n, m, x, b, w, ord, pl, pg);
    NothingApplies(q, key, n, m, x, b, w, ord, pl, pg, pg);
    assert Fits(u, key, ord, pg);
  }

  /** A Put that was told ErrNoKey has no explanation either: KvModel never answers so. */
  lemma NoKeyUnexplained(q: seq<Sys>, key: Key, c: nat, ord: seq<nat>)
    requires |q| > 0 && OnKey(q[|q| - 1], key, c) && q[|q| - 1].calls[c].req.PutRequest?
    requires q[|q| - 1].calls[c].result == Some(PutReply(ErrNoKey))
    ensures !Explains(q, key, ord)
  {
    if c in ord && AllOnKey(q[|q| - 1], key, ord) {
      var k: nat :| k < |ord| && ord[k] == c;
      assert !Fits(q[|q| - 1], key, ord, k);
    }
  }

  /** All calls made after s have returned, and no Put among them was told ErrNoKey. */
  ghost predicate Answered(s: Sys, u: Sys) {
    forall c :: |s.calls| <= c < |u.calls| ==> u.calls[c].result.Some? && u.calls[c].result != Some(PutReply(ErrNoKey))
  }

  /** With the key present: the early Put, the raising Puts, the leftover and the Get. */
  lemma SpoiledRun(r: seq<Sys>, key: Key, x: string, b: string, w: nat) returns (q: seq<Sys>, m: nat)
    requires Path(r) && SInv(r[|r| - 1]) && AllHonest(r[|r| - 1], key)
    requires key in r[|r| - 1].store && Version(r[|r| - 1].store, key) < w
    ensures Path(q) && |r| < |q| && r <= q && q[|r|] == Invoke(r[|r| - 1], PutRequest(key, x, w))
    ensures Spoiled(q, key, |r[|r| - 1].calls|, m, x, b, w) && Answered(r[|r| - 1], q[|q| - 1])
  {
    var s := r[|r| - 1];
    var n := |s.calls|;
    var a := Attempt(n, 0);
    var p1 := EarlyReturn(r, key, x, w);
    var s1 := p1[|p1| - 1];
    var p2 := RaiseByCalls(p1, key, b, w, a);
    var s2 := p2[|p2| - 1];
    m := |s2.calls|;
    PutEffect(s2.store, key, x, w);
    var s3 := Serve(s2, a);
    assert s2.calls[n] == s2.calls[..n + 1][n];
    PathJoin(p2, s3);
    var p3 := p2 + [s3];
    q := CallAtOnce(p3, GetRequest(key));
    assert q[|p1| - 1] == s1 && q[|p2| - 1] == s2;
    assert s2.calls[..n + 1] == s1.calls;
    SpoiledShape(q, s, s1, s2, s3, key, x, b, w, m, |p1| - 1, |p2| - 1);
  }

  lemma SpoiledShape(
    q: seq<Sys>, s: Sys, s1: Sys, s2: Sys, s3: Sys, key: Key, x: string, b: string, w: nat, m: nat, i1: nat, i2: nat)
    requires SInv(s) && AllHonest(s, key) && Version(s.store, key) < w && key in s.store
    requires EarlyReturned(s, s1, key, x, w) && AllRaised(s1, s2, key, b, w)
    requires m == |s2.calls| > |s1.calls| && s2.calls[..|s1.calls|] == s1.calls
    requires s2.calls[m - 1].req == PutRequest(key, b, w - 1)
    requires s3 == Serve(s2, Attempt(|s.calls|, 0)) && Positive(s2.store) && Version(s2.store, key) == w
    requires i1 < |q| && i2 < |q| && q[i1] == s1 && q[i2] == s2
    requires var u := q[|q| - 1];
             && |u.calls| == m + 1 && u.calls[..m] == s3.calls
             && u.calls[m].req == GetRequest(key) && u.calls[m].result == Some(Answer(s3.store, GetRequest(key)))
    ensures Spoiled(q, key, |s.calls|, m, x, b, w) && Answered(s, q[|q| - 1])
  {
    var u, n := q[|q| - 1], |s.calls|;
    assert s2.calls[n] == s2.calls[..n + 1][n];
    PutEffect(s2.store, key, x, w);
    assert Raised(s2, key, b, w, m - 1);
    forall c | 0 <= c < m ensures u.calls[c].req == s2.calls[c].req && u.calls[c].result == s2.calls[c].result {
      assert u.calls[c] == u.calls[..m][c];
    }
    forall c | 0 <= c < m && c != n ensures Below(u, key, w, c) {
      if c < n {
        assert s2.calls[c] == s2.calls[..n + 1][c] == s1.calls[c] == s1.calls[..n][c];
        assert CallOk(s, c);
      } else {
        assert Raised(s2, key, b, w, c);
      }
    }
    forall c | n < c < m ensures u.calls[c].result == Some(PutReply(OK)) { assert Raised(s2, key, b, w, c); }
    assert ReturnedBefore(q, i1, n, m - 1) && ReturnedBefore(q, i2, m - 1, m);
  }

  /**
   One call is enough: after any run honest on the key, if the next call is a Put that names a version
   the key has not reached, the run can go on so that no order whatever explains it; and if the key was
   present, so that no Put is answered ErrNoKey.
   */
  lemma NotLinearizable(r: seq<Sys>, key: Key, x: string, w: nat) returns (q: seq<Sys>)
    requires Run(r) && AllHonest(r[|r| - 1], key) && Version(r[|r| - 1].store, key) < w
    ensures Run(q) && |r| < |q| && r <= q && q[|r|] == Invoke(r[|r| - 1], PutRequest(key, x, w))
    ensures forall ord :: !Explains(q, key, ord)
    ensures key in r[|r| - 1].store ==> Answered(r[|r| - 1], q[|q| - 1])
  {
    var s := r[|r| - 1];
    RunInv(r, |r| - 1);
    if key in s.store {
      var m;
      var b := x + "'";
      q, m := SpoiledRun(r, key, x, b, w);
      forall ord ensures !Explains(q, key, ord) {
        if Explains(q, key, ord) { SpoiledReads(q, key, |s.calls|, m, x, b, w, ord); }
      }
    } else {
      q := EarlyReturn(r, key, x, w);
      forall ord ensures !Explains(q, key, ord) { NoKeyUnexplained(q, key, |s.calls|, ord); }
    }
  }
}
