/** Every step of the lock protocol keeps its invariant, and what follows for the users of the lock. */
module LockSafety {
  import opened KvStore
  import opened Clerk
  import opened Lock

  // ---------------------------------------------------------------- what a step leaves alone

  /** The lock's key is as it was. */
  predicate SameKey(t: LockSys, t': LockSys) {
    && t'.name == t.name
    && (t.name in t.sys.store <==> t.name in t'.sys.store)
    && (t.name in t.sys.store ==> t'.sys.store[t.name] == t.sys.store[t.name])
  }

  /** An open call is still open, and has written only if it had. */
  predicate SameCall(t: LockSys, t': LockSys, c: nat) {
    c < |t.sys.calls| <= |t'.sys.calls| ==>
      && t'.sys.calls[c].req == t.sys.calls[c].req
      && t'.sys.calls[c].result == t.sys.calls[c].result
      && t'.sys.calls[c].took == t.sys.calls[c].took
  }

  lemma ObjectStays(t: LockSys, t': LockSys, i: nat)
    requires i < |t.locks| == |t'.locks| && t'.locks[i] == t.locks[i] && ObjectOk(t, i)
    requires SameKey(t, t') && |t.sys.calls| <= |t'.sys.calls|
    requires Waiting(t.locks[i]) ==> SameCall(t, t', t.locks[i].phase.stage.call)
    ensures ObjectOk(t', i)
  {
  }

  lemma SawStays(t: LockSys, t': LockSys, i: nat, a: Attempt)
    requires |t.locks| == |t'.locks| && (i < |t.locks| ==> t'.locks[i] == t.locks[i]) && SawOk(t, i, a)
    requires SameKey(t, t')
    requires Saw(t', i, a) ==> a in t.sys.answers && t'.sys.answers[a] == t.sys.answers[a]
    ensures SawOk(t', i, a)
  {
  }

  /** The objects wait for what they waited for, so old calls on the key are as they were. */
  lemma KeyCallStays(t: LockSys, t': LockSys, c: nat)
    requires c < |t.sys.calls| <= |t'.sys.calls| && KeyCallOk(t, c) && t'.name == t.name && t'.locks == t.locks
    requires Continues(t.sys, t'.sys) && (t'.sys.calls[c].result.None? ==> t.sys.calls[c].result.None?)
    ensures KeyCallOk(t', c)
  {
    assert CallContinues(t.sys, t'.sys, c);
    if t'.sys.calls[c].req.key == t.name && t'.sys.calls[c].result.None? {
      var i: nat :| Owns(t, i, c);
      assert Owns(t', i, c);
    }
  }

  // ---------------------------------------------------------------- the world's steps

  /** A step of the world that neither touches the key nor answers or returns a call on it. */
  lemma QuietKeeps(t: LockSys, t': LockSys)
    requires LockInv(t) && SInv(t'.sys) && Continues(t.sys, t'.sys)
    requires t' == t.(sys := t'.sys) && SameKey(t, t')
    requires forall c: nat :: c < |t.sys.calls| && t.sys.calls[c].req.key == t.name ==> SameCall(t, t', c)
    requires forall c :: |t.sys.calls| <= c < |t'.sys.calls| ==> t'.sys.calls[c].req.key != t.name
    requires forall a :: a in t'.sys.answers && a !in t.sys.answers ==>
               a.call < |t.sys.calls| && !(t.sys.calls[a.call].req == GetRequest(t.name))
    requires forall a :: a in t'.sys.answers && a in t.sys.answers ==> t'.sys.answers[a] == t.sys.answers[a]
    ensures LockInv(t')
  {
    forall c | 0 <= c < |t'.sys.calls| ensures KeyCallOk(t', c) {
      if c < |t.sys.calls| {
        assert KeyCallOk(t, c);
        if t.sys.calls[c].req.key == t.name {
          assert SameCall(t, t', c);
          KeyCallStays(t, t', c);
        } else {
          assert CallContinues(t.sys, t'.sys, c);
        }
      }
    }
    forall i | 0 <= i < |t'.locks| ensures ObjectOk(t', i) {
      assert ObjectOk(t, i);
      ObjectStays(t, t', i);
    }
    forall i: nat, j: nat ensures Apart(t', i, j) { assert Apart(t, i, j); }
    forall i: nat, a ensures SawOk(t', i, a) {
      assert SawOk(t, i, a) && (i < |t.locks| ==> ObjectOk(t, i));
      SawStays(t, t', i, a);
    }
  }

  /** A Get on the key is answered: the owner of the call now sees the key as it is. */
  lemma ServeGetKeeps(t: LockSys, t': LockSys, a: Attempt)
    requires LockInv(t) && a in t.sys.waiting && a.call < |t.sys.calls|
    requires t.sys.calls[a.call].req == GetRequest(t.name) && t' == t.(sys := Serve(t.sys, a))
    ensures LockInv(t')
  {
    ServeOk(t.sys, a);
    forall c | 0 <= c < |t'.sys.calls| ensures KeyCallOk(t', c) {
      assert KeyCallOk(t, c);
      KeyCallStays(t, t', c);
    }
    forall i | 0 <= i < |t'.locks| ensures ObjectOk(t', i) {
      assert ObjectOk(t, i);
      ObjectStays(t, t', i);
    }
    forall i: nat, j: nat ensures Apart(t', i, j) { assert Apart(t, i, j); }
    forall i: nat, b ensures SawOk(t', i, b) {
      assert SawOk(t, i, b) && (i < |t.locks| ==> ObjectOk(t, i));
      if b != a { SawStays(t, t', i, b); }
    }
  }

  /** A Put that writes on the key is the open call of one object, which saw the value it replaces. */
  lemma Writer(t: LockSys, a: Attempt) returns (j: nat)
    requires LockInv(t) && a in t.sys.waiting && a.call < |t.sys.calls|
    requires var req := t.sys.calls[a.call].req; req.key == t.name && Takes(t.sys.store, req)
    ensures Owns(t, j, a.call) && t.locks[j].phase.stage.Putting?
    ensures t.sys.calls[a.call].req == Asks(t.locks[j], t.name)
    ensures t.locks[j].phase.stage.version == Version(t.sys.store, t.name)
    ensures if t.locks[j].phase.Acquiring? then forall i :: 0 <= i < |t.locks| ==> !Marked(t, i)
            else forall i :: 0 <= i < |t.locks| && i != j ==> !Marked(t, i)
  {
    var k := t.sys.calls[a.call];
    assert KeyCallOk(t, a.call) && CallOk(t.sys, a.call);
    PutEffect(t.sys.store, k.req.key, k.req.value, k.req.version);
    j :| Owns(t, j, a.call);
    assert ObjectOk(t, j);
  }

  /** After a write by object j, no other object's token is stored, and no plan of anyone is current. */
  lemma ServePutObject(t: LockSys, t': LockSys, a: Attempt, j: nat, i: nat)
    requires LockInv(t) && a in t.sys.waiting && a.call < |t.sys.calls| && t' == t.(sys := Serve(t.sys, a))
    requires var req := t.sys.calls[a.call].req; req.key == t.name && Takes(t.sys.store, req)
    requires Owns(t, j, a.call) && t.locks[j].phase.stage.Putting?
    requires t.sys.calls[a.call].req == Asks(t.locks[j], t.name)
    requires t.locks[j].phase.stage.version == Version(t.sys.store, t.name)
    requires if t.locks[j].phase.Acquiring? then forall i :: 0 <= i < |t.locks| ==> !Marked(t, i)
             else forall i :: 0 <= i < |t.locks| && i != j ==> !Marked(t, i)
    requires i < |t.locks|
    ensures ObjectOk(t', i)
    ensures Marked(t', i) <==> i == j && t.locks[j].phase.Acquiring?
    ensures i != j ==> !Marked(t, i)
  {
    assert ObjectOk(t, i) && Apart(t, i, j);
    var k := t.sys.calls[a.call];
    PutEffect(t.sys.store, k.req.key, k.req.value, k.req.version);
    assert i < j ==> t.locks[i].token != t.locks[j].token;
    assert j < i ==> t.locks[j].token != t.locks[i].token;
  }

  lemma ServePutKeeps(t: LockSys, t': LockSys, a: Attempt)
    requires LockInv(t) && a in t.sys.waiting && a.call < |t.sys.calls| && t' == t.(sys := Serve(t.sys, a))
    requires var req := t.sys.calls[a.call].req; req.key == t.name && Takes(t.sys.store, req)
    ensures LockInv(t')
  {
    ServeOk(t.sys, a);
    var j := Writer(t, a);
    forall c | 0 <= c < |t'.sys.calls| ensures KeyCallOk(t', c) {
      assert KeyCallOk(t, c);
      KeyCallStays(t, t', c);
    }
    forall i | 0 <= i < |t'.locks| ensures ObjectOk(t', i) { ServePutObject(t, t', a, j, i); }
    forall i: nat, j: nat ensures Apart(t', i, j) { assert Apart(t, i, j); }
    forall i: nat, b ensures SawOk(t', i, b) {
      assert SawOk(t, i, b);
      if i < |t.locks| {
        assert ObjectOk(t, i);
        ServePutObject(t, t', a, j, i);
      }
    }
  }

  lemma ServeKeeps(t: LockSys, t': LockSys, a: Attempt)
    requires LockInv(t) && a in t.sys.waiting && a.call < |t.sys.calls| && t' == t.(sys := Serve(t.sys, a))
    ensures LockInv(t')
  {
    var req := t.sys.calls[a.call].req;
    ServeOk(t.sys, a);
    if req == GetRequest(t.name) {
      ServeGetKeeps(t, t', a);
    } else if req.key == t.name && Takes(t.sys.store, req) {
      ServePutKeeps(t, t', a);
    } else {
      if req.PutRequest? { PutEffect(t.sys.store, req.key, req.value, req.version); }
      assert WaitingOk(t.sys, a);
      QuietKeeps(t, t');
    }
  }

  lemma OtherKeyKeeps(t: LockSys, t': LockSys, req: Request)
    requires LockInv(t) && req.key != t.name && t' == t.(sys := Invoke(t.sys, req))
    ensures LockInv(t')
  {
    InvokeOk(t.sys, req);
    QuietKeeps(t, t');
  }

  lemma RetryKeeps(t: LockSys, t': LockSys, c: nat)
    requires LockInv(t) && c < |t.sys.calls| && t.sys.calls[c].result.None? && t' == t.(sys := Retry(t.sys, c))
    ensures LockInv(t')
  {
    RetryOk(t.sys, c);
    QuietKeeps(t, t');
  }

  lemma OtherReturnKeeps(t: LockSys, t': LockSys, c: nat)
    requires LockInv(t) && CanReturn(t.sys, c) && t.sys.calls[c].req.key != t.name && t' == t.(sys := Return(t.sys, c))
    ensures LockInv(t')
  {
    ReturnOk(t.sys, c);
    QuietKeeps(t, t');
  }

  lemma WorldKeeps(t: LockSys, t': LockSys)
    requires LockInv(t) && WorldStep(t, t')
    ensures LockInv(t')
  {
    if OtherCalls(t, t') {
      var req: Request :| req.key != t.name && t' == t.(sys := Invoke(t.sys, req));
      OtherKeyKeeps(t, t', req);
    } else if Retries(t, t') {
      var c: nat :| c < |t.sys.calls| && t.sys.calls[c].result.None? && t' == t.(sys := Retry(t.sys, c));
      RetryKeeps(t, t', c);
    } else if Serves(t, t') {
      var a :| a in t.sys.waiting && a.call < |t.sys.calls| && t' == t.(sys := Serve(t.sys, a));
      ServeKeeps(t, t', a);
    } else {
      var c: nat :| CanReturn(t.sys, c) && t.sys.calls[c].req.key != t.name && t' == t.(sys := Return(t.sys, c));
      OtherReturnKeeps(t, t', c);
    }
  }

  // ---------------------------------------------------------------- the objects' own steps

  /** Object i moves; the others, and the calls they wait for, are as they were. */
  lemma OthersKeep(t: LockSys, t': LockSys, i: nat, j: nat)
    requires LockInv(t) && i < |t.locks| == |t'.locks| && j < |t.locks| && j != i
    requires t'.locks[j] == t.locks[j] && SameKey(t, t') && |t.sys.calls| <= |t'.sys.calls|
    requires forall c: nat :: !Owns(t, i, c) ==> SameCall(t, t', c)
    ensures ObjectOk(t', j)
  {
    assert ObjectOk(t, j) && Apart(t, i, j);
    if Waiting(t.locks[j]) { assert !Owns(t, i, t.locks[j].phase.stage.call); }
    ObjectStays(t, t', j);
  }

  lemma UserKeeps(t: LockSys, t': LockSys, i: nat)
    requires LockInv(t) && UserStep(t, t', i)
    ensures LockInv(t')
  {
    assert ObjectOk(t, i);
    forall c | 0 <= c < |t'.sys.calls| ensures KeyCallOk(t', c) {
      assert KeyCallOk(t, c);
      if t.sys.calls[c].req.key == t.name && t.sys.calls[c].result.None? {
        var j: nat :| Owns(t, j, c);
        assert Owns(t', j, c);
      }
    }
    forall j | 0 <= j < |t'.locks| ensures ObjectOk(t', j) {
      if j != i { OthersKeep(t, t', i, j); }
    }
    forall j: nat, k: nat ensures Apart(t', j, k) { assert Apart(t, j, k); }
    forall j: nat, a ensures SawOk(t', j, a) { assert SawOk(t, j, a); }
  }

  lemma AskCalls(t: LockSys, t': LockSys, i: nat, c: nat)
    requires LockInv(t) && AskStep(t, t', i) && c < |t'.sys.calls|
    ensures KeyCallOk(t', c)
  {
    assert ObjectOk(t, i) && Owns(t', i, |t.sys.calls|);
    if c < |t.sys.calls| {
      assert KeyCallOk(t, c);
      if t.sys.calls[c].req.key == t.name && t.sys.calls[c].result.None? {
        var j: nat :| Owns(t, j, c);
        assert Owns(t', j, c);
      }
    }
  }

  lemma AskObject(t: LockSys, t': LockSys, i: nat, j: nat)
    requires LockInv(t) && AskStep(t, t', i) && j < |t.locks|
    ensures ObjectOk(t', j)
  {
    assert ObjectOk(t, j);
    if j != i { OthersKeep(t, t', i, j); }
  }

  lemma AskKeeps(t: LockSys, t': LockSys, i: nat)
    requires LockInv(t) && AskStep(t, t', i)
    ensures LockInv(t')
  {
    InvokeOk(t.sys, Asks(t.locks[i], t.name));
    forall c | 0 <= c < |t'.sys.calls| ensures KeyCallOk(t', c) { AskCalls(t, t', i, c); }
    forall j | 0 <= j < |t'.locks| ensures ObjectOk(t', j) { AskObject(t, t', i, j); }
    forall j: nat, k: nat ensures Apart(t', j, k) {
      assert Apart(t, j, k) && (j < |t.locks| ==> ObjectOk(t, j)) && (k < |t.locks| ==> ObjectOk(t, k));
    }
    forall j: nat, a ensures SawOk(t', j, a) {
      assert SawOk(t, j, a) && AnswerOk(t.sys, a);
    }
  }

  /** What Acquire and Release make of a Get's answer agrees with the store. */
  lemma ResumedGet(t: LockSys, t': LockSys, i: nat, a: Attempt)
    requires i < |t.locks| && ObjectOk(t, i) && Saw(t, i, a) && SawOk(t, i, a) && |t.locks[i].token| == 8
    requires a.call < |t.sys.calls| && t.sys.calls[a.call].req == GetRequest(t.name) && GetServedOk(t.sys, a)
    requires t'.name == t.name && t'.sys.store == t.sys.store && Positive(t.sys.store)
    requires t'.locks == t.locks[i := Resumes(t.locks[i], t.sys.answers[a].reply)]
    ensures ObjectOk(t', i)
  {
    var l, l' := t.locks[i], t'.locks[i];
    assert RELEASED != l.token by { assert |RELEASED| == 7; }
    assert !Waiting(l');
    assert Marked(t', i) == Marked(t, i);
    assert PlanOk(t', i);
    assert ClaimOk(t', i);
    assert CleanOk(t', i);
  }

  lemma ResumedPut(t: LockSys, t': LockSys, i: nat, err: Err)
    requires i < |t.locks| && ObjectOk(t, i) && Waiting(t.locks[i]) && t.locks[i].phase.stage.Putting?
    requires t'.name == t.name && t'.sys.store == t.sys.store
    requires err == OK ==> Wrote(t, i)
    requires t'.locks == t.locks[i := Resumes(t.locks[i], PutReply(err))]
    ensures ObjectOk(t', i)
  {
  }

  lemma ResumedOk(t: LockSys, t': LockSys, i: nat)
    requires LockInv(t) && ResumeStep(t, t', i)
    ensures ObjectOk(t', i)
  {
    var l := t.locks[i];
    var c := l.phase.stage.call;
    var k := t.sys.calls[c];
    var a := Attempt(c, k.tries - 1);
    assert ObjectOk(t, i) && CallOk(t.sys, c) && AnswerOk(t.sys, a) && SawOk(t, i, a);
    if l.phase.stage.Getting? {
      ResumedGet(t, t', i, a);
    } else {
      ResumedPut(t, t', i, t'.sys.calls[c].result.value.err);
    }
  }

  lemma ResumeCalls(t: LockSys, t': LockSys, i: nat, x: nat)
    requires LockInv(t) && ResumeStep(t, t', i) && x < |t.sys.calls|
    ensures KeyCallOk(t', x)
  {
    var c := t.locks[i].phase.stage.call;
    assert KeyCallOk(t, x);
    if x != c && t.sys.calls[x].req.key == t.name && t.sys.calls[x].result.None? {
      var j: nat :| Owns(t, j, x);
      assert Owns(t', j, x);
    }
  }

  lemma ResumeObject(t: LockSys, t': LockSys, i: nat, j: nat)
    requires LockInv(t) && ResumeStep(t, t', i) && j < |t.locks|
    ensures ObjectOk(t', j)
  {
    if j == i { ResumedOk(t, t', i); } else { OthersKeep(t, t', i, j); }
  }

  lemma ResumeSaw(t: LockSys, t': LockSys, i: nat, j: nat, a: Attempt)
    requires LockInv(t) && ResumeStep(t, t', i)
    ensures SawOk(t', j, a)
  {
    assert SawOk(t, j, a);
    assert !Waiting(t'.locks[i]);
  }

  lemma ResumeKeeps(t: LockSys, t': LockSys, i: nat)
    requires LockInv(t) && ResumeStep(t, t', i)
    ensures LockInv(t')
  {
    ReturnOk(t.sys, t.locks[i].phase.stage.call);
    forall x | 0 <= x < |t'.sys.calls| ensures KeyCallOk(t', x) { ResumeCalls(t, t', i, x); }
    forall j | 0 <= j < |t'.locks| ensures ObjectOk(t', j) { ResumeObject(t, t', i, j); }
    forall j: nat, k: nat ensures Apart(t', j, k) { assert Apart(t, j, k) && !Waiting(t'.locks[i]); }
    forall j: nat, a ensures SawOk(t', j, a) { ResumeSaw(t, t', i, j, a); }
  }

  lemma StepKeeps(t: LockSys, t': LockSys)
    requires LockInv(t) && Step(t, t')
    ensures LockInv(t')
  {
    if i: nat :| UserStep(t, t', i) { UserKeeps(t, t', i); }
    else if i: nat :| AskStep(t, t', i) { AskKeeps(t, t', i); }
    else if i: nat :| ResumeStep(t, t', i) { ResumeKeeps(t, t', i); }
    else { WorldKeeps(t, t'); }
  }

  // ---------------------------------------------------------------- whole runs

  ghost predicate Run(r: seq<LockSys>) {
    |r| > 0 && Start(r[0]) && forall n :: 0 < n < |r| ==> Follow(r, n)
  }

  ghost predicate Follow(r: seq<LockSys>, n: int)
    requires 0 < n < |r|
  {
    Step(r[n - 1], r[n])
  }

  lemma {:induction false} RunInv(r: seq<LockSys>, n: nat)
    requires Run(r) && n < |r|
    ensures LockInv(r[n])
  {
    if n > 0 {
      RunInv(r, n - 1);
      assert Follow(r, n);
      StepKeeps(r[n - 1], r[n]);
    }
  }

  /** At most one object holds the lock, and the stored value is then its token. */
  lemma MutualExclusion(r: seq<LockSys>, n: nat, i: nat, j: nat)
    requires Run(r) && n < |r| && i < |r[n].locks| && j < |r[n].locks|
    requires r[n].locks[i].held && r[n].locks[j].held
    ensures i == j && Marked(r[n], i)
  {
    RunInv(r, n);
    assert ObjectOk(r[n], i) && ObjectOk(r[n], j);
  }

  /** Once Release has returned, the stored value is not the object's token: another can acquire. */
  lemma ReleaseReleases(r: seq<LockSys>, n: nat, i: nat)
    requires Run(r) && n < |r| && i < |r[n].locks| && r[n].locks[i].phase.Rest?
    ensures r[n].locks[i].held <==> Marked(r[n], i)
  {
    RunInv(r, n);
    assert ObjectOk(r[n], i);
  }

  // ---------------------------------------------------------------- a lock can be had

  ghost predicate Steps(p: seq<LockSys>) {
    |p| > 0 && forall n :: 0 < n < |p| ==> Follow(p, n)
  }

  lemma StepsJoin(p: seq<LockSys>, t: LockSys)
    requires Steps(p) && Step(p[|p| - 1], t)
    ensures Steps(p + [t])
  {
    var q := p + [t];
    forall n | 0 < n < |q| ensures Follow(q, n) {
      if n < |p| { assert Follow(p, n); }
    }
  }

  /** t is t0 with a remote call of object i made, served and answered. */
  ghost predicate AskedAtOnce(t0: LockSys, i: nat, t: LockSys) {
    && i < |t0.locks| && Ready(t0.locks[i]) && t.name == t0.name
    && var req, l := Asks(t0.locks[i], t0.name), Awaits(t0.locks[i], |t0.sys.calls|);
       && t.sys.store == Execute(t0.sys.store, req)
       && t.locks == t0.locks[i := Resumes(l, Answer(t0.sys.store, req))]
  }

  /** An object about to call its clerk can have the call served and answered at once. */
  lemma AskAtOnce(t0: LockSys, i: nat) returns (t1: LockSys, t2: LockSys, t: LockSys)
    requires i < |t0.locks| && Ready(t0.locks[i])
    ensures Step(t0, t1) && Step(t1, t2) && Step(t2, t) && AskedAtOnce(t0, i, t)
  {
    var c := |t0.sys.calls|;
    var req, a := Asks(t0.locks[i], t0.name), Attempt(c, 0);
    t1 := t0.(sys := Invoke(t0.sys, req), locks := t0.locks[i := Awaits(t0.locks[i], c)]);
    assert AskStep(t0, t1, i);
    assert a in t1.sys.waiting && a.call < |t1.sys.calls|;
    t2 := t1.(sys := Serve(t1.sys, a));
    assert Serves(t1, t2) && WorldStep(t1, t2);
    assert CanReturn(t2.sys, c);
    var s := Return(t2.sys, c);
    t := t2.(sys := s, locks := t2.locks[i := Resumes(t2.locks[i], s.calls[c].result.value)]);
    assert ResumeStep(t2, t, i);
  }

  lemma AskOnPath(p: seq<LockSys>, i: nat) returns (q: seq<LockSys>)
    requires Steps(p) && i < |p[|p| - 1].locks| && Ready(p[|p| - 1].locks[i])
    ensures Steps(q) && p <= q && AskedAtOnce(p[|p| - 1], i, q[|q| - 1])
  {
    var t1, t2, t := AskAtOnce(p[|p| - 1], i);
    StepsJoin(p, t1);
    StepsJoin(p + [t1], t2);
    StepsJoin(p + [t1] + [t2], t);
    q := p + [t1] + [t2] + [t];
  }

  /** The lock is free: never taken, or given back. */
  predicate Unlocked(t: LockSys) {
    Version(t.sys.store, t.name) == 0 || Value(t.sys.store, t.name) == RELEASED
  }

  /** Whoever calls Acquire while the lock is free can get it: with its calls served, it holds the lock. */
  lemma CanAcquire(t: LockSys, i: nat) returns (q: seq<LockSys>)
    requires LockInv(t) && i < |t.locks| && t.locks[i].phase.Rest? && Unlocked(t)
    ensures Steps(q) && q[0] == t && |q[|q| - 1].locks| == |t.locks|
    ensures q[|q| - 1].locks[i].held && q[|q| - 1].locks[i].phase.Rest? && Marked(q[|q| - 1], i)
  {
    var key := t.name;
    var t1 := t.(locks := t.locks[i := CallAcquire(t.locks[i])]);
    assert UserStep(t, t1, i);
    assert Steps([t]);
    StepsJoin([t], t1);
    GetEffect(t.sys.store, key);
    var p := AskOnPath([t] + [t1], i);
    var t2 := p[|p| - 1];
    assert |t.locks[i].token| == 8 && |RELEASED| == 7;
    assert t2.locks[i].phase == Acquiring(ToPut(Version(t.sys.store, key)));
    PutEffect(t.sys.store, key, t.locks[i].token, Version(t.sys.store, key));
    q := AskOnPath(p, i);
    assert q[0] == p[0];
  }

  /** Whoever holds the lock can give it back: with its calls served, the lock is free and it at rest. */
  lemma CanRelease(t: LockSys, i: nat) returns (q: seq<LockSys>)
    requires LockInv(t) && i < |t.locks| && t.locks[i].phase.Rest? && t.locks[i].held
    ensures Steps(q) && q[0] == t && |q[|q| - 1].locks| == |t.locks|
    ensures !q[|q| - 1].locks[i].held && q[|q| - 1].locks[i].phase.Rest? && Unlocked(q[|q| - 1])
  {
    var key := t.name;
    assert ObjectOk(t, i);
    var t1 := t.(locks := t.locks[i := CallRelease(t.locks[i])]);
    assert UserStep(t, t1, i);
    assert Steps([t]);
    StepsJoin([t], t1);
    GetEffect(t.sys.store, key);
    var p := AskOnPath([t] + [t1], i);
    var t2 := p[|p| - 1];
    assert |t.locks[i].token| == 8 && |RELEASED| == 7;
    assert t2.locks[i].phase == Releasing(ToPut(Version(t.sys.store, key)));
    PutEffect(t.sys.store, key, RELEASED, Version(t.sys.store, key));
    q := AskOnPath(p, i);
    assert q[0] == p[0];
  }

  /** An Acquire that finds its token stored, put there by a call it heard no answer to or held all along, ends. */
  lemma TokenSeenAcquires(t: LockSys, i: nat) returns (q: seq<LockSys>)
    requires LockInv(t) && i < |t.locks| && t.locks[i].phase == Acquiring(ToGet) && Marked(t, i)
    ensures Steps(q) && q[0] == t && |q[|q| - 1].locks| == |t.locks|
    ensures q[|q| - 1].locks[i].held && q[|q| - 1].locks[i].phase.Rest? && q[|q| - 1].sys.store == t.sys.store
  {
    assert Steps([t]);
    GetEffect(t.sys.store, t.name);
    q := AskOnPath([t], i);
  }

  /** A Release that finds another's token, or none, ends and changes nothing. */
  lemma ForeignReleaseEnds(t: LockSys, i: nat) returns (q: seq<LockSys>)
    requires LockInv(t) && i < |t.locks| && t.locks[i].phase == Releasing(ToGet) && !Marked(t, i)
    ensures Steps(q) && q[0] == t && |q[|q| - 1].locks| == |t.locks|
    ensures !q[|q| - 1].locks[i].held && q[|q| - 1].locks[i].phase.Rest? && q[|q| - 1].sys.store == t.sys.store
  {
    assert ObjectOk(t, i);
    assert Steps([t]);
    GetEffect(t.sys.store, t.name);
    q := AskOnPath([t], i);
  }
}
