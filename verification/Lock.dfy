/**
 The lock of src/kvsrv1/lock/lock.go: any number of Lock objects of one name, each a client of the
 versioned store through a clerk whose requests may be lost, delayed, or served after it gave up.
 */
module Lock {
  import opened KvStore
  import opened Clerk

  const RELEASED := "release"

  /** Where Acquire or Release stands: about to Get, waiting for it, about to Put, waiting for it. */
  datatype Stage = ToGet | Getting(call: nat) | ToPut(version: nat) | Putting(call: nat, version: nat)

  datatype Phase = Rest | Acquiring(stage: Stage) | Releasing(stage: Stage)

  /** A Lock object; it is held from the return of Acquire to the call of Release. */
  datatype LockObject = LockObject(token: string, phase: Phase, held: bool)

  datatype LockSys = LockSys(sys: Sys, name: Key, locks: seq<LockObject>)

  // ---------------------------------------------------------------- steps

  function CallAcquire(l: LockObject): LockObject {
    l.(phase := Acquiring(ToGet))
  }

  function CallRelease(l: LockObject): LockObject {
    l.(phase := Releasing(ToGet), held := false)
  }

  /** Acquire, after its Get: return if the token is there, try to Put if the lock is free, else again. */
  function AcquireGot(l: LockObject, reply: Reply): LockObject
    requires reply.GetReply?
  {
    if reply.err == OK && reply.value == l.token then l.(phase := Rest, held := true)
    else if reply.err == OK && reply.value != RELEASED then l.(phase := Acquiring(ToGet))
    else if reply.err != OK && reply.err != ErrNoKey then l.(phase := Acquiring(ToGet))
    else l.(phase := Acquiring(ToPut(reply.version)))
  }

  function AcquirePut(l: LockObject, err: Err): LockObject {
    if err == OK then l.(phase := Rest, held := true) else l.(phase := Acquiring(ToGet))
  }

  /** Release, after its Get: nothing to do unless the token is there. */
  function ReleaseGot(l: LockObject, reply: Reply): LockObject
    requires reply.GetReply?
  {
    if reply.err == OK then
      if reply.value == RELEASED then l.(phase := Rest)
      else if reply.value != l.token then l.(phase := Rest)
      else l.(phase := Releasing(ToPut(reply.version)))
    else if reply.err == ErrNoKey then l.(phase := Rest)
    else l.(phase := Releasing(ToGet))
  }

  function ReleasePut(l: LockObject, err: Err): LockObject {
    if err == OK then l.(phase := Rest) else l.(phase := Releasing(ToGet))
  }

  /** The request an object about to call its clerk makes, and the stage that waits for it as call c. */
  predicate Ready(l: LockObject) {
    !l.phase.Rest? && (l.phase.stage.ToGet? || l.phase.stage.ToPut?)
  }

  function Asks(l: LockObject, name: Key): Request
    requires !l.phase.Rest?
  {
    match l.phase.stage
    case ToGet | Getting(_) => GetRequest(name)
    case ToPut(v) => PutRequest(name, if l.phase.Acquiring? then l.token else RELEASED, v)
    case Putting(_, v) => PutRequest(name, if l.phase.Acquiring? then l.token else RELEASED, v)
  }

  function Awaits(l: LockObject, c: nat): LockObject
    requires Ready(l)
  {
    var stage := match l.phase.stage case ToGet => Getting(c) case ToPut(v) => Putting(c, v);
    l.(phase := if l.phase.Acquiring? then Acquiring(stage) else Releasing(stage))
  }

  predicate Waiting(l: LockObject) {
    !l.phase.Rest? && (l.phase.stage.Getting? || l.phase.stage.Putting?)
  }

  /** The object goes on with what its clerk returned. */
  function Resumes(l: LockObject, reply: Reply): LockObject
    requires Waiting(l) && (l.phase.stage.Getting? <==> reply.GetReply?)
  {
    if l.phase.Acquiring? then
      if reply.GetReply? then AcquireGot(l, reply) else AcquirePut(l, reply.err)
    else if reply.GetReply? then ReleaseGot(l, reply)
    else ReleasePut(l, reply.err)
  }

  ghost predicate UserStep(t: LockSys, t': LockSys, i: nat) {
    && i < |t.locks| && t.locks[i].phase.Rest?
    && (|| t' == t.(locks := t.locks[i := CallAcquire(t.locks[i])])
        || t' == t.(locks := t.locks[i := CallRelease(t.locks[i])]))
  }

  ghost predicate AskStep(t: LockSys, t': LockSys, i: nat) {
    && i < |t.locks| && Ready(t.locks[i])
    && t' == t.(sys := Invoke(t.sys, Asks(t.locks[i], t.name)),
                locks := t.locks[i := Awaits(t.locks[i], |t.sys.calls|)])
  }

  ghost predicate ResumeStep(t: LockSys, t': LockSys, i: nat) {
    && i < |t.locks| && Waiting(t.locks[i]) && CanReturn(t.sys, t.locks[i].phase.stage.call)
    && var s := Return(t.sys, t.locks[i].phase.stage.call);
       var reply := s.calls[t.locks[i].phase.stage.call].result.value;
       && (t.locks[i].phase.stage.Getting? <==> reply.GetReply?)
       && t' == t.(sys := s, locks := t.locks[i := Resumes(t.locks[i], reply)])
  }

  ghost predicate OtherCalls(t: LockSys, t': LockSys) {
    exists req: Request :: req.key != t.name && t' == t.(sys := Invoke(t.sys, req))
  }

  ghost predicate Retries(t: LockSys, t': LockSys) {
    exists c: nat :: c < |t.sys.calls| && t.sys.calls[c].result.None? && t' == t.(sys := Retry(t.sys, c))
  }

  ghost predicate Serves(t: LockSys, t': LockSys) {
    exists a :: a in t.sys.waiting && a.call < |t.sys.calls| && t' == t.(sys := Serve(t.sys, a))
  }

  ghost predicate OtherReturns(t: LockSys, t': LockSys) {
    exists c: nat :: CanReturn(t.sys, c) && t.sys.calls[c].req.key != t.name && t' == t.(sys := Return(t.sys, c))
  }

  /** The network, the server, and clients of other keys. */
  ghost predicate WorldStep(t: LockSys, t': LockSys) {
    OtherCalls(t, t') || Retries(t, t') || Serves(t, t') || OtherReturns(t, t')
  }

  ghost predicate Step(t: LockSys, t': LockSys) {
    || (exists i: nat :: UserStep(t, t', i))
    || (exists i: nat :: AskStep(t, t', i))
    || (exists i: nat :: ResumeStep(t, t', i))
    || WorldStep(t, t')
  }

  /** Tokens of eight letters, no two alike. */
  ghost predicate Tokens(locks: seq<LockObject>) {
    && (forall i :: 0 <= i < |locks| ==> |locks[i].token| == 8)
    && (forall i, j :: 0 <= i < j < |locks| ==> locks[i].token != locks[j].token)
  }

  ghost predicate Start(t: LockSys) {
    && t.sys == START
    && Tokens(t.locks)
    && forall i :: 0 <= i < |t.locks| ==> t.locks[i].phase.Rest? && !t.locks[i].held
  }

  // ---------------------------------------------------------------- invariant

  /** Call c is the one that object i waits for. */
  ghost predicate Owns(t: LockSys, i: nat, c: nat) {
    i < |t.locks| && Waiting(t.locks[i]) && t.locks[i].phase.stage.call == c
  }

  /** A call on the lock's key is honest, and has returned unless some object waits for it. */
  ghost predicate KeyCallOk(t: LockSys, c: nat)
    requires c < |t.sys.calls|
  {
    t.sys.calls[c].req.key == t.name ==>
      && Honest(t.sys.calls[c])
      && (t.sys.calls[c].result.None? ==> exists i: nat :: Owns(t, i, c))
  }

  /** What object i waits for is its own open call. */
  ghost predicate WaitOk(t: LockSys, i: nat)
    requires i < |t.locks|
  {
    var l := t.locks[i];
    Waiting(l) ==>
      && l.phase.stage.call < |t.sys.calls|
      && t.sys.calls[l.phase.stage.call].result.None?
      && t.sys.calls[l.phase.stage.call].req == Asks(l, t.name)
  }

  ghost predicate Apart(t: LockSys, i: nat, j: nat) {
    i < |t.locks| && j < |t.locks| && i != j && Waiting(t.locks[i]) && Waiting(t.locks[j]) ==>
      t.locks[i].phase.stage.call != t.locks[j].phase.stage.call
  }

  /** A version the object is to Put with: if it is still the key's, the value is the one it saw. */
  ghost predicate PlanOk(t: LockSys, i: nat)
    requires i < |t.locks|
  {
    var l := t.locks[i];
    !l.phase.Rest? && (l.phase.stage.ToPut? || l.phase.stage.Putting?) ==>
      && l.phase.stage.version <= Version(t.sys.store, t.name)
      && (l.phase.stage.version == Version(t.sys.store, t.name) ==>
            if l.phase.Acquiring? then Value(t.sys.store, t.name) == RELEASED || Version(t.sys.store, t.name) == 0
            else Value(t.sys.store, t.name) == l.token)
  }

  /** Attempt a answers the Get that object i waits for. */
  ghost predicate Saw(t: LockSys, i: nat, a: Attempt) {
    && i < |t.locks| && !t.locks[i].phase.Rest? && t.locks[i].phase.stage.Getting?
    && a in t.sys.answers && a.call == t.locks[i].phase.stage.call
  }

  ghost predicate Wrote(t: LockSys, i: nat) {
    && i < |t.locks| && !t.locks[i].phase.Rest? && t.locks[i].phase.stage.Putting?
    && t.locks[i].phase.stage.call < |t.sys.calls| && t.sys.calls[t.locks[i].phase.stage.call].took
  }

  /** The stored value is the token of object i. */
  predicate Marked(t: LockSys, i: nat)
    requires i < |t.locks|
  {
    t.name in t.sys.store && t.sys.store[t.name].value == t.locks[i].token
  }

  /** Whenever an object holds the lock, or has an answer that makes it think so, its token is stored. */
  ghost predicate ClaimOk(t: LockSys, i: nat)
    requires i < |t.locks|
  {
    var l := t.locks[i];
    && (l.held ==> Marked(t, i) && (l.phase.Rest? || (l.phase.Acquiring? && (l.phase.stage.ToGet? || l.phase.stage.Getting?))))
    && (l.phase.Acquiring? && Wrote(t, i) ==> Marked(t, i))
  }

  ghost predicate SawOk(t: LockSys, i: nat, a: Attempt) {
    Saw(t, i, a) && t.sys.answers[a].reply.GetReply? ==>
      var l, reply := t.locks[i], t.sys.answers[a].reply;
      && (l.phase.Acquiring? && reply.value == l.token ==> Marked(t, i))
      && (l.phase.Acquiring? && l.held ==> reply.err == OK && reply.value == l.token)
      && (l.phase.Releasing? && reply.value != l.token ==> !Marked(t, i))
  }

  /** An object at rest without the lock has left no token behind. */
  ghost predicate CleanOk(t: LockSys, i: nat)
    requires i < |t.locks|
  {
    var l := t.locks[i];
    && (l.phase.Rest? && !l.held ==> !Marked(t, i))
    && (l.phase.Releasing? && Wrote(t, i) ==> !Marked(t, i))
  }

  ghost predicate ObjectOk(t: LockSys, i: nat)
    requires i < |t.locks|
  {
    WaitOk(t, i) && PlanOk(t, i) && ClaimOk(t, i) && CleanOk(t, i)
  }

  ghost predicate LockInv(t: LockSys) {
    && SInv(t.sys)
    && Tokens(t.locks)
    && (forall c :: 0 <= c < |t.sys.calls| ==> KeyCallOk(t, c))
    && (forall i :: 0 <= i < |t.locks| ==> ObjectOk(t, i))
    && (forall i: nat, j: nat :: Apart(t, i, j))
    && (forall i: nat, a :: SawOk(t, i, a))
  }
}
