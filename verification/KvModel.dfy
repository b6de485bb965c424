/** The sequential specification of src/models1/kv.go: one key, its value and version. */
module KvModel {
  import opened KvStore

  datatype KvState = KvState(value: string, version: nat)

  const INITIAL := KvState("", 0)

  /** KvModel.Step: is the answer acceptable in this state, and which state follows? */
  function Step(st: KvState, req: Request, reply: Reply): (bool, KvState)
    requires req.GetRequest? <==> reply.GetReply?
  {
    match req
    case GetRequest(_) => (reply.value == st.value, st)
    case PutRequest(_, value, version) =>
      if st.version == version
      then (reply.err == OK || reply.err == ErrMaybe, KvState(value, st.version + 1))
      else (reply.err == ErrVersion || reply.err == ErrMaybe, st)
  }

  /** The state a request leads to; it does not depend on the answer. */
  function After(st: KvState, req: Request): (r: KvState)
    ensures forall reply: Reply :: (req.GetRequest? <==> reply.GetReply?) ==> Step(st, req, reply).1 == r
  {
    match req
    case GetRequest(_) => st
    case PutRequest(_, value, version) =>
      if st.version == version then KvState(value, st.version + 1) else st
  }
}
