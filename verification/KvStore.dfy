/** The versioned key/value store of src/kvsrv1/server.go as a value, and its requests. */
module KvStore {

  type Key = string

  datatype Element = Element(value: string, version: nat)

  type Store = map<Key, Element>

  datatype Err = OK | ErrNoKey | ErrVersion | ErrMaybe | ErrWrongLeader

  datatype Request =
    | GetRequest(key: Key)
    | PutRequest(key: Key, value: string, version: nat)

  datatype Reply =
    | GetReply(value: string, version: nat, err: Err)
    | PutReply(err: Err)

  /** The store a Put leaves behind. */
  function StoreAfterPut(store: Store, key: Key, value: string, version: nat): Store {
    if key !in store then
      if version != 0 then store else store[key := Element(value, 1)]
    else if store[key].version != version then store
    else store[key := Element(value, version + 1)]
  }

  /** The store after the replicated operation `req`: a Get changes nothing. */
  function Execute(store: Store, req: Request): Store {
    match req
    case GetRequest(_) => store
    case PutRequest(key, value, version) => StoreAfterPut(store, key, value, version)
  }

  /** What the server answers. */
  function Answer(store: Store, req: Request): Reply {
    match req
    case GetRequest(key) =>
      if key !in store then GetReply("", 0, ErrNoKey) else GetReply(store[key].value, store[key].version, OK)
    case PutRequest(key, _, version) =>
      if key !in store then PutReply(if version != 0 then ErrNoKey else OK)
      else PutReply(if store[key].version != version then ErrVersion else OK)
  }

  /** The version of a key; an absent key counts as version 0. */
  function Version(store: Store, key: Key): nat {
    if key in store then store[key].version else 0
  }

  function Value(store: Store, key: Key): string {
    if key in store then store[key].value else ""
  }

  /** Versions of present keys start at 1. */
  ghost predicate Positive(store: Store) {
    forall k :: k in store ==> store[k].version >= 1
  }

  /** A Put takes effect exactly when it names the version of the key, and is then answered OK. */
  lemma PutEffect(store: Store, key: Key, value: string, version: nat)
    requires Positive(store)
    ensures var req := PutRequest(key, value, version);
            && Positive(Execute(store, req))
            && (Answer(store, req).err == OK <==> Version(store, key) == version)
            && (forall k :: k != key ==> Version(Execute(store, req), k) == Version(store, k)
                                         && Value(Execute(store, req), k) == Value(store, k))
            && (if Version(store, key) == version
                then Version(Execute(store, req), key) == version + 1 && Value(Execute(store, req), key) == value
                else Execute(store, req) == store
                     && Answer(store, req) == PutReply(if Version(store, key) == 0 then ErrNoKey else ErrVersion))
  {
  }

  /** A Get changes nothing and answers value and version of the key, which is missing exactly at version 0. */
  lemma GetEffect(store: Store, key: Key)
    requires Positive(store)
    ensures var req := GetRequest(key);
            && Execute(store, req) == store
            && Answer(store, req) == GetReply(Value(store, key), Version(store, key), if Version(store, key) == 0 then ErrNoKey else OK)
            && (Version(store, key) == 0 <==> key !in store)
  {
  }
}
