/** The server of src/kvsrv1/server.go: a map updated in place under its lock. */
module KvServer {
  import opened KvStore

  /** An encoded store; no bytes at all before the first snapshot. */
  datatype Bytes = NoBytes | Encoded(store: Store)

  class KVServer {
    var data: map<Key, Element>

    constructor ()
      ensures data == map[]
    {
      data := map[];
    }

    method Get(key: Key) returns (reply: Reply)
      ensures reply == Answer(data, GetRequest(key))
      ensures key in data ==> reply == GetReply(data[key].value, data[key].version, OK)
      ensures key !in data ==> reply == GetReply("", 0, ErrNoKey)
    {
      if key !in data {
        return GetReply("", 0, ErrNoKey);
      }
      reply := GetReply(data[key].value, data[key].version, OK);
    }

    method Put(key: Key, value: string, version: nat) returns (reply: Reply)
      modifies this
      ensures data == Execute(old(data), PutRequest(key, value, version))
      ensures reply == Answer(old(data), PutRequest(key, value, version))
    {
      reply := PutReply(OK);
      if key !in data {
        if version != 0 {
          return PutReply(ErrNoKey);
        }
        data := data[key := Element(value, 1)];
        return;
      }
      if data[key].version != version {
        return PutReply(ErrVersion);
      }
      data := data[key := data[key].(value := value)];
      data := data[key := data[key].(version := data[key].version + 1)];
    }

    /** What Snapshot hands out, Restore takes back. */
    method Snapshot() returns (bytes: Bytes)
      ensures bytes == Encoded(data)
    {
      bytes := Encoded(data);
    }

    method Restore(bytes: Bytes)
      modifies this
      ensures data == if bytes.NoBytes? then old(data) else bytes.store
    {
      if bytes.NoBytes? {
        return;
      }
      data := bytes.store;
    }
  }

  /** The round trip: a server that restores another's snapshot has its store and answers as it does. */
  method HandOver(giver: KVServer, taker: KVServer)
    modifies taker
    ensures taker.data == old(giver.data) == giver.data
    ensures forall req :: Answer(taker.data, req) == Answer(old(giver.data), req)
  {
    var bytes := giver.Snapshot();
    taker.Restore(bytes);
  }
}
