/**
  The Redis client as the core uses it (Get, Set, Del on string keys), the
  client's side of an HTTP response, and the handler behind a middleware as
  the script of calls it makes on its ResponseWriter.
 */
module CacheStore {
  import opened Errors

  type Bytes = seq<bv8>

  /** A Redis server reached through go-redis; `online` is false when every call fails. */
  class Redis {
    var entries: map<string, Bytes>
    var online: bool

    constructor (online: bool)
      ensures entries == map[] && this.online == online
    {
      entries := map[];
      this.online := online;
    }

    /** GET: the stored value, redis.Nil for an absent key, or a transport error. */
    function Get(key: string): (r: Result<Bytes>)
      reads this
      ensures r.Ok? <==> online && key in entries
      ensures r.Ok? ==> r.value == entries[key]
      ensures online && key !in entries ==> r == Err(Driver(CacheMiss))
      ensures !online ==> r == Err(Driver(ConnectionFailure))
    {
      if !online then Err(Driver(ConnectionFailure))
      else if key in entries then Ok(entries[key])
      else Err(Driver(CacheMiss))
    }

    /** SET: overwrites the key. */
    method Set(key: string, value: Bytes) returns (err: Option<Error>)
      modifies this
      ensures online == old(online)
      ensures err.None? <==> old(online)
      ensures err.None? ==> entries == old(entries)[key := value]
      ensures err.Some? ==> entries == old(entries) && err == Some(Driver(ConnectionFailure))
    {
      if !online {
        return Some(Driver(ConnectionFailure));
      }
      entries := entries[key := value];
      return None;
    }

    /** DEL: removes the key; removing an absent key succeeds and changes nothing. */
    method Del(key: string) returns (err: Option<Error>)
      modifies this
      ensures online == old(online)
      ensures err.None? <==> old(online)
      ensures err.None? ==> entries == old(entries) - {key} && key !in entries
      ensures err.Some? ==> entries == old(entries) && err == Some(Driver(ConnectionFailure))
    {
      if !online {
        return Some(Driver(ConnectionFailure));
      }
      entries := entries - {key};
      return None;
    }
  }

  /**
    What the client receives: net/http's ResponseWriter sends the first
    status code it is given (a Write before any WriteHeader sends 200) and
    every byte written. `status` is 0 while no header has been sent.
   */
  class Client {
    var status: int
    var sent: Bytes

    constructor ()
      ensures status == 0 && sent == []
    {
      status := 0;
      sent := [];
    }

    method WriteHeader(code: int)
      modifies this
      ensures status == (if old(status) == 0 then code else old(status))
      ensures sent == old(sent)
    {
      if status == 0 {
        status := code;
      }
    }

    method Write(data: Bytes)
      modifies this
      ensures status == (if old(status) == 0 then 200 else old(status))
      ensures sent == old(sent) + data
    {
      if status == 0 {
        status := 200;
      }
      sent := sent + data;
    }
  }

  /** One call a handler makes on its ResponseWriter. */
  datatype Action = WriteHeader(code: int) | Write(data: Bytes)

  /** The bytes of the script's writes, in order. */
  function Written(script: seq<Action>): Bytes
  {
    if script == [] then []
    else
      var last := script[|script| - 1];
      Written(script[..|script| - 1]) + (if last.Write? then last.data else [])
  }

  /** The status a field assigned by each WriteHeader holds afterwards: the last code, or `initial`. */
  function LastStatus(initial: int, script: seq<Action>): int
  {
    if script == [] then initial
    else
      var last := script[|script| - 1];
      if last.WriteHeader? then last.code else LastStatus(initial, script[..|script| - 1])
  }

  /** The status the client sees after the script, starting from `initial`. */
  function SentStatus(initial: int, script: seq<Action>): int
  {
    if script == [] then initial
    else
      var before := SentStatus(initial, script[..|script| - 1]);
      if before != 0 then before
      else
        match script[|script| - 1]
        case WriteHeader(code) => code
        case Write(_) => 200
  }

  /** A script without WriteHeader leaves an assigned status where it was. */
  lemma {:induction false} WritesOnlyKeepStatus(initial: int, script: seq<Action>)
    requires forall i :: 0 <= i < |script| ==> script[i].Write?
    ensures LastStatus(initial, script) == initial
  {
    if script != [] {
      WritesOnlyKeepStatus(initial, script[..|script| - 1]);
    }
  }

  /** The client sees the first status: a later WriteHeader cannot change a sent header. */
  lemma {:induction false} SentStatusIsFirst(initial: int, script: seq<Action>)
    requires initial != 0
    ensures SentStatus(initial, script) == initial
  {
    if script != [] {
      SentStatusIsFirst(initial, script[..|script| - 1]);
    }
  }
}
