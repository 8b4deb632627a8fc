/**
  internal/delivery/http/middleware/cache/CacheMiddleware.go: cache-aside
  for GET responses. A hit is served from Redis without running the
  handler; a miss runs the handler through a response recorder and stores
  its body when the handler set status 200 with WriteHeader.
 */
module DeliveryCache {
  import opened Errors
  import opened CacheStore
  import Http

  /** responseRecorder: keeps a copy of the body and the last status set, and forwards both. */
  class ResponseRecorder {
    const writer: Client
    var body: Bytes
    var status: int

    constructor (w: Client)
      ensures writer == w && body == [] && status == 0
    {
      writer := w;
      body := [];
      status := 0;
    }

    method WriteHeader(statusCode: int)
      modifies this, writer
      ensures status == statusCode && body == old(body)
      ensures writer.status == (if old(writer.status) == 0 then statusCode else old(writer.status))
      ensures writer.sent == old(writer.sent)
    {
      status := statusCode;
      writer.WriteHeader(statusCode);
    }

    method Write(p: Bytes)
      modifies this, writer
      ensures body == old(body) + p && status == old(status)
      ensures writer.status == (if old(writer.status) == 0 then 200 else old(writer.status))
      ensures writer.sent == old(writer.sent) + p
    {
      body := body + p;
      writer.Write(p);
    }
  }

  /** next.ServeHTTP(recorder, r): the handler's calls, in order, made on the recorder. */
  method Serve(rec: ResponseRecorder, next: seq<Action>)
    modifies rec, rec.writer
    ensures rec.body == old(rec.body) + Written(next)
    ensures rec.status == LastStatus(old(rec.status), next)
    ensures rec.writer.sent == old(rec.writer.sent) + Written(next)
    ensures rec.writer.status == SentStatus(old(rec.writer.status), next)
  {
    for i := 0 to |next|
      invariant rec.body == old(rec.body) + Written(next[..i])
      invariant rec.status == LastStatus(old(rec.status), next[..i])
      invariant rec.writer.sent == old(rec.writer.sent) + Written(next[..i])
      invariant rec.writer.status == SentStatus(old(rec.writer.status), next[..i])
    {
      assert next[..i + 1][..i] == next[..i];
      match next[i]
      case WriteHeader(code) => rec.WriteHeader(code);
      case Write(data) => rec.Write(data);
    }
    assert next[..|next|] == next;
  }

  /**
    CacheMiddleware on one request for `path`, the wrapped handler being
    the script `next`; `handlerRan` says whether it was invoked.
   */
  method CacheMiddleware(redis: Redis, w: Client, path: string, next: seq<Action>) returns (handlerRan: bool)
    modifies redis, w
    ensures redis.online == old(redis.online)
    ensures var key := Http.CacheKey(path);
      old(redis.Get(key)).Ok? ==>
        !handlerRan && redis.entries == old(redis.entries) &&
        w.sent == old(w.sent) + old(redis.Get(key)).value &&
        w.status == (if old(w.status) == 0 then Http.StatusOK else old(w.status))
    ensures var key := Http.CacheKey(path);
      old(redis.Get(key)).Err? ==>
        handlerRan &&
        w.sent == old(w.sent) + Written(next) && w.status == SentStatus(old(w.status), next) &&
        redis.entries == (if LastStatus(0, next) == Http.StatusOK && redis.online
                          then old(redis.entries)[key := Written(next)]
                          else old(redis.entries))
  {
    var key := Http.CacheKey(path);
    var cached := redis.Get(key);
    if cached.Ok? {
      w.WriteHeader(Http.StatusOK);
      w.Write(cached.value);
      return false;
    }
    var recorder := new ResponseRecorder(w);
    Serve(recorder, next);
    assert recorder.body == Written(next);
    if recorder.status == Http.StatusOK {
      var err := redis.Set(key, recorder.body);
      // A failed Set is only logged.
    }
    return true;
  }
}

/**
  internal/http-server/middleware/cache/CacheMiddleware.go: the second copy
  of the middleware. It reads and stores the body as a string, which holds
  the same bytes, and its responseRecorder behaves as the first copy's.
 */
module ServerCache {
  import opened Errors
  import opened CacheStore
  import Http
  import DeliveryCache

  method CacheMiddleware(redis: Redis, w: Client, path: string, next: seq<Action>) returns (handlerRan: bool)
    modifies redis, w
    ensures redis.online == old(redis.online)
    ensures var key := Http.CacheKey(path);
      old(redis.Get(key)).Ok? ==>
        !handlerRan && redis.entries == old(redis.entries) &&
        w.sent == old(w.sent) + old(redis.Get(key)).value &&
        w.status == (if old(w.status) == 0 then Http.StatusOK else old(w.status))
    ensures var key := Http.CacheKey(path);
      old(redis.Get(key)).Err? ==>
        handlerRan &&
        w.sent == old(w.sent) + Written(next) && w.status == SentStatus(old(w.status), next) &&
        redis.entries == (if LastStatus(0, next) == Http.StatusOK && redis.online
                          then old(redis.entries)[key := Written(next)]
                          else old(redis.entries))
  {
    var key := Http.CacheKey(path);
    var cached := redis.Get(key);
    if cached.Ok? {
      w.WriteHeader(Http.StatusOK);
      w.Write(cached.value);
      return false;
    }
    var recorder := new DeliveryCache.ResponseRecorder(w);
    DeliveryCache.Serve(recorder, next);
    assert recorder.body == Written(next);
    if recorder.status == Http.StatusOK {
      var err := redis.Set(key, recorder.body);
      // A failed Set is only logged.
    }
    return true;
  }
}
