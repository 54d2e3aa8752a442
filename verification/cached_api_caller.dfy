/** The cache-aside decorator around an API caller. Its own state is a
    one-shot "skip the cache" flag and the expiration it hands to the store.
    The wrapped caller, the cache store and md5 are parameters: the store is
    any state `S` with a `get` and a `set` that may fail with an error `E`. */
module CachedApiCaller {
  import opened Wrappers
  import opened Payload

  /** Cache expiration, in seconds, when none is given. */
  const DefaultExpiration := 600

  /** The decorator's mutable fields. */
  datatype DecoratorState = DecoratorState(skipCache: bool, expiration: int)

  /** A cache service: `get` answers a value or None (PHP `null`) and may
      update the store's own state; `put` (the source's `set`) either succeeds or fails with the
      error the store throws, updating the state in both cases. */
  datatype CacheService<!S, E> = CacheService(
    get: (S, string, int) -> (Option<string>, S),
    put: (S, string, string, int) -> (S, Result<(), E>))

  /** What the decorator is built around: the wrapped API caller (a function
      from endpoint to response), the cache service, and the hash deriving
      cache keys from endpoints (md5). */
  datatype Collaborators<!S, E> = Collaborators(
    caller: string -> Response,
    cache: CacheService<S, E>,
    md5: string -> string)

  /** One interaction with a collaborator, in the order it happened. */
  datatype Call =
    | CacheGet(key: string, expiration: int)
    | CacheSet(key: string, data: string, expiration: int)
    | Fetch(endpoint: string)

  /** The result of `retrieve`: the decorator's state afterwards, the store
      afterwards, the response or the store's write error, and the calls made. */
  datatype Retrieval<S, E> = Retrieval(
    state: DecoratorState,
    store: S,
    outcome: Result<Response, E>,
    calls: seq<Call>)

  /** The constructor: cache skipping off, expiration as given (600 by default). */
  function New(expiration: int := DefaultExpiration): (d: DecoratorState)
    ensures !d.skipCache
    ensures d.expiration == expiration
  {
    DecoratorState(false, expiration)
  }

  /** `skipCache($status = true)`: arms (or disarms) the bypass for the next
      `retrieve` and changes nothing else. */
  function SkipCache(d: DecoratorState, status: bool := true): (r: DecoratorState)
    ensures r.skipCache == status
    ensures r.expiration == d.expiration
  {
    d.(skipCache := status)
  }

  /** `setCacheExpiration($expiration = 600)`: replaces the expiration only. */
  function SetCacheExpiration(d: DecoratorState, expiration: int := DefaultExpiration): (r: DecoratorState)
    ensures r.expiration == expiration
    ensures r.skipCache == d.skipCache
  {
    d.(expiration := expiration)
  }

  /** The cachability policy: no response is never cached, a decodable
      envelope is cached only when its `cod` is 200, and everything else,
      including a body that is not JSON at all, is cached. */
  predicate IsCachable(response: Response, decode: Decoder)
    ensures IsCachable(response, decode) ==> response.Body?
    ensures response.Body? && decode(response.text).DecodesTo? ==>
      (IsCachable(response, decode) <==> decode(response.text).cod == Some(SuccessCode))
    ensures response.Body? && !decode(response.text).DecodesTo? ==> IsCachable(response, decode)
  {
    match response
    case NoResponse => false
    case Body(text) =>
      var json := decode(text);
      !(json != DecodesToFalse && json != DecodesToNull && json.cod != Some(SuccessCode))
  }

  /** `retrieve($endpoint)`. With the bypass armed, only the wrapped caller is
      asked. Otherwise the store is asked once for `md5(endpoint)` with the
      current expiration; a hit is returned as it is, a miss goes to the
      wrapped caller and the answer is written back when it is cachable. A
      failing write propagates as the outcome. The bypass is off afterwards
      on every path. */
  function Retrieve<S, E>(d: DecoratorState, co: Collaborators<S, E>, store: S, decode: Decoder, endpoint: string): (r: Retrieval<S, E>)
    ensures !r.state.skipCache && r.state.expiration == d.expiration
    ensures d.skipCache ==>
      && r.calls == [Fetch(endpoint)]
      && r.outcome == Success(co.caller(endpoint))
      && r.store == store
    ensures !d.skipCache ==>
      var key := co.md5(endpoint);
      var (cached, store1) := co.cache.get(store, key, d.expiration);
      && |r.calls| > 0 && r.calls[0] == CacheGet(key, d.expiration)
      && (forall i :: 0 < i < |r.calls| ==> !r.calls[i].CacheGet?)
      && (cached.Some? ==>
            && r.calls == [CacheGet(key, d.expiration)]
            && r.outcome == Success(Body(cached.value))
            && r.store == store1)
      && (cached.None? ==>
            var response := co.caller(endpoint);
            && |r.calls| >= 2 && r.calls[1] == Fetch(endpoint)
            && (!IsCachable(response, decode) ==>
                  && r.calls == [CacheGet(key, d.expiration), Fetch(endpoint)]
                  && r.outcome == Success(response)
                  && r.store == store1)
            && (IsCachable(response, decode) ==>
                  var (store2, written) := co.cache.put(store1, key, response.text, d.expiration);
                  && r.calls == [CacheGet(key, d.expiration), Fetch(endpoint), CacheSet(key, response.text, d.expiration)]
                  && r.store == store2
                  && (written.Success? ==> r.outcome == Success(response))
                  && (written.Failure? ==> r.outcome == Failure(written.error))))
  {
    var next := SkipCache(d, false);
    if d.skipCache then
      Retrieval(next, store, Success(co.caller(endpoint)), [Fetch(endpoint)])
    else
      var key := co.md5(endpoint);
      var (cached, store1) := co.cache.get(store, key, d.expiration);
      match cached
      case Some(value) =>
        Retrieval(next, store1, Success(Body(value)), [CacheGet(key, d.expiration)])
      case None =>
        var response := co.caller(endpoint);
        if IsCachable(response, decode) then
          var (store2, written) := co.cache.put(store1, key, response.text, d.expiration);
          var calls := [CacheGet(key, d.expiration), Fetch(endpoint), CacheSet(key, response.text, d.expiration)];
          match written
          case Success(_) => Retrieval(next, store2, Success(response), calls)
          // The exception leaves before the reset; the flag is already off here.
          case Failure(e) => Retrieval(d, store2, Failure(e), calls)
        else
          Retrieval(next, store1, Success(response), [CacheGet(key, d.expiration), Fetch(endpoint)])
  }

  /** One `retrieve` asks each collaborator at most once, in the order
      cache read, caller, cache write, and writes only what it fetched. */
  lemma RetrieveCallOrder<S, E>(d: DecoratorState, co: Collaborators<S, E>, store: S, decode: Decoder, endpoint: string)
    ensures var calls := Retrieve(d, co, store, decode, endpoint).calls;
      && 1 <= |calls| <= 3
      && (forall i, j :: 0 <= i < j < |calls| ==> !(calls[i].Fetch? && calls[j].Fetch?))
      && (forall i :: 0 <= i < |calls| && calls[i].CacheSet? ==>
            i == 2 && calls[1] == Fetch(endpoint) && co.caller(endpoint) == Body(calls[i].data))
  {
  }

  /** The store never receives an error envelope or a missing response. */
  lemma NeverCachesErrors<S, E>(d: DecoratorState, co: Collaborators<S, E>, store: S, decode: Decoder, endpoint: string)
    ensures forall c :: c in Retrieve(d, co, store, decode, endpoint).calls && c.CacheSet? ==>
      && IsCachable(Body(c.data), decode)
      && !IsErrorEnvelope(decode(c.data))
  {
  }

  /** `skipCache()` affects only the next call: the call after it consults the
      store again, with the key of its endpoint. */
  lemma SkipAffectsOnlyNextCall<S, E>(d: DecoratorState, co: Collaborators<S, E>, store: S, decode: Decoder, e1: string, e2: string)
    ensures var first := Retrieve(SkipCache(d), co, store, decode, e1);
      var second := Retrieve(first.state, co, first.store, decode, e2);
      && first.calls == [Fetch(e1)]
      && second.calls[0] == CacheGet(co.md5(e2), d.expiration)
  {
  }

  /** After `setCacheExpiration(e)` every cache read and write uses `e`. */
  lemma ExpirationReachesStore<S, E>(d: DecoratorState, e: int, co: Collaborators<S, E>, store: S, decode: Decoder, endpoint: string)
    ensures forall c :: c in Retrieve(SetCacheExpiration(d, e), co, store, decode, endpoint).calls && !c.Fetch? ==> c.expiration == e
  {
  }
}
