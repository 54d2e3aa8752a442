# OpenWeatherMap client: cache-aside decorator, file cache and request building

A Dafny model of the core of a small PHP client for the OpenWeatherMap API
(`Pelcers\OpenWeatherMap`):

- **CachedApiCaller** (`cached_api_caller.dfy`): the decorator that puts a
  cache in front of an API caller. Its state is a one-shot `skipCache` flag
  and an `expiration`. `retrieve` either bypasses the cache, or looks up
  `md5(endpoint)`, returns a hit, and on a miss fetches and writes back what
  `isCachable` accepts. The flag is off after every call. The store is generic:
  any state with a `get` and a `set`. Every call returns its trace of
  collaborator calls (cache read, fetch, cache write), so the mock
  expectations of the unit tests become contracts.
- **FileCache** (`file_cache.dfy`): the filesystem store. The filesystem is a
  map from path to (contents, mtime) plus the sets of unreadable and
  unwritable paths. The clock is a parameter. Path building makes sure the
  base directory ends in `/` and keeps that change. `get` applies the
  inclusive window `mtime >= now - expiration`. `set` either writes or fails
  with the path.
- **FileBackedCache** (`file_backed.dfy`): the decorator running on the file
  cache. A call reads the cache at one clock reading and stamps its write
  with a second one, since the write comes after the blocking fetch. It holds the end-to-end properties: a second call within the window
  is served from the file, an expired file is fetched again, and a failing
  write propagates.
- **Endpoint** (`endpoint.dfy`): `makeApiEndpoint`, the unencoded
  `base + path + "?" + name=value& ... + "appid=" + key` serialiser. Its
  partner is a parser that recovers path, parameters and key whenever the
  path has no `?`, no parameter name has `&` or `=`, no parameter value
  has `&`, and the key has no `&`.
- **OpenWeatherMap** (`open_weather_map.dfy`): the client's settings and
  setters, the parameter list of every getter, `makeApiCall`,
  `getRawResponse` and `validateApiResponse`.
- **PolicyAgreement** (`policy_agreement.dfy`): how `isCachable` and
  `validateApiResponse` relate. Every validated response is cachable. They
  disagree on exactly one kind of body, one that `json_decode` turns into `null` (not JSON, or the literal `null`):
  the decorator caches it and the client rejects it. The model keeps this
  behaviour as the code has it.

`json_decode` is the `Decoder` parameter. Its result distinguishes `null`
(not JSON), the literal `false`, and any other value with its `cod`. Both
`isCachable` and `validateApiResponse` guard with `false !== $json`, so a body
that is the JSON literal `false` passes both.

`CachedApiCaller::retrieve` (src/CachedApiCaller.php:63) does not catch the
exception that `FileCache::set` throws (src/CacheServices/FileCache.php:55).
A failing cache write therefore replaces the fetched response: `Retrieve`
ends with the write error (`FileBackedCache.WriteFailurePropagates`).

`FileBackedCache` and `PolicyAgreement` have no counterpart class in the
PHP code. They are property modules: the first runs the decorator over the
file cache, the second compares the decorator's cachability policy with the
client's validation.

## Model

| member | source | states |
|---|---|---|
| FileCache.New | src/CacheServices/FileCache.php:23-27 | the store keeps the directory and extension it is given; by default `/tmp` and no extension |
| FileCache.CreateFullCachePath | src/CacheServices/FileCache.php:65-71 | the path is the directory with exactly one added `/` when it lacked one, then the key, then the extension; the stored directory keeps the `/` |
| FileCache.PathNormalisationIdempotent | src/CacheServices/FileCache.php:67-69 | once the directory has been normalised, building any further path leaves it unchanged, and it grows by at most one character |
| FileCache.DefaultPath | src/CacheServices/FileCache.php:23-27 | with the default configuration the file for `key` is `/tmp/` followed by `key` |
| FileCache.FullPathInjective | src/CacheServices/FileCache.php:65-71 | two keys share a file only when they are equal |
| FileCache.Get | src/CacheServices/FileCache.php:35-42 | returns the contents exactly when the file is readable and `mtime >= now - expiration` (inclusive), otherwise null; it changes no file, and a readable file is always read successfully (see "## Left out") |
| FileCache.Set | src/CacheServices/FileCache.php:51-58 | fails with the path exactly when the path is unwritable; otherwise the file at the path holds `data` stamped `now`, and every other file and permission is unchanged |
| FileCache.SetIgnoresExpiration | src/CacheServices/FileCache.php:51-58 | the expiration passed to `set` does not affect its result |
| FileCache.SetThenGet | src/CacheServices/FileCache.php:35-58 | after a successful write at `t`, a read at `now` returns the data iff `t >= now - expiration`, and null otherwise |
| FileCache.SetLeavesOtherKeys | src/CacheServices/FileCache.php:51-58 | a write for one key does not change what a read of another key returns |
| CachedApiCaller.New | src/CachedApiCaller.php:37-43 | a new decorator does not skip the cache and uses the given expiration, 600 by default |
| CachedApiCaller.SkipCache | src/CachedApiCaller.php:101-105 | sets the skip flag to the given status and keeps the expiration |
| CachedApiCaller.SetCacheExpiration | src/CachedApiCaller.php:112-116 | replaces the expiration and keeps the skip flag |
| CachedApiCaller.IsCachable | src/CachedApiCaller.php:78-94 | no response is not cachable; a decoded envelope is cachable iff its `cod` is 200; a body decoding to `null` or `false` is cachable |
| CachedApiCaller.Retrieve | src/CachedApiCaller.php:50-70 | with skip set: exactly one fetch and the caller's answer, no cache call. Otherwise: one read of `md5(endpoint)` with the current expiration; a hit is returned without fetching; a miss fetches once, writes the answer iff it is cachable, and returns it or the write error. The flag is off afterwards |
| CachedApiCaller.RetrieveCallOrder | src/CachedApiCaller.php:50-70 | one call makes between one and three collaborator calls, at most one fetch, and any write comes third and writes exactly what was fetched for this endpoint |
| CachedApiCaller.NeverCachesErrors | src/CachedApiCaller.php:59-64 | nothing written to the store is an error envelope or a missing response |
| CachedApiCaller.SkipAffectsOnlyNextCall | src/CachedApiCaller.php:67-68 | after `skipCache()`, the next call only fetches, and the call after it reads the cache again |
| CachedApiCaller.ExpirationReachesStore | src/CachedApiCaller.php:112-116 | after `setCacheExpiration(e)`, every cache read and write uses `e` |
| FileBackedCache.SecondCallServedFromCache | src/CachedApiCaller.php:56-64 | on the file store, when the second call's read time is within the window of the first call's write time, the two calls fetch once and both return the same answer |
| FileBackedCache.ExpiredRecordRefetched | src/CacheServices/FileCache.php:35-42 | a record stamped with write time `t` and read after `t + expiration` is ignored, so the call fetches again |
| FileBackedCache.WriteFailurePropagates | src/CachedApiCaller.php:62-69 | when the cache file cannot be written, the call ends with the write error rather than the fetched answer, the files are unchanged, and the flag is off |
| Endpoint.MakeApiEndpoint | src/OpenWeatherMap.php:506-515 | the loop builds base URL, path, `?`, `name=value&` per parameter in order, then `appid=` and the key; the result starts with the base URL and path and ends with `appid=` and the key |
| Endpoint.EndpointWithoutParameters | src/OpenWeatherMap.php:506-515 | with no parameters the endpoint is the base URL, the path, `?appid=` and the key |
| Endpoint.QueryStringCons | src/OpenWeatherMap.php:508-512 | serialising the first parameter and then the rest gives the same query as the source's loop |
| Endpoint.ParseQueryRoundTrip | src/OpenWeatherMap.php:508-512 | a query of parameters free of separators parses back into the same parameters and the untouched remainder |
| Endpoint.EndpointRoundTrip | src/OpenWeatherMap.php:506-515 | an endpoint whose path has no `?`, whose parameter names have no `&` or `=`, whose parameter values have no `&` and whose key has no `&` parses back into the path, parameters and key it was built from |
| Endpoint.EndpointInjective | src/OpenWeatherMap.php:506-515 | two requests meeting the conditions of `EndpointRoundTrip` give the same endpoint iff they are the same request |
| Endpoint.UnencodedValuesAlias | src/OpenWeatherMap.php:510-512 | since values are not encoded, a value containing `&units=metric` gives the same endpoint as a separate `units` parameter |
| OpenWeatherMap.New | src/OpenWeatherMap.php:43-55 | the client keeps the key, units, language and accuracy it is given (`metric`, `en`, `accurate` by default) and has no raw response yet |
| OpenWeatherMap.SetUnits | src/OpenWeatherMap.php:62-66 | changes the units and no other field |
| OpenWeatherMap.SetLanguage | src/OpenWeatherMap.php:73-77 | changes the language and no other field |
| OpenWeatherMap.SetAccuracy | src/OpenWeatherMap.php:84-88 | changes the accuracy and no other field |
| OpenWeatherMap.RequestFor | src/OpenWeatherMap.php:95-471 | every getter's parameter list ends with `mode=json` |
| OpenWeatherMap.GetterDefaultsReachRequests | src/OpenWeatherMap.php:265-455 | a daily forecast without a day count sends `cnt=16`, and a station box query without a clustering choice sends `cluster=yes` |
| OpenWeatherMap.HistoricalIgnoresAccuracy | src/OpenWeatherMap.php:346-422 | historical queries send `type=hour`, and changing the accuracy does not change their request |
| OpenWeatherMap.AccuracySentAsType | src/OpenWeatherMap.php:95-336 | current-weather and forecast queries send the accuracy as `type` |
| OpenWeatherMap.SettersReachRequests | src/OpenWeatherMap.php:95-471 | a unit set by `setUnits` appears in every request; a language set by `setLanguage` appears in every request except the station box query |
| OpenWeatherMap.ValidateApiResponse | src/OpenWeatherMap.php:524-534 | no response is an error with code 404; a decoded envelope passes iff its `cod` is 200, else the error carries that `cod`; a body decoding to `null` is rejected; the literal `false` passes |
| OpenWeatherMap.MakeApiCall | src/OpenWeatherMap.php:494-498 | returns the caller's answer for the endpoint unchanged and keeps it as the raw response, changing nothing else |
| OpenWeatherMap.GetRawResponse | src/OpenWeatherMap.php:480-487 | the raw response is kept even when validation fails; the body is returned iff validation passes, and then it is the kept raw response; otherwise the validation error is raised |
| OpenWeatherMap.Perform | src/OpenWeatherMap.php:95-111 | a getter calls the endpoint of its request and keeps the raw answer, changing no other field; it succeeds iff validation passes, returning the body the caller gave, and otherwise raises the validation error, which names that endpoint |
| PolicyAgreement.AcceptedIsCachable | src/CachedApiCaller.php:78-94 | every response the client's validation accepts is cachable |
| PolicyAgreement.CachableButRejected | src/OpenWeatherMap.php:530-533 | a response is cachable but rejected by validation iff it is a body that decodes to `null` |

## Left out

- src/ApiCaller.php (the curl transport) is not part of this model. The wrapped caller is a function from endpoint to response, so within one model run the same endpoint always gets the same answer.
- src/CacheServices/MemcachedCache.php is not part of this model. Its time-to-live is enforced by the Memcached server, which the model cannot see. Its `get` also turns falsy values such as `""` and `"0"` into null.
- `json_decode` and `toArray` are the `Decoder` parameter rather than a JSON parser. PHP's loose `200 != $json->cod` is modelled by reading `cod` as an integer, or as absent.
- md5 is a function parameter, not an implementation. `time()` is the file cache's `now` parameter, and `filemtime` is the file's `mtime`. On the decorator's file store, the clock readings seen by a call's read and by its write are given as part of the store; how long the fetch between them takes is not modelled.
- Float formatting of latitude and longitude, and the conversion of numeric arguments to strings, are left out: parameter values are already strings.
- Exception messages are not modelled. This includes `$json->message` in the validation error. Errors carry the endpoint and the code. The `ApiErrorException` class is not part of this model, so the integer it would hold for a missing `cod` is not modelled either.
- The interfaces under src/Interfaces are not modelled on their own. They appear as the `CacheService` record and the caller function.
- The fluent `return $this` of the setters becomes returning the updated value.
- `getHourlyHistoricalDataByCityCoordinates` takes a `$cityId` argument that it never uses. The model's query has no such argument.
- The client is modelled over a stateless caller function. Running it over the stateful decorator is covered by the decorator's own contracts and is not composed again.
- File permissions are the sets of unreadable and unwritable paths. A successful write leaves them as they were. Directory creation and partial writes are not modelled.
- tests/example.php is a demo script with live network calls.
- FileCache.Get: a readable file is always read successfully. The model has no read failure after `is_readable` passes, and no concurrent write, truncation or removal of cache files. So `file_get_contents` never returns `false` in the model. The case where the store hands `retrieve` a `false` is not modelled: `retrieve` tests only for `null`, so it would return that `false` as a cache hit.
- OpenWeatherMap.Perform: returns the validated body, not the decoded array the getters return, because decoding is the `Decoder` parameter.
