/** The decorator running on the filesystem store: the store state is the
    file cache's configuration, the filesystem and two clock readings. The
    read of a call sees `readTime`; its write, which comes after the blocking
    fetch, stamps the file with `writeTime`. */
module FileBackedCache {
  import opened Wrappers
  import opened Payload
  import opened CachedApiCaller
  import FC = FileCache

  datatype FileStore = FileStore(cache: FC.FileCache, fs: FC.FileSystem, readTime: int, writeTime: int)

  /** FileCache seen through the cache-service interface. */
  function FileService(): CacheService<FileStore, FC.WriteError> {
    CacheService(
      (st: FileStore, key: string, expiration: int) =>
        var (value, cache') := FC.Get(st.cache, st.fs, st.readTime, key, expiration);
        (value, st.(cache := cache')),
      (st: FileStore, key: string, data: string, expiration: int) =>
        var (cache', written) := FC.Set(st.cache, st.fs, st.writeTime, key, data, expiration);
        match written
        case Success(fs') => (st.(cache := cache', fs := fs'), Success(()))
        case Failure(e) => (st.(cache := cache'), Failure(e)))
  }

  function Decorate(caller: string -> Response, md5: string -> string): Collaborators<FileStore, FC.WriteError> {
    Collaborators(caller, FileService(), md5)
  }

  /** The file that holds the response for `endpoint`. */
  function CacheFile(st: FileStore, md5: string -> string, endpoint: string): string {
    FC.CreateFullCachePath(st.cache, md5(endpoint)).0
  }

  /** Two calls for the same endpoint within the expiration window, the first
      a miss whose answer is cachable and written, invoke the wrapped caller
      once and return the same body both times. */
  lemma SecondCallServedFromCache(d: DecoratorState, caller: string -> Response, md5: string -> string,
                                                    decode: Decoder, st: FileStore, endpoint: string, later: int)
    requires !d.skipCache
    requires FileService().get(st, md5(endpoint), d.expiration).0.None?
    requires IsCachable(caller(endpoint), decode)
    requires CacheFile(st, md5, endpoint) !in st.fs.unwritable
    requires CacheFile(st, md5, endpoint) !in st.fs.unreadable
    requires st.writeTime >= later - d.expiration
    ensures var co := Decorate(caller, md5);
      var first := Retrieve(d, co, st, decode, endpoint);
      var second := Retrieve(first.state, co, first.store.(readTime := later), decode, endpoint);
      && first.outcome == Success(caller(endpoint))
      && second.outcome == first.outcome
      && Fetch(endpoint) in first.calls
      && second.calls == [CacheGet(md5(endpoint), d.expiration)]
  {
  }

  /** A record written at `writeTime` is ignored once the clock has passed
      `writeTime + expiration`: the next call fetches again. */
  lemma ExpiredRecordRefetched(d: DecoratorState, caller: string -> Response, md5: string -> string,
                                                 decode: Decoder, st: FileStore, endpoint: string, later: int)
    requires !d.skipCache
    requires FileService().get(st, md5(endpoint), d.expiration).0.None?
    requires IsCachable(caller(endpoint), decode)
    requires CacheFile(st, md5, endpoint) !in st.fs.unwritable
    requires later > st.writeTime + d.expiration
    ensures var co := Decorate(caller, md5);
      var first := Retrieve(d, co, st, decode, endpoint);
      var second := Retrieve(first.state, co, first.store.(readTime := later), decode, endpoint);
      second.calls[..2] == [CacheGet(md5(endpoint), d.expiration), Fetch(endpoint)]
  {
  }

  /** A failing cache write is not swallowed: the call that fetched a
      cachable answer ends with the write error, not with the answer. */
  lemma WriteFailurePropagates(d: DecoratorState, caller: string -> Response, md5: string -> string,
                                                 decode: Decoder, st: FileStore, endpoint: string)
    requires !d.skipCache
    requires FileService().get(st, md5(endpoint), d.expiration).0.None?
    requires IsCachable(caller(endpoint), decode)
    requires CacheFile(st, md5, endpoint) in st.fs.unwritable
    ensures var r := Retrieve(d, Decorate(caller, md5), st, decode, endpoint);
      && r.outcome == Failure(FC.FailedWriting(CacheFile(st, md5, endpoint)))
      && r.store.fs == st.fs
      && !r.state.skipCache
  {
  }
}
