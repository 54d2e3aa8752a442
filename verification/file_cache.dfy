/** The filesystem-backed cache store: one file per key under a base
    directory, valid while its modification time lies inside the expiration
    window. The filesystem is a map from path to file, the clock is the
    `now` parameter. */
module FileCache {
  import opened Wrappers

  const DefaultCachePath := "/tmp"
  const DefaultCacheExtension := ""

  /** The store's configuration. `cachePath` is mutable in the source: path
      building appends a missing trailing '/' to it permanently. */
  datatype FileCache = FileCache(cachePath: string, cacheExtension: string)

  /** A file's contents and its last-modified time, in seconds. */
  datatype FileEntry = FileEntry(contents: string, mtime: int)

  /** The filesystem: existing files, plus the paths that cannot be read and
      the paths that cannot be written (permissions, missing directories). */
  datatype FileSystem = FileSystem(
    files: map<string, FileEntry>,
    unreadable: set<string>,
    unwritable: set<string>)

  /** The exception `set` throws when the write fails; it names the path. */
  datatype WriteError = FailedWriting(path: string)

  function New(cachePath: string := DefaultCachePath, cacheExtension: string := DefaultCacheExtension): (fc: FileCache)
    ensures fc.cachePath == cachePath && fc.cacheExtension == cacheExtension
  {
    FileCache(cachePath, cacheExtension)
  }

  predicate EndsWithSlash(s: string) {
    |s| > 0 && s[|s| - 1] == '/'
  }

  /** The path of the file holding `key`, and the configuration after the
      trailing '/' has been ensured on the base directory. */
  function CreateFullCachePath(fc: FileCache, key: string): (r: (string, FileCache))
    ensures EndsWithSlash(r.1.cachePath)
    ensures r.1.cacheExtension == fc.cacheExtension
    ensures EndsWithSlash(fc.cachePath) ==> r.1 == fc
    ensures !EndsWithSlash(fc.cachePath) ==> r.1.cachePath == fc.cachePath + "/"
    ensures r.0 == r.1.cachePath + key + fc.cacheExtension
  {
    var normalised := if EndsWithSlash(fc.cachePath) then fc else fc.(cachePath := fc.cachePath + "/");
    (normalised.cachePath + key + normalised.cacheExtension, normalised)
  }

  /** `is_readable`: the file exists and may be read. */
  predicate IsReadable(fs: FileSystem, path: string) {
    path in fs.files && path !in fs.unreadable
  }

  /** Reads `key`: its contents when the file is readable and was modified at
      or after `now - expiration`, None (PHP `null`) otherwise. Reading never
      fails and never touches the filesystem; only the configuration may change. */
  function Get(fc: FileCache, fs: FileSystem, now: int, key: string, expiration: int := 0): (r: (Option<string>, FileCache))
    ensures r.1 == CreateFullCachePath(fc, key).1
    ensures var path := CreateFullCachePath(fc, key).0;
      && (r.0.Some? <==> IsReadable(fs, path) && fs.files[path].mtime >= now - expiration)
      && (r.0.Some? ==> r.0.value == fs.files[path].contents)
  {
    var (path, fc') := CreateFullCachePath(fc, key);
    if IsReadable(fs, path) && fs.files[path].mtime >= now - expiration then
      (Some(fs.files[path].contents), fc')
    else
      (None, fc')
  }

  /** Writes `data` for `key`, stamping the file with `now`. A write to an
      unwritable path fails with the error naming the path; the configuration
      change of path building survives either way. `expiration` is accepted
      but unused. */
  function Set(fc: FileCache, fs: FileSystem, now: int, key: string, data: string, expiration: int): (r: (FileCache, Result<FileSystem, WriteError>))
    ensures r.0 == CreateFullCachePath(fc, key).1
    ensures var path := CreateFullCachePath(fc, key).0;
      && (r.1.Failure? <==> path in fs.unwritable)
      && (r.1.Failure? ==> r.1.error == FailedWriting(path))
      && (r.1.Success? ==>
            && r.1.value.files.Keys == fs.files.Keys + {path}
            && r.1.value.files[path] == FileEntry(data, now)
            && (forall p :: p in fs.files && p != path ==> r.1.value.files[p] == fs.files[p])
            && r.1.value.unreadable == fs.unreadable
            && r.1.value.unwritable == fs.unwritable)
  {
    var (path, fc') := CreateFullCachePath(fc, key);
    if path in fs.unwritable then
      (fc', Failure(FailedWriting(path)))
    else
      (fc', Success(fs.(files := fs.files[path := FileEntry(data, now)])))
  }

  /** Path normalisation happens at most once: building a second path, for
      any key, leaves the normalised configuration as it is. */
  lemma PathNormalisationIdempotent(fc: FileCache, key1: string, key2: string)
    ensures var fc1 := CreateFullCachePath(fc, key1).1;
      && CreateFullCachePath(fc1, key2).1 == fc1
      && |fc1.cachePath| <= |fc.cachePath| + 1
  {
  }

  /** With the default configuration the file for `key` is `/tmp/<key>`. */
  lemma DefaultPath(key: string)
    ensures CreateFullCachePath(New(), key).0 == "/tmp/" + key
  {
  }

  /** Distinct keys land in distinct files of the same store. */
  lemma {:induction false} FullPathInjective(fc: FileCache, key1: string, key2: string)
    ensures CreateFullCachePath(fc, key1).0 == CreateFullCachePath(fc, key2).0 ==> key1 == key2
  {
    var (p1, c1) := CreateFullCachePath(fc, key1);
    var (p2, c2) := CreateFullCachePath(fc, key2);
    assert c1 == c2;
    var base, ext := c1.cachePath, c1.cacheExtension;
    if p1 == p2 {
      assert |key1| == |key2|;
      forall i | 0 <= i < |key1|
        ensures key1[i] == key2[i]
      {
        assert p1[|base| + i] == key1[i];
        assert p2[|base| + i] == key2[i];
      }
    }
  }

  /** The expiration passed to `set` has no effect on what is written. */
  lemma SetIgnoresExpiration(fc: FileCache, fs: FileSystem, now: int, key: string, data: string, e1: int, e2: int)
    ensures Set(fc, fs, now, key, data, e1) == Set(fc, fs, now, key, data, e2)
  {
  }

  /** Round trip: after a successful write at time `t`, a read at time `now`
      with window `expiration` returns the data exactly when
      `t >= now - expiration` (the boundary is inclusive), given the file may
      be read. The read may come from the configuration the write left behind. */
  lemma SetThenGet(fc: FileCache, fs: FileSystem, t: int, key: string, data: string, e: int, now: int, expiration: int)
    requires Set(fc, fs, t, key, data, e).1.Success?
    requires CreateFullCachePath(fc, key).0 !in fs.unreadable
    ensures var (fc', written) := Set(fc, fs, t, key, data, e);
      var read := Get(fc', written.value, now, key, expiration).0;
      && (t >= now - expiration ==> read == Some(data))
      && (t < now - expiration ==> read == None)
  {
  }

  /** A successful write for one key leaves every other key's read unchanged. */
  lemma {:induction false} SetLeavesOtherKeys(fc: FileCache, fs: FileSystem, t: int, key: string, data: string, e: int,
                                              other: string, now: int, expiration: int)
    requires key != other
    requires Set(fc, fs, t, key, data, e).1.Success?
    ensures var (fc', written) := Set(fc, fs, t, key, data, e);
      Get(fc', written.value, now, other, expiration).0 == Get(fc, fs, now, other, expiration).0
  {
    var (fc', written) := Set(fc, fs, t, key, data, e);
    PathNormalisationIdempotent(fc, key, other);
    FullPathInjective(fc, key, other);
    assert CreateFullCachePath(fc', other).0 == CreateFullCachePath(fc, other).0;
  }
}
