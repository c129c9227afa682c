/**
 * The single-slot result cache of pkg/cache/cache.go: its expiry rule with a
 * grace period, nil-safe reads and saves, and persistence to one file.
 * Files are an abstract map from path to contents; whether opening, reading
 * or writing the file succeeds is passed in.
 */
module ResultCache {
  import opened Wrappers
  import opened GoTypes
  import opened SpeedtestTypes

  const MinimumGraceDuration: Duration := 30 * Second
  const AdditionalGraceDuration: Duration := 5 * Second

  /** The grace period for a measurement that took `durationMs` milliseconds, in `time.Duration` arithmetic. */
  function GracePeriod(durationMs: Int64): (g: Duration)
    ensures g >= MinimumGraceDuration
  {
    var p := AddDuration(MulDuration(durationMs, Millisecond), AdditionalGraceDuration);
    if p < MinimumGraceDuration then MinimumGraceDuration else p
  }

  /** `expiresAt()` for an entry `r` in a cache whose nominal lifetime is `cacheTime`. */
  function ExpiryOf(r: SpeedtestResult, cacheTime: Duration): (t: Instant)
    ensures t <= r.TimestampAsTime() + cacheTime - MinimumGraceDuration
  {
    r.TimestampAsTime() + cacheTime + MulDuration(-1, GracePeriod(r.duration))
  }

  /** While `durationMs * 1ms + 5s` fits in an `int64`, the grace period is the larger of it and 30 s. */
  lemma GracePeriodIsMax(durationMs: Int64)
    requires Int64Min <= durationMs * Millisecond
    requires durationMs * Millisecond + AdditionalGraceDuration <= Int64Max
    ensures GracePeriod(durationMs) ==
      if durationMs * Millisecond + AdditionalGraceDuration < MinimumGraceDuration then MinimumGraceDuration
      else durationMs * Millisecond + AdditionalGraceDuration
  {
  }

  /** An entry expires `cacheTime` after its timestamp, less its grace period. */
  lemma ExpiryIsTimestampPlusCacheTimeMinusGrace(r: SpeedtestResult, cacheTime: Duration)
    ensures ExpiryOf(r, cacheTime) == r.TimestampAsTime() + cacheTime - GracePeriod(r.duration)
  {
  }

  /** A measurement of at most 25 s (duration 0 included) gets exactly the minimum grace of 30 s. */
  lemma ShortMeasurementWindow(r: SpeedtestResult, cacheTime: Duration)
    requires 0 <= r.duration <= 25_000
    ensures ExpiryOf(r, cacheTime) == r.TimestampAsTime() + cacheTime - 30 * Second
  {
    GracePeriodIsMax(r.duration);
  }

  /** A 250 s measurement gets a 255 s grace, so with a 5 minute cache time it stays valid for 45 s. */
  lemma LongMeasurementWindow(r: SpeedtestResult)
    requires r.duration == 250_000
    ensures ExpiryOf(r, 5 * Minute) == r.TimestampAsTime() + 45 * Second
  {
    GracePeriodIsMax(r.duration);
  }

  /** A duration so large that `duration * 1ms` wraps to a negative value falls back to the minimum grace. */
  lemma WrappedDurationGetsMinimumGrace()
    ensures GracePeriod(9_223_372_036_855) == MinimumGraceDuration
  {
    assert MulDuration(9_223_372_036_855, Millisecond) == 9_223_372_036_855_000_000 - TwoTo64;
  }

  /** The files the cache may read and write, by path. */
  class FileSystem {
    var files: map<string, Bytes>

    constructor (files: map<string, Bytes>)
      ensures this.files == files
    {
      this.files := files;
    }
  }

  /** What happens when the cache opens its file: `os.OpenFile` fails, `io.ReadAll` fails, or both succeed. */
  datatype FileAccess = Accessible | OpenFails | ReadFails

  /** The contents at `path`; a file that does not exist reads as no bytes once created. */
  function StoredAt(files: map<string, Bytes>, path: string): Bytes {
    if path in files then files[path] else NoBytes
  }

  /** The files after `os.OpenFile` with `O_CREATE` has opened `path`. */
  function CreatedAt(files: map<string, Bytes>, path: string): (fs: map<string, Bytes>)
    ensures path in fs && fs[path] == StoredAt(files, path)
    ensures forall p :: p != path ==> (p in fs <==> p in files) && (p in files ==> fs[p] == files[p])
  {
    if path in files then files else files[path := NoBytes]
  }

  /** `Cache`: the persistence settings and the one cached entry (nil pointer as `None`). */
  class Cache {
    var persist: bool
    var path: string
    var cacheTime: Duration
    var cachedResult: Option<SpeedtestResult>

    constructor (persist: bool, path: string, cacheTime: Duration)
      ensures this.persist == persist && this.path == path && this.cacheTime == cacheTime
      ensures cachedResult.None?
    {
      this.persist := persist;
      this.path := path;
      this.cacheTime := cacheTime;
      cachedResult := None;
    }
  }

  /** The entry restored from the bytes read at startup: none for an empty file or one that does not decode. */
  function Restore(data: Bytes): (r: Option<SpeedtestResult>)
    ensures data.NoBytes? || data.NotJson? ==> r.None?
    ensures r.Some? <==> !data.NoBytes? && DecodeAlias(data).Success?
    ensures r.Some? ==> ToAlias(r.value) == DecodeAlias(data).value
  {
    if data.NoBytes? then None
    else
      var out := UnmarshalJSON(ZeroResult, data);
      if out.err.Some? then None else Some(out.receiver)
  }

  /** A saved record restores to the very result that was saved. */
  lemma RestoreOfSaved(r: SpeedtestResult)
    requires r.Marshallable()
    ensures MarshalJSON(r).Success? && Restore(MarshalJSON(r).value) == Some(r)
  {
    MarshalRoundTrip(r, ZeroResult);
  }

  /** `NewCache`: persistence stays on only with a path that opens; a readable, decodable file seeds the entry. */
  method NewCache(persist: bool, path: string, cacheTime: Duration, fs: FileSystem, access: FileAccess)
    returns (c: Cache)
    modifies fs
    ensures fresh(c)
    ensures c.path == path && c.cacheTime == cacheTime
    ensures c.persist == (persist && path != "" && access != OpenFails)
    ensures c.cachedResult ==
      if persist && path != "" && access == Accessible then Restore(StoredAt(old(fs.files), path)) else None
    ensures fs.files ==
      if persist && path != "" && access != OpenFails then CreatedAt(old(fs.files), path) else old(fs.files)
  {
    c := new Cache(persist, path, cacheTime);
    if path == "" {
      c.persist := false;
    }
    if !c.persist {
      return;
    }
    if access == OpenFails {
      c.persist := false;
      return;
    }
    var data := StoredAt(fs.files, path);
    fs.files := CreatedAt(fs.files, path);
    if access == ReadFails {
      return;
    }
    if data.NoBytes? {
      return;
    }
    var out := UnmarshalJSON(ZeroResult, data);
    if out.err.None? {
      c.cachedResult := Some(out.receiver);
    }
  }

  /** `Read()` at clock reading `now`: the entry, and whether `now` is before its expiry. Safe on a nil cache. */
  method Read(c: Cache?, now: Instant) returns (result: Option<SpeedtestResult>, valid: bool)
    ensures c == null ==> result.None? && !valid
    ensures c != null ==> result == c.cachedResult
    ensures valid <==> c != null && c.cachedResult.Some? && now < ExpiryOf(c.cachedResult.value, c.cacheTime)
  {
    if c == null {
      return None, false;
    }
    if c.cachedResult.None? {
      return None, false;
    }
    return c.cachedResult, ExpiryOf(c.cachedResult.value, c.cacheTime) > now;
  }

  /** `ExpiresAt()`: the zero time without an entry (or without a cache), the entry's expiry otherwise. */
  method ExpiresAt(c: Cache?) returns (t: Instant)
    ensures c == null || c.cachedResult.None? ==> t == ZeroTime
    ensures c != null && c.cachedResult.Some? ==> t == ExpiryOf(c.cachedResult.value, c.cacheTime)
  {
    if c == null {
      return ZeroTime;
    }
    if c.cachedResult.None? {
      return ZeroTime;
    }
    return ExpiryOf(c.cachedResult.value, c.cacheTime);
  }

  /**
   * `Save(result)`: always replaces the entry; with persistence on, writes the
   * encoded result to the cache's path when encoding and writing succeed. A
   * failure is only logged. Nothing happens on a nil cache.
   */
  method Save(c: Cache?, result: SpeedtestResult, fs: FileSystem, writeOk: bool)
    modifies c, fs
    ensures c != null ==> c.cachedResult == Some(result)
    ensures c != null ==> c.persist == old(c.persist) && c.path == old(c.path) && c.cacheTime == old(c.cacheTime)
    ensures fs.files ==
      if c != null && c.persist && writeOk && MarshalJSON(result).Success?
      then old(fs.files)[c.path := MarshalJSON(result).value]
      else old(fs.files)
  {
    if c == null {
      return;
    }
    c.cachedResult := Some(result);
    if !c.persist {
      return;
    }
    var data := MarshalJSON(result);
    if data.Failure? {
      return;
    }
    if writeOk {
      fs.files := fs.files[c.path := data.value];
    }
  }

  /** A result saved with persistence on is what a cache constructed afterwards on the same path holds. */
  method SaveThenRestart(path: string, cacheTime: Duration, r: SpeedtestResult, fs: FileSystem, now: Instant)
    returns (restored: Option<SpeedtestResult>, valid: bool)
    requires path != "" && r.Marshallable()
    modifies fs
    ensures restored == Some(r)
    ensures valid <==> now < ExpiryOf(r, cacheTime)
  {
    var first := NewCache(true, path, cacheTime, fs, Accessible);
    Save(first, r, fs, true);
    RestoreOfSaved(r);
    var second := NewCache(true, path, cacheTime, fs, Accessible);
    restored, valid := Read(second, now);
  }
}
