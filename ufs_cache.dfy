/**
 * The process-wide cache of under file systems (`UnderFileSystem.Factory` and its `Cache`).
 * The registry that builds instances, a competing caller that stores its own instance under the
 * same key between this caller's lookup and its insert, and a failing `close` are not modelled
 * as code: they are inputs to `Get`.
 */
module UfsCache {
  import opened Results
  import opened UfsKeys

  /** An under file system instance; to the cache only its identity matters. */
  class UnderFileSystem {
    const uri: Uri

    constructor (uri: Uri)
      ensures this.uri == uri
    {
      this.uri := uri;
    }
  }

  datatype UfsError =
    | NullPath                   // `Factory.get` was given a null path
    | CreateFailed(reason: string) // the registry could not build an instance
    | CloseFailed(reason: string)  // closing the losing candidate threw

  class Cache {
    var entries: map<Key, UnderFileSystem>
    /** The instances this cache has built. */
    ghost var created: set<UnderFileSystem>
    /** The instances whose `close` the cache has called. */
    ghost var closed: set<UnderFileSystem>

    /** No cached instance has been closed. */
    ghost predicate Valid()
      reads this
    {
      forall k :: k in entries ==> entries[k] !in closed
    }

    constructor ()
      ensures Valid()
      ensures entries == map[] && created == {} && closed == {}
    {
      entries := map[];
      created := {};
      closed := {};
    }

    /** `ConcurrentHashMap.putIfAbsent`: stores `fs` unless the key is taken, and returns what
        was there before. */
    method PutIfAbsent(key: Key, fs: UnderFileSystem) returns (prior: Option<UnderFileSystem>)
      modifies this`entries
      ensures key in old(entries) ==> prior == Some(old(entries)[key]) && entries == old(entries)
      ensures key !in old(entries) ==> prior == None && entries == old(entries)[key := fs]
    {
      if key in entries {
        prior := Some(entries[key]);
      } else {
        prior := None;
        entries := entries[key := fs];
      }
    }

    /**
     * `Cache.get`: a hit returns the cached instance; a miss builds a candidate and inserts it
     * if the key is still absent, else closes the candidate and returns the instance that won.
     * `createFailure` is the registry's failure, `racer` the instance a competing caller stored
     * between the lookup and the insert, `closeFailure` the failure of closing the candidate.
     */
    method Get(uri: Uri, createFailure: Option<string>, racer: Option<UnderFileSystem>,
               closeFailure: Option<string>)
      returns (r: Result<UnderFileSystem, UfsError>, ghost candidate: UnderFileSystem?)
      requires Valid()
      requires racer.Some? ==> racer.value !in closed
      modifies this
      ensures Valid()
      // whatever happens, no other key's entry changes, and a returned instance is cached
      ensures entries - {KeyOf(uri)} == old(entries) - {KeyOf(uri)}
      ensures r.Success? ==> KeyOf(uri) in entries && entries[KeyOf(uri)] == r.value
      // a hit: the cached instance, nothing built, nothing changed
      ensures KeyOf(uri) in old(entries) ==>
        && r == Success(old(entries)[KeyOf(uri)])
        && entries == old(entries) && created == old(created) && closed == old(closed)
      // a miss the registry cannot serve: the failure, nothing changed
      ensures KeyOf(uri) !in old(entries) && createFailure.Some? ==>
        && r == Failure(CreateFailed(createFailure.value))
        && entries == old(entries) && created == old(created) && closed == old(closed)
      // a miss: exactly one new instance is built
      ensures KeyOf(uri) !in old(entries) && createFailure.None? ==>
        && candidate != null && fresh(candidate) && candidate.uri == uri
        && created == old(created) + {candidate}
      // ... and it is stored and returned if no competitor got there first
      ensures KeyOf(uri) !in old(entries) && createFailure.None? && racer.None? ==>
        && r == Success(candidate)
        && entries == old(entries)[KeyOf(uri) := candidate] && closed == old(closed)
      // ... otherwise the competitor's entry stays, the candidate is closed, the winner returned
      ensures KeyOf(uri) !in old(entries) && createFailure.None? && racer.Some? ==>
        && entries == old(entries)[KeyOf(uri) := racer.value]
        && closed == old(closed) + {candidate}
        && r == if closeFailure.None? then Success(racer.value) else Failure(CloseFailed(closeFailure.value))
    {
      candidate := null;
      var key := KeyOf(uri);
      if key in entries {
        return Success(entries[key]), candidate;
      }
      if createFailure.Some? {
        return Failure(CreateFailed(createFailure.value)), candidate;
      }
      var fs := new UnderFileSystem(uri);
      created := created + {fs};
      candidate := fs;
      if racer.Some? {
        // the competing caller's insert lands between our lookup and our insert
        entries := entries[key := racer.value];
      }
      var cached := PutIfAbsent(key, fs);
      if cached.None? {
        return Success(fs), candidate;
      }
      closed := closed + {fs};
      if closeFailure.Some? {
        return Failure(CloseFailed(closeFailure.value)), candidate;
      }
      return Success(cached.value), candidate;
    }

    /** `Cache.clear`: drops every entry without closing any instance. */
    method Clear()
      modifies this
      ensures Valid()
      ensures entries == map[] && created == old(created) && closed == old(closed)
    {
      entries := map[];
    }
  }

  /** `UnderFileSystem.Factory`, holding the single process-wide cache. */
  class Factory {
    const cache: Cache

    constructor ()
      ensures fresh(cache) && cache.Valid()
      ensures cache.entries == map[] && cache.created == {} && cache.closed == {}
    {
      cache := new Cache();
    }

    /** `Factory.get(path[, ufsConf])`: a null path is refused; otherwise the cache decides.
        The configuration object only reaches the registry and is left out. */
    method Get(path: Option<Uri>, createFailure: Option<string>, racer: Option<UnderFileSystem>,
               closeFailure: Option<string>)
      returns (r: Result<UnderFileSystem, UfsError>, ghost candidate: UnderFileSystem?)
      requires cache.Valid()
      requires racer.Some? ==> racer.value !in cache.closed
      modifies cache
      ensures cache.Valid()
      ensures path.None? ==> r == Failure(NullPath) && unchanged(cache)
      ensures path.Some? ==>
        && cache.entries - {KeyOf(path.value)} == old(cache.entries) - {KeyOf(path.value)}
        && (r.Success? ==> KeyOf(path.value) in cache.entries && cache.entries[KeyOf(path.value)] == r.value)
        && (KeyOf(path.value) in old(cache.entries) ==>
              && r == Success(old(cache.entries)[KeyOf(path.value)])
              && cache.entries == old(cache.entries) && cache.created == old(cache.created)
              && cache.closed == old(cache.closed))
      // a miss the registry cannot serve: the failure, nothing changed
      ensures path.Some? && KeyOf(path.value) !in old(cache.entries) && createFailure.Some? ==>
        && r == Failure(CreateFailed(createFailure.value))
        && cache.entries == old(cache.entries) && cache.created == old(cache.created)
        && cache.closed == old(cache.closed)
      // a miss: exactly one new instance is built for the path
      ensures path.Some? && KeyOf(path.value) !in old(cache.entries) && createFailure.None? ==>
        && candidate != null && fresh(candidate) && candidate.uri == path.value
        && cache.created == old(cache.created) + {candidate}
      // ... stored and returned when no competitor got there first
      ensures path.Some? && KeyOf(path.value) !in old(cache.entries) && createFailure.None? && racer.None? ==>
        && r == Success(candidate)
        && cache.entries == old(cache.entries)[KeyOf(path.value) := candidate]
        && cache.closed == old(cache.closed)
      // ... otherwise the competitor's entry stays, the candidate is closed, the winner returned
      ensures path.Some? && KeyOf(path.value) !in old(cache.entries) && createFailure.None? && racer.Some? ==>
        && cache.entries == old(cache.entries)[KeyOf(path.value) := racer.value]
        && cache.closed == old(cache.closed) + {candidate}
        && r == if closeFailure.None? then Success(racer.value) else Failure(CloseFailed(closeFailure.value))
    {
      candidate := null;
      if path.None? {
        return Failure(NullPath), candidate;
      }
      r, candidate := cache.Get(path.value, createFailure, racer, closeFailure);
    }

    /** `Factory.clearCache`. */
    method ClearCache()
      modifies cache
      ensures cache.Valid()
      ensures cache.entries == map[] && cache.created == old(cache.created) && cache.closed == old(cache.closed)
    {
      cache.Clear();
    }
  }

  /** Two URIs with the same scheme and authority get the very same instance, however their
      paths differ. */
  method SameKeySharesInstance(u: Uri, v: Uri) returns (first: UnderFileSystem, second: UnderFileSystem)
    requires KeyOf(u) == KeyOf(v)
    ensures first == second
  {
    var cache := new Cache();
    var r1, _ := cache.Get(u, None, None, None);
    var r2, _ := cache.Get(v, None, None, None);
    first, second := r1.value, r2.value;
  }

  /** Two callers miss on the same key; the competitor's insert lands first. The loser gets the
      winner's instance, later callers get it too, and the loser's own candidate is closed. */
  method RaceConvergesOnOneInstance(uri: Uri)
    returns (winner: UnderFileSystem, seenByLoser: UnderFileSystem, seenLater: UnderFileSystem)
    ensures seenByLoser == winner && seenLater == winner
  {
    var cache := new Cache();
    winner := new UnderFileSystem(uri);
    var r1, candidate := cache.Get(uri, None, Some(winner), None);
    seenByLoser := r1.value;
    assert candidate in cache.closed && candidate !in cache.entries.Values;
    var r2, _ := cache.Get(uri, None, None, None);
    seenLater := r2.value;
  }
}
