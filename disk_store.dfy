/** The on-disk key/value cache behind the memoising decorators and the
    fault-tolerant helpers of cache_utils.py.

    The store keeps, per key, the value, the absolute expiry time and an optional
    tag; a read at time `now` sees only entries whose expiry lies after `now`.
    The store's own culling of expired entries and its size-limit eviction on a
    write are not modelled, so here expired entries stay counted until deleted
    and a write changes only its own key. Whether a store call raises is a
    `...Fails` parameter of the operation that makes it. */
module DiskStore {
  import opened Base
  import opened Strings
  import CacheKeys

  datatype Entry = Entry(value: Value, expireAt: Option<real>, tag: Option<string>)

  predicate Live(e: Entry, now: real)
  {
    e.expireAt.None? || now < e.expireAt.value
  }

  /** `expire=` seconds from `now`, or no expiry. */
  function ExpiryOf(now: real, expire: Option<int>): Option<real>
  {
    if expire.Some? then Some(now + expire.value as real) else None
  }

  /** The entries `evict(tag)` leaves behind. */
  function WithoutTag(m: map<string, Entry>, tag: string): map<string, Entry>
  {
    map k | k in m && m[k].tag != Some(tag) :: m[k]
  }

  /** The entries left after deleting every key that contains `part`, where the
      deletion of the keys in `deleteFails` raises and is ignored. */
  function WithoutMatching(m: map<string, Entry>, part: string, deleteFails: string -> bool): map<string, Entry>
  {
    map k | k in m && !(Contains(k, part) && !deleteFails(k)) :: m[k]
  }

  function Remove(m: map<string, Entry>, ks: set<string>): map<string, Entry>
  {
    map k | k in m && k !in ks :: m[k]
  }

  lemma MatchingIsRemove(m: map<string, Entry>, part: string, deleteFails: string -> bool, removed: set<string>)
    requires removed == set k | k in m && Contains(k, part) && !deleteFails(k)
    ensures Remove(m, removed) == WithoutMatching(m, part, deleteFails)
  {
  }

  /** The entries left after deleting every key that begins with `prefix`. */
  function WithoutPrefix(m: map<string, Entry>, prefix: string): map<string, Entry>
  {
    map k | k in m && !StartsWith(k, prefix) :: m[k]
  }

  function KeysWithPrefix(m: map<string, Entry>, prefix: string): set<string>
  {
    set k | k in m && StartsWith(k, prefix)
  }

  /** Python's `int()` of a float: the integer part, truncated toward zero. */
  function Truncate(x: real): (i: int)
    ensures 0.0 <= x ==> i as real <= x < i as real + 1.0
    ensures x < 0.0 ==> i as real - 1.0 < x <= i as real
  {
    if 0.0 <= x then x.Floor else -((-x).Floor)
  }

  /** The health probe's key: `{prefix}:test_{int(time.time())}`. */
  function ProbeKey(testPrefix: string, now: real): string
  {
    testPrefix + ":test_" + IntToString(Truncate(now))
  }

  /** The health probe's value `{"timestamp": time.time(), "test": True}`. */
  function ProbeValue(now: real): Value
  {
    VDict(map["timestamp" := VFloat(now), "test" := VBool(true)])
  }

  /** Python `v == True`: True, 1 and 1.0 all compare equal to True. */
  predicate EqualsTrue(v: Value)
  {
    v == VBool(true) || v == VInt(1) || v == VFloat(1.0)
  }

  /** `retrieved is not None and retrieved.get("test") == True`; a value without
      `.get` raises, which the probe reports as False. */
  predicate ProbePasses(retrieved: Value)
  {
    retrieved.VDict? && "test" in retrieved.fields && EqualsTrue(retrieved.fields["test"])
  }

  /** The dictionary `get_cache_stats` returns. */
  datatype CacheStats = CacheStats(
    cacheName: string,
    cacheSize: nat,
    cacheHealthy: bool,
    operationsWorking: Option<bool>,
    error: Option<string>)

  class Store {
    var entries: map<string, Entry>
    /** Whether the store offers tag eviction (`hasattr(cache, 'evict')`). */
    const hasEvict: bool

    constructor (hasEvict: bool)
      ensures this.hasEvict == hasEvict && entries == map[]
    {
      this.hasEvict := hasEvict;
      entries := map[];
    }

    /** `cache.get(key)`: the value of a live entry, otherwise None. */
    function Read(key: string, now: real): (v: Value)
      reads this
      ensures v != VNone ==> key in entries && Live(entries[key], now) && v == entries[key].value
      ensures key !in entries ==> v == VNone
    {
      if key in entries && Live(entries[key], now) then entries[key].value else VNone
    }

    /** `safe_cache_get`: an empty key or a raising store gives None; otherwise
        whatever the store holds for the key at `now`. */
    function SafeGet(key: Option<string>, now: real, fails: bool): (v: Value)
      reads this
      ensures key.None? || key.value == [] || fails ==> v == VNone
      ensures v != VNone ==> key.Some? && key.value in entries
                             && Live(entries[key.value], now) && entries[key.value].value == v
      ensures key.Some? && key.value != [] && !fails ==> v == Read(key.value, now)
    {
      if key.None? || key.value == [] then VNone
      else if fails then VNone
      else Read(key.value, now)
    }

    /** `safe_cache_set`: refuses an empty key or a None value, reports a raising
        store as False, and otherwise writes the entry (tagged when the tag is
        non-empty) and reports True. */
    method SafeSet(key: Option<string>, value: Value, expire: int, tag: Option<string>, now: real, fails: bool)
      returns (ok: bool)
      modifies this
      ensures ok <==> key.Some? && key.value != [] && value != VNone && !fails
      ensures ok ==> entries == old(entries)[key.value := Entry(value, Some(now + expire as real),
                                  if tag.Some? && tag.value != [] then tag else None)]
      ensures !ok ==> entries == old(entries)
    {
      if key.None? || key.value == [] || value == VNone {
        return false;
      }
      if fails {
        return false;
      }
      var t := if tag.Some? && tag.value != [] then tag else None;
      entries := entries[key.value := Entry(value, Some(now + expire as real), t)];
      ok := true;
    }

    /** `safe_cache_clear`. With tag eviction, every entry tagged `funcName` goes.
        Without it, every key containing `funcName` anywhere is deleted one by one,
        a raising delete being skipped. True unless the eviction or the listing of
        keys raises, in which case nothing changes. */
    method SafeClear(funcName: string, evictFails: bool, listFails: bool, deleteFails: string -> bool)
      returns (ok: bool)
      modifies this
      ensures hasEvict ==> ok == !evictFails
      ensures !hasEvict ==> ok == !listFails
      ensures ok && hasEvict ==> entries == WithoutTag(old(entries), funcName)
      ensures ok && !hasEvict ==> entries == WithoutMatching(old(entries), funcName, deleteFails)
      ensures !ok ==> entries == old(entries)
    {
      if hasEvict {
        if evictFails {
          return false;
        }
        entries := WithoutTag(entries, funcName);
        return true;
      }
      if listFails {
        return false;
      }
      var matching := set k | k in entries && Contains(k, funcName);
      DeleteEach(matching, deleteFails);
      MatchingIsRemove(old(entries), funcName, deleteFails, set k | k in matching && !deleteFails(k));
      ok := true;
    }

    /** Deletes the given keys one at a time, skipping those whose delete raises. */
    method DeleteEach(keys: set<string>, deleteFails: string -> bool)
      modifies this
      ensures entries == Remove(old(entries), set k | k in keys && !deleteFails(k))
    {
      var pending := keys;
      ghost var done: set<string> := {};
      while pending != {}
        invariant pending !! done && pending + done == keys
        invariant forall k :: k in entries <==> k in old(entries) && !(k in done && !deleteFails(k))
        invariant forall k :: k in entries ==> entries[k] == old(entries)[k]
        decreases |pending|
      {
        var k :| k in pending;
        if !deleteFails(k) {
          entries := entries - {k};
        }
        pending := pending - {k};
        done := done + {k};
      }
    }

    /** `validate_cache_operations`: writes the probe for 60 seconds, reads it
        back, deletes it, and is True iff none of the three calls raised and the
        value read back has `test == True`. A raising read or delete leaves the
        probe behind. */
    method ValidateOperations(testPrefix: string, now: real, setFails: bool, getFails: bool, deleteFails: bool)
      returns (ok: bool)
      modifies this
      ensures ok <==> !setFails && !getFails && !deleteFails
      ensures setFails ==> entries == old(entries)
      ensures !setFails && (getFails || deleteFails) ==>
        entries == old(entries)[ProbeKey(testPrefix, now) := Entry(ProbeValue(now), Some(now + 60.0), None)]
      ensures ok ==> entries == old(entries) - {ProbeKey(testPrefix, now)}
    {
      var key := ProbeKey(testPrefix, now);
      if setFails {
        return false;
      }
      entries := entries[key := Entry(ProbeValue(now), Some(now + 60.0), None)];
      if getFails {
        return false;
      }
      var retrieved := Read(key, now);
      if deleteFails {
        return false;
      }
      entries := entries - {key};
      ok := ProbePasses(retrieved);
    }

    /** `get_cache_stats`: the size before probing, and health equal to the
        probe's verdict; when counting the entries raises, size 0 and unhealthy. */
    method GetCacheStats(cacheName: string, now: real, sizeFails: bool,
                         setFails: bool, getFails: bool, deleteFails: bool)
      returns (stats: CacheStats)
      modifies this
      ensures sizeFails ==> stats.cacheSize == 0 && !stats.cacheHealthy && stats.error.Some?
                            && entries == old(entries)
      ensures !sizeFails ==> stats.cacheSize == |old(entries)| && stats.error.None?
      ensures !sizeFails ==> stats.operationsWorking == Some(stats.cacheHealthy)
      ensures !sizeFails ==> (stats.cacheHealthy <==> !setFails && !getFails && !deleteFails)
      ensures stats.cacheName == cacheName
      // the store after the health probe
      ensures !sizeFails && setFails ==> entries == old(entries)
      ensures !sizeFails && !setFails && (getFails || deleteFails) ==>
        entries == old(entries)[ProbeKey(cacheName + "_health", now) := Entry(ProbeValue(now), Some(now + 60.0), None)]
      ensures !sizeFails && !setFails && !getFails && !deleteFails ==>
        entries == old(entries) - {ProbeKey(cacheName + "_health", now)}
    {
      if sizeFails {
        return CacheStats(cacheName, 0, false, None, Some("len() raised"));
      }
      var size := |entries|;
      var working := ValidateOperations(cacheName + "_health", now, setFails, getFails, deleteFails);
      stats := CacheStats(cacheName, size, working, Some(working), None);
    }

    /** The hit test of the `persistent_cache` wrappers: a live entry whose value
        is not None. A stored None reads as a miss. */
    function Cached(key: string, now: real): (r: Option<Value>)
      reads this
      ensures r.Some? ==> r.value != VNone && r.value == Read(key, now)
      ensures r.None? ==> Read(key, now) == VNone
    {
      var v := Read(key, now);
      if v != VNone then Some(v) else None
    }

    /** One call through a `persistent_cache` wrapper. An unhashable argument
        raises before the store is touched; a hit returns the stored value without
        calling the function; a miss calls it (`call` is its outcome) and stores
        the result, None included, for `expire` seconds. Store errors are not
        caught and propagate to the caller. */
    method CallMemoized(name: string, args: seq<Value>, kwargs: CacheKeys.Kwargs, typed: bool,
                        hash: CacheKeys.HashInput -> int, typeHash: seq<string> -> int,
                        expire: int, now: real, getFails: bool, setFails: bool, call: Result<Value>)
      returns (r: Result<Value>, called: bool)
      modifies this
      ensures var key := CacheKeys.PersistentKey(name, args, kwargs, typed, hash, typeHash);
        && (key.Err? ==> r == Err(key.message) && !called)
        && (key.Ok? && getFails ==> r.Err? && !called)
        && (key.Ok? && !getFails ==> (called <==> old(Cached(key.value, now)).None?))
        && (key.Ok? && !getFails && !called ==> r == Ok(old(Cached(key.value, now)).value))
        && (called && call.Err? ==> r == call)
        && (called && call.Ok? && setFails ==> r.Err?)
        && (called && call.Ok? && !setFails ==>
              r == call && entries == old(entries)[key.value := Entry(call.value, Some(now + expire as real), None)])
      ensures !(called && call.Ok? && !setFails) ==> entries == old(entries)
    {
      var key := CacheKeys.PersistentKey(name, args, kwargs, typed, hash, typeHash);
      called := false;
      if key.Err? {
        return Err(key.message), false;
      }
      if getFails {
        return Err("cache read raised"), false;
      }
      var hit := Cached(key.value, now);
      if hit.Some? {
        return Ok(hit.value), false;
      }
      called := true;
      if call.Err? {
        return call, true;
      }
      if setFails {
        return Err("cache write raised"), true;
      }
      entries := entries[key.value := Entry(call.value, Some(now + expire as real), None)];
      r := call;
    }

    /** `cache_clear` of a wrapper and `clear_function_cache`: delete exactly the
        keys that begin with `name:`, and count them. */
    method ClearFunction(name: string) returns (deleted: nat)
      modifies this
      ensures entries == WithoutPrefix(old(entries), name + ":")
      ensures deleted == |KeysWithPrefix(old(entries), name + ":")|
    {
      var prefix := name + ":";
      var pending := set k | k in entries && StartsWith(k, prefix);
      ghost var done: set<string> := {};
      deleted := 0;
      while pending != {}
        invariant pending !! done
        invariant pending + done == KeysWithPrefix(old(entries), prefix)
        invariant entries == Without(old(entries), done)
        invariant deleted == |done|
        decreases |pending|
      {
        var k :| k in pending;
        WithoutOneMore(old(entries), done, k);
        entries := entries - {k};
        pending := pending - {k};
        done := done + {k};
        deleted := deleted + 1;
      }
      WithoutEveryPrefixed(old(entries), prefix);
    }
  }

  /** `m` without the keys in `gone`. */
  function Without(m: map<string, Entry>, gone: set<string>): map<string, Entry>
  {
    map k | k in m && k !in gone :: m[k]
  }

  lemma WithoutOneMore(m: map<string, Entry>, gone: set<string>, k: string)
    ensures Without(m, gone) - {k} == Without(m, gone + {k})
  {
  }

  lemma WithoutEveryPrefixed(m: map<string, Entry>, prefix: string)
    ensures Without(m, KeysWithPrefix(m, prefix)) == WithoutPrefix(m, prefix)
  {
  }

  /** Clearing one function's entries leaves every entry of every other
      function in place. */
  lemma ClearSparesOtherFunctions(m: map<string, Entry>, f: string, g: string, key: string)
    requires f != g && ':' !in f && ':' !in g
    requires key in m && StartsWith(key, g + ":")
    ensures key in WithoutPrefix(m, f + ":") && WithoutPrefix(m, f + ":")[key] == m[key]
  {
    OutsideOtherNamespace(key, f, g);
  }

  /** After clearing a function's entries, none of its keys can hit. */
  lemma ClearRemovesEveryHit(m: map<string, Entry>, f: string, key: string)
    requires StartsWith(key, f + ":")
    ensures key !in WithoutPrefix(m, f + ":")
  {
  }

  /** Without tag eviction, clearing by substring also removes keys of other
      functions whose names merely contain `funcName`. */
  lemma SubstringClearReachesOtherFunctions(m: map<string, Entry>, funcName: string, other: string, deleteFails: string -> bool)
    requires other in m && Contains(other, funcName) && !deleteFails(other)
    ensures other !in WithoutMatching(m, funcName, deleteFails)
  {
  }
}
