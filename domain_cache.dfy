/** The in-memory per-account cache of Search Console site lists
    (`DomainCache` in NewDownloads.py). An entry stays in the map after its
    time-to-live has passed; it only stops being served. */
module DomainCaching {
  import opened Base

  /** Twenty-four hours, the default time-to-live. */
  const DefaultTtlSeconds: int := 86400

  datatype CachedDomainList<T> = CachedDomainList(domains: seq<T>, timestamp: real, account: string)

  /** The dictionary `get_stats` returns. */
  datatype DomainCacheStats = DomainCacheStats(
    totalEntries: nat, validEntries: nat, expiredEntries: nat, ttlSeconds: int)

  /** An entry is served while strictly less than `ttl` seconds old. */
  predicate Fresh<T>(e: CachedDomainList<T>, ttl: int, now: real)
  {
    now - e.timestamp < ttl as real
  }

  /** What `get` answers for `account` at `now`. */
  function Lookup<T>(m: map<string, CachedDomainList<T>>, ttl: int, account: string, now: real): (r: Option<seq<T>>)
    ensures r.Some? <==> account in m && Fresh(m[account], ttl, now)
    ensures r.Some? ==> r.value == m[account].domains
  {
    if account in m && Fresh(m[account], ttl, now) then Some(m[account].domains) else None
  }

  /** The accounts whose entries are still served at `now`. */
  function FreshAccounts<T>(m: map<string, CachedDomainList<T>>, ttl: int, now: real): set<string>
  {
    set a | a in m && Fresh(m[a], ttl, now)
  }

  /** A `set` is served exactly until `ttl` seconds have passed, and leaves every
      other account's answer as it was. */
  lemma SetThenLookup<T>(m: map<string, CachedDomainList<T>>, ttl: int, account: string, domains: seq<T>,
                         setAt: real, other: string, now: real)
    ensures Lookup(m[account := CachedDomainList(domains, setAt, account)], ttl, account, now)
         == (if now - setAt < ttl as real then Some(domains) else None)
    ensures other != account ==>
      Lookup(m[account := CachedDomainList(domains, setAt, account)], ttl, other, now) == Lookup(m, ttl, other, now)
  {
  }

  /** Once no longer served, an entry stays unserved at every later time. */
  lemma ExpiryIsFinal<T>(m: map<string, CachedDomainList<T>>, ttl: int, account: string, now: real, later: real)
    requires now <= later
    requires Lookup(m, ttl, account, now).None?
    ensures Lookup(m, ttl, account, later).None?
  {
  }

  class DomainCache<T> {
    const ttlSeconds: int
    var cache: map<string, CachedDomainList<T>>

    /** Every entry is filed under the account it records. */
    ghost predicate Valid()
      reads this
    {
      forall a :: a in cache ==> cache[a].account == a
    }

    constructor (ttlSeconds: int)
      ensures Valid() && this.ttlSeconds == ttlSeconds && cache == map[]
    {
      this.ttlSeconds := ttlSeconds;
      cache := map[];
    }

    /** `get(account)`: the cached list iff an entry exists and is younger than
        the time-to-live. */
    function Get(account: string, now: real): (r: Option<seq<T>>)
      reads this
      ensures r.Some? <==> account in cache && now - cache[account].timestamp < ttlSeconds as real
      ensures r.Some? ==> r.value == cache[account].domains
      ensures Valid() && r.Some? ==> cache[account].account == account
    {
      Lookup(cache, ttlSeconds, account, now)
    }

    /** `set(account, domains)`: replaces the entry and stamps it with `now`. */
    method Set(account: string, domains: seq<T>, now: real)
      requires Valid()
      modifies this
      ensures Valid()
      ensures cache == old(cache)[account := CachedDomainList(domains, now, account)]
      ensures Get(account, now) == (if 0 < ttlSeconds then Some(domains) else None)
    {
      cache := cache[account := CachedDomainList(domains, now, account)];
    }

    /** `invalidate(account)`: a non-empty account loses its own entry (if any);
        None or the empty account clears every entry. */
    method Invalidate(account: Option<string>)
      requires Valid()
      modifies this
      ensures Valid()
      ensures account.Some? && account.value != [] ==> cache == old(cache) - {account.value}
      ensures account.None? || account.value == [] ==> cache == map[]
    {
      if account.Some? && account.value != [] {
        cache := cache - {account.value};
      } else {
        cache := map[];
      }
    }

    /** `get_stats`: entries counted, those still served counted as valid and
        the rest as expired. */
    method GetStats(now: real) returns (stats: DomainCacheStats)
      ensures stats.totalEntries == |cache|
      ensures stats.validEntries == |FreshAccounts(cache, ttlSeconds, now)|
      ensures stats.validEntries + stats.expiredEntries == stats.totalEntries
      ensures stats.ttlSeconds == ttlSeconds
    {
      var pending := cache.Keys;
      ghost var seen: set<string> := {};
      ghost var served: set<string> := {};
      var valid: nat := 0;
      while pending != {}
        invariant pending !! seen && pending + seen == cache.Keys
        invariant served == set a | a in seen && Fresh(cache[a], ttlSeconds, now)
        invariant valid == |served|
        decreases |pending|
      {
        var a :| a in pending;
        if now - cache[a].timestamp < ttlSeconds as real {
          valid := valid + 1;
          served := served + {a};
        }
        pending := pending - {a};
        seen := seen + {a};
      }
      assert served == FreshAccounts(cache, ttlSeconds, now);
      assert served <= cache.Keys;
      SubsetSize(served, cache.Keys);
      stats := DomainCacheStats(|cache|, valid, |cache| - valid, ttlSeconds);
    }
  }

  lemma {:induction false} SubsetSize<U>(a: set<U>, b: set<U>)
    requires a <= b
    ensures |a| <= |b|
    decreases |b|
  {
    if a != {} {
      var x :| x in a;
      SubsetSize(a - {x}, b - {x});
    }
  }
}
