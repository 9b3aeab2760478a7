/** The web dashboard's query cache (`UnifiedCache` in
    webapp/backend/core/cache.py): a table of responses keyed by the SHA-256
    of the request's JSON with sorted keys, each row carrying its own
    time-to-live, and a log with one row per served query.

    The SQLite tables are the fields `table` and `log`; a call whose storage
    raises is a `fails` argument and leaves both as they were (the connection
    rolls back). `time.time()` is the argument `now`. */
module UnifiedCaching {
  import opened Base
  import opened Strings
  import Ordering

  /** A request dict, its fields in insertion order. */
  type Query = seq<(string, Value)>

  /** `query_data.get(name)`. */
  function Field(q: Query, name: string): (r: Option<Value>)
    ensures r.Some? <==> exists i :: 0 <= i < |q| && q[i].0 == name
  {
    if q == [] then None
    else if q[0].0 == name then Some(q[0].1)
    else Field(q[1..], name)
  }

  /** `_generate_cache_key`: SHA-256 of the JSON text with the fields sorted by
      name; the serialiser and the digest are parameters. */
  function QueryKey(q: Query, dumps: Query -> string, sha256: string -> string): string
  {
    sha256(dumps(Ordering.SortByName(q)))
  }

  /** Requests that differ only in the order of their fields share a key. */
  lemma KeyIgnoresFieldOrder(q1: Query, q2: Query, dumps: Query -> string, sha256: string -> string)
    requires Ordering.DistinctNames(q1) && Ordering.DistinctNames(q2)
    requires multiset(q1) == multiset(q2)
    ensures QueryKey(q1, dumps, sha256) == QueryKey(q2, dumps, sha256)
  {
    Ordering.SortForgetsOrder(q1, q2);
  }

  /** `",".join(query_data.get("sources", []))`: None where join raises (a
      missing field joins as the empty list, a string joins its characters).
      A dict would join its keys in insertion order, which the unordered
      `VDict` does not keep; the routes' typed request always carries a list
      of strings here, so a dict is read as None too. */
  function SourcesText(v: Option<Value>): (r: Option<string>)
    ensures v.None? ==> r == Some([])
    ensures v.Some? && v.value.VList? && (forall i :: 0 <= i < |v.value.items| ==> v.value.items[i].VStr?) ==> r.Some?
  {
    match v
    case None => Some([])
    case Some(VList(items)) =>
      if forall i :: 0 <= i < |items| ==> items[i].VStr? then
        Some(Join(seq(|items|, i requires 0 <= i < |items| && items[i].VStr? => items[i].s), ','))
      else None
    case Some(VStr(s)) => Some(Join(seq(|s|, i requires 0 <= i < |s| => [s[i]]), ','))
    case Some(_) => None
  }

  /** Sources without commas are recorded so that they can be read back. */
  lemma SourcesRecoverable(names: seq<string>)
    requires |names| >= 1
    requires forall i :: 0 <= i < |names| ==> ',' !in names[i]
    ensures var v := VList(seq(|names|, i requires 0 <= i < |names| => VStr(names[i])));
      SourcesText(Some(v)).Some? && Split(SourcesText(Some(v)).value, ',') == names
  {
    var v := VList(seq(|names|, i requires 0 <= i < |names| => VStr(names[i])));
    assert seq(|v.items|, i requires 0 <= i < |v.items| && v.items[i].VStr? => v.items[i].s) == names;
    SplitJoin(names, ',');
  }

  /** A row of `query_cache`. */
  datatype CacheRow = CacheRow(
    response: Record, timestamp: real, ttlSeconds: int,
    sources: string, rowCount: Value, executionTimeMs: real)

  /** A row of `query_log`. */
  datatype LogRow = LogRow(
    queryHash: string, timestamp: real, executionTimeMs: real, cacheHit: bool,
    sources: string, rowCount: int, authIdentifier: Value)

  /** The counts `get_cache_stats` reports; SQL's SUM over no rows is NULL. */
  datatype CacheStats = CacheStats(totalQueries24h: nat, cacheHits24h: Option<nat>, cachedQueries: nat)

  /** A row is served while younger than its own stored time-to-live. */
  predicate Live(row: CacheRow, now: real)
  {
    now - row.timestamp < row.ttlSeconds as real
  }

  /** The answer to a read of `key` at `now`. */
  function Served(table: map<string, CacheRow>, key: string, now: real): (r: Option<Record>)
    ensures r.Some? <==> key in table && Live(table[key], now)
    ensures r.Some? ==> r.value == table[key].response
  {
    if key in table && Live(table[key], now) then Some(table[key].response) else None
  }

  /** The table after a read of `key` at `now`: an expired row is deleted, and
      nothing else changes. */
  function AfterRead(table: map<string, CacheRow>, key: string, now: real): (t: map<string, CacheRow>)
    ensures t.Keys == if key in table && !Live(table[key], now) then table.Keys - {key} else table.Keys
    ensures forall k :: k in t ==> t[k] == table[k]
  {
    if key in table && !Live(table[key], now) then table - {key} else table
  }

  /** Log rows newer than 24 hours before `now`, in order. */
  function Recent(log: seq<LogRow>, now: real): (r: seq<LogRow>)
    ensures |r| <= |log|
    ensures forall i :: 0 <= i < |r| ==> r[i] in log && r[i].timestamp > now - 86400.0
  {
    if log == [] then []
    else
      var rest := Recent(log[1..], now);
      if log[0].timestamp > now - 86400.0 then [log[0]] + rest else rest
  }

  lemma {:induction false} RecentAppend(log: seq<LogRow>, row: LogRow, now: real)
    ensures Recent(log + [row], now) == Recent(log, now) + (if row.timestamp > now - 86400.0 then [row] else [])
  {
    if log != [] {
      assert (log + [row])[1..] == log[1..] + [row];
      RecentAppend(log[1..], row, now);
    } else {
      assert Recent([row][1..], now) == [];
    }
  }

  function Hits(rows: seq<LogRow>): (n: nat)
    ensures n <= |rows|
  {
    if rows == [] then 0 else (if rows[0].cacheHit then 1 else 0) + Hits(rows[1..])
  }

  lemma {:induction false} HitsAppend(rows: seq<LogRow>, row: LogRow)
    ensures Hits(rows + [row]) == Hits(rows) + (if row.cacheHit then 1 else 0)
  {
    if rows != [] {
      assert (rows + [row])[1..] == rows[1..] + [row];
      HitsAppend(rows[1..], row);
    } else {
      assert [row][1..] == [];
    }
  }

  /** The rows `clear_cache(hours)` keeps: those stamped at or after the cutoff. */
  function KeptSince(table: map<string, CacheRow>, cutoff: real): (t: map<string, CacheRow>)
    ensures t.Keys <= table.Keys
    ensures forall k :: k in t ==> t[k] == table[k]
  {
    map k | k in table && table[k].timestamp >= cutoff :: table[k]
  }

  /** The rows a clear with a cutoff deletes, counted: every row older than the
      cutoff and no other. */
  lemma ClearedCount(table: map<string, CacheRow>, cutoff: real)
    ensures |table| - |KeptSince(table, cutoff)| == |set k | k in table && table[k].timestamp < cutoff|
  {
    var old_ := set k | k in table && table[k].timestamp < cutoff;
    var kept := KeptSince(table, cutoff).Keys;
    assert table.Keys == kept + old_;
    assert kept !! old_;
  }

  class UnifiedCache {
    const dumps: Query -> string
    const sha256: string -> string
    var table: map<string, CacheRow>
    var log: seq<LogRow>

    constructor (dumps: Query -> string, sha256: string -> string)
      ensures this.dumps == dumps && this.sha256 == sha256
      ensures table == map[] && log == []
    {
      this.dumps := dumps;
      this.sha256 := sha256;
      table := map[];
      log := [];
    }

    function Key(q: Query): string
    {
      QueryKey(q, dumps, sha256)
    }

    /** The table after a read of `query`'s row at `now`: unchanged when
        storage raises, otherwise with an expired row deleted. */
    function ReadTable(table: map<string, CacheRow>, query: Query, now: real, fails: bool): map<string, CacheRow>
    {
      if fails then table else AfterRead(table, Key(query), now)
    }

    /** The table after `cache_query_result`. */
    function Stored(table: map<string, CacheRow>, query: Query, response: Record, ttlSeconds: int,
                    executionTimeMs: real, now: real, fails: bool): map<string, CacheRow>
    {
      var sources := SourcesText(Field(query, "sources"));
      if fails || sources.None? then table
      else table[Key(query) := CacheRow(response, now, ttlSeconds, sources.value,
                                        GetOr(response, "row_count", VInt(0)), executionTimeMs)]
    }

    /** The log after `log_query`. */
    function Logged(log: seq<LogRow>, query: Query, executionTimeMs: real, cacheHit: bool, rowCount: int,
                    now: real, fails: bool): seq<LogRow>
    {
      var sources := SourcesText(Field(query, "sources"));
      if fails || sources.None? then log
      else log + [LogRow(Key(query), now, executionTimeMs, cacheHit, sources.value, rowCount,
                         match Field(query, "auth_identifier") case Some(v) => v case None => VStr([]))]
    }

    /** Storing a response writes the request's own row and no other: every
        other key keeps its row, or its absence. */
    lemma StoredTouchesOnlyKey(table: map<string, CacheRow>, query: Query, response: Record, ttlSeconds: int,
                               executionTimeMs: real, now: real, fails: bool, other: string)
      requires other != Key(query)
      ensures var t := Stored(table, query, response, ttlSeconds, executionTimeMs, now, fails);
        && (other in t <==> other in table)
        && (other in t ==> t[other] == table[other])
      ensures !fails && SourcesText(Field(query, "sources")).Some? ==>
        var t := Stored(table, query, response, ttlSeconds, executionTimeMs, now, fails);
        Key(query) in t && t[Key(query)].response == response && t[Key(query)].ttlSeconds == ttlSeconds
        && t[Key(query)].timestamp == now
    {
    }

    /** Logging adds at most one row, at the end, recording whether the query
        was a hit and how many rows it gave. */
    lemma LoggedAppendsOne(log: seq<LogRow>, query: Query, executionTimeMs: real, cacheHit: bool, rowCount: int,
                           now: real, fails: bool)
      ensures var l := Logged(log, query, executionTimeMs, cacheHit, rowCount, now, fails);
        && (l == log || (|l| == |log| + 1 && l[..|log|] == log
                         && l[|log|].cacheHit == cacheHit && l[|log|].rowCount == rowCount
                         && l[|log|].queryHash == Key(query)))
        && (l == log <==> fails || SourcesText(Field(query, "sources")).None?)
    {
      var l := Logged(log, query, executionTimeMs, cacheHit, rowCount, now, fails);
      if !fails && SourcesText(Field(query, "sources")).Some? {
        assert l[..|log|] == log;
        assert |l| != |log|;
      }
    }

    /** `get_cached_query`: the stored response iff a row exists and is younger
        than its stored time-to-live (the `ttl_seconds` argument plays no
        part); an expired row found is deleted; storage errors give None. */
    method GetCachedQuery(query: Query, ttlSeconds: int, now: real, fails: bool) returns (r: Option<Record>)
      modifies this
      ensures log == old(log)
      ensures r == if fails then None else Served(old(table), Key(query), now)
      ensures table == ReadTable(old(table), query, now, fails)
    {
      if fails {
        return None;
      }
      var key := Key(query);
      if key in table {
        var row := table[key];
        if now - row.timestamp < row.ttlSeconds as real {
          return Some(row.response);
        }
        table := table - {key};
      }
      return None;
    }

    /** `cache_query_result`: inserts or replaces the one row of the request's
        key, stamped `now`; nothing is written when storage or the join of
        `sources` raises. */
    method CacheQueryResult(query: Query, response: Record, ttlSeconds: int, executionTimeMs: real, now: real, fails: bool)
      modifies this
      ensures log == old(log)
      ensures table == Stored(old(table), query, response, ttlSeconds, executionTimeMs, now, fails)
    {
      var sources := SourcesText(Field(query, "sources"));
      if fails || sources.None? {
        return;
      }
      table := table[Key(query) := CacheRow(response, now, ttlSeconds, sources.value,
                                            GetOr(response, "row_count", VInt(0)), executionTimeMs)];
    }

    /** `log_query`: appends one row per call. */
    method LogQuery(query: Query, executionTimeMs: real, cacheHit: bool, rowCount: int, now: real, fails: bool)
      modifies this
      ensures table == old(table)
      ensures log == Logged(old(log), query, executionTimeMs, cacheHit, rowCount, now, fails)
    {
      var sources := SourcesText(Field(query, "sources"));
      if fails || sources.None? {
        return;
      }
      var auth := match Field(query, "auth_identifier") case Some(v) => v case None => VStr([]);
      log := log + [LogRow(Key(query), now, executionTimeMs, cacheHit, sources.value, rowCount, auth)];
    }

    /** `get_cache_stats`: log rows of the last 24 hours and the cache hits
        among them (NULL when there are none), and the number of cached rows;
        storage errors give the empty dict (None). */
    method GetCacheStats(now: real, fails: bool) returns (stats: Option<CacheStats>)
      ensures fails ==> stats.None?
      ensures !fails ==>
        && stats.Some?
        && stats.value.totalQueries24h == |Recent(log, now)|
        && stats.value.cacheHits24h == (if |Recent(log, now)| == 0 then None else Some(Hits(Recent(log, now))))
        && stats.value.cachedQueries == |table|
    {
      if fails {
        return None;
      }
      var total: nat := 0;
      var hits: nat := 0;
      ghost var recent: seq<LogRow> := [];
      var i := 0;
      while i < |log|
        invariant 0 <= i <= |log|
        invariant recent == Recent(log[..i], now)
        invariant total == |recent| && hits == Hits(recent)
      {
        assert log[..i + 1] == log[..i] + [log[i]];
        RecentAppend(log[..i], log[i], now);
        if log[i].timestamp > now - 86400.0 {
          HitsAppend(recent, log[i]);
          recent := recent + [log[i]];
          total := total + 1;
          if log[i].cacheHit {
            hits := hits + 1;
          }
        }
        i := i + 1;
      }
      assert log[..i] == log;
      stats := Some(CacheStats(total, if total == 0 then None else Some(hits), |table|));
    }

    /** `clear_cache(older_than_hours)`: with no or zero hours every row goes;
        otherwise exactly the rows stamped before `now - hours * 3600`. The
        count deleted is returned; storage errors delete nothing and give 0. */
    method ClearCache(olderThanHours: Option<int>, now: real, fails: bool) returns (deleted: int)
      modifies this
      ensures log == old(log)
      ensures fails ==> deleted == 0 && table == old(table)
      ensures !fails && (olderThanHours.None? || olderThanHours.value == 0) ==>
        table == map[] && deleted == |old(table)|
      ensures !fails && olderThanHours.Some? && olderThanHours.value != 0 ==>
        && table == KeptSince(old(table), now - olderThanHours.value as real * 3600.0)
        && deleted == |old(table)| - |table|
    {
      if fails {
        return 0;
      }
      if olderThanHours.Some? && olderThanHours.value != 0 {
        var cutoff := now - olderThanHours.value as real * 3600.0;
        var kept := KeptSince(table, cutoff);
        deleted := |table| - |kept|;
        table := kept;
      } else {
        deleted := |table|;
        table := map[];
      }
    }
  }

  /** A stored response is served until its time-to-live has passed, and
      storing leaves every other request's answer as it was. */
  lemma StoreThenRead(table: map<string, CacheRow>, key: string, row: CacheRow, other: string, now: real)
    ensures Served(table[key := row], key, now) == (if now - row.timestamp < row.ttlSeconds as real then Some(row.response) else None)
    ensures other != key ==> Served(table[key := row], other, now) == Served(table, other, now)
  {
  }

  /** A read never changes what any key serves at that moment. */
  lemma ReadKeepsAnswers(table: map<string, CacheRow>, key: string, other: string, now: real)
    ensures Served(AfterRead(table, key, now), other, now) == Served(table, other, now)
  {
  }

  /** A row found expired is gone afterwards, and stays a miss. */
  lemma ExpiredReadForgets(table: map<string, CacheRow>, key: string, now: real)
    requires key in table && !Live(table[key], now)
    ensures key !in AfterRead(table, key, now)
  {
  }

  /** A clear with a cutoff keeps every row stamped at or after it. */
  lemma ClearKeepsNewer(table: map<string, CacheRow>, cutoff: real, k: string)
    requires k in table
    ensures k in KeptSince(table, cutoff) <==> table[k].timestamp >= cutoff
  {
  }
}
