/** The query routes of the web dashboard (webapp/backend/routes/query.py):
    the table of active queries and their cancel flags, the background task
    that takes a query from queued through running to completed, failed or
    cancelled, and paginated reading of the results.

    The FastAPI wiring, the WebSocket broadcasts and the CSV/Excel rendering
    are not modelled. The provider call is the argument `provider` (the rows
    it returns or the text of the exception it raises); a cancel request that
    arrives while the task is suspended is the argument `cancelAt`. */
module QueryRoutes {
  import opened Base
  import UnifiedCaching
  import ResultSort

  // ---------------------------------------------------------------------------
  // Pagination

  datatype PageReply = PageReply(
    data: seq<Value>, totalRows: nat, page: int, pageSize: int,
    totalPages: int, hasNext: bool, hasPrev: bool)

  /** Python's `data[a:b]` for `0 <= a <= b`: the rows from `a` up to `b`
      that exist. */
  function Slice(data: seq<Value>, a: nat, b: nat): (s: seq<Value>)
    requires a <= b
    ensures |s| == (if a >= |data| then 0 else if b >= |data| then |data| - a else b - a)
    ensures forall k :: 0 <= k < |s| ==> a + k < |data| && s[k] == data[a + k]
  {
    if a >= |data| then [] else if b >= |data| then data[a..] else data[a..b]
  }

  /** The index of the first row of page `page`. */
  function Offset(page: int, size: int): (o: nat)
    requires page >= 1 && size >= 1
  {
    MultiplyMonotone(0, page - 1, size);
    (page - 1) * size
  }

  function ClampPage(page: int): int
  {
    if page < 1 then 1 else page
  }

  function ClampSize(pageSize: int): int
  {
    if pageSize < 1 then 100 else if pageSize > 1000 then 1000 else pageSize
  }

  /** `get_paginated_results` on the rows of a completed query: page below 1
      becomes 1, a size below 1 becomes 100 and above 1000 becomes 1000. */
  function Paginate(data: seq<Value>, page: int, pageSize: int): (r: PageReply)
    ensures r.page == ClampPage(page) >= 1
    ensures 1 <= r.pageSize == ClampSize(pageSize) <= 1000
    ensures r.totalRows == |data|
    ensures |r.data| <= r.pageSize
    ensures r.hasPrev <==> r.page > 1
  {
    var p := ClampPage(page);
    var size := ClampSize(pageSize);
    var start := Offset(p, size);
    var totalPages := (|data| + size - 1) / size;
    PageReply(Slice(data, start, start + size), |data|, p, size, totalPages, p < totalPages, p > 1)
  }

  lemma MultiplyMonotone(a: int, b: int, c: int)
    requires a <= b && c >= 0
    ensures a * c <= b * c
  {
  }

  /** Ceiling division, as `(total + size - 1) // size` computes it. */
  lemma CeilingDivision(total: nat, size: int)
    requires size >= 1
    ensures var pages := (total + size - 1) / size;
      && pages * size >= total
      && (total == 0 ==> pages == 0)
      && (total > 0 ==> (pages - 1) * size < total)
  {
    var pages := (total + size - 1) / size;
    var rem := (total + size - 1) % size;
    assert total + size - 1 == pages * size + rem;
    assert (pages - 1) * size == pages * size - size;
  }

  /** `total_pages` is the least number of pages of `page_size` rows that hold
      every row. */
  lemma TotalPagesIsCeiling(data: seq<Value>, page: int, pageSize: int)
    ensures var r := Paginate(data, page, pageSize);
      && r.totalPages * r.pageSize >= |data|
      && (|data| == 0 ==> r.totalPages == 0)
      && (|data| > 0 ==> (r.totalPages - 1) * r.pageSize < |data|)
  {
    var r := Paginate(data, page, pageSize);
    CeilingDivision(|data|, r.pageSize);
  }

  /** A page holds exactly the rows from its offset on, as many as the page
      size allows and as exist. */
  lemma PageContents(data: seq<Value>, page: int, pageSize: int)
    ensures var r := Paginate(data, page, pageSize);
      var start := Offset(r.page, r.pageSize);
      && |r.data| == (if start >= |data| then 0 else if start + r.pageSize >= |data| then |data| - start else r.pageSize)
      && forall k :: 0 <= k < |r.data| ==> r.data[k] == data[start + k]
  {
  }

  /** `has_next` holds exactly when rows remain after this page. */
  lemma HasNextIffRowsRemain(data: seq<Value>, page: int, pageSize: int)
    ensures var r := Paginate(data, page, pageSize);
      r.hasNext <==> r.page * r.pageSize < |data|
  {
    var r := Paginate(data, page, pageSize);
    var size := r.pageSize;
    var pages := r.totalPages;
    CeilingDivision(|data|, size);
    if r.page < pages {
      MultiplyMonotone(r.page, pages - 1, size);
    } else {
      MultiplyMonotone(pages, r.page, size);
    }
  }

  lemma DivisionSplit(k: nat, size: int)
    requires size >= 1
    ensures Offset(k / size + 1, size) + k % size == k && k % size < size
  {
  }

  /** Row `k` is shown on page `k / size + 1`, at position `k % size`. */
  lemma EveryRowOnItsPage(data: seq<Value>, pageSize: int, k: int)
    requires 1 <= pageSize <= 1000 && 0 <= k < |data|
    ensures var r := Paginate(data, k / pageSize + 1, pageSize);
      k % pageSize < |r.data| && r.data[k % pageSize] == data[k]
  {
    DivisionSplit(k, pageSize);
    RowAtOffset(data, pageSize, k / pageSize, k % pageSize);
  }

  lemma RowAtOffset(data: seq<Value>, pageSize: int, q: nat, rem: nat)
    requires 1 <= pageSize <= 1000 && rem < pageSize && Offset(q + 1, pageSize) + rem < |data|
    ensures var r := Paginate(data, q + 1, pageSize);
      rem < |r.data| && r.data[rem] == data[Offset(q + 1, pageSize) + rem]
  {
    PageContents(data, q + 1, pageSize);
  }

  // ---------------------------------------------------------------------------
  // Query records

  datatype Status = Queued | Running | Completed | Failed | Cancelled

  datatype Progress = Progress(current: int, total: int, message: string)

  /** The entry of `active_queries` for one query; `data` holds the row dicts. */
  datatype QueryInfo = QueryInfo(
    status: Status, progress: Option<Progress>, canCancel: bool,
    data: Option<seq<Value>>, rowCount: Option<int>, cacheHit: bool,
    error: Option<string>, query: UnifiedCaching.Query)

  /** What a query was asked: the request dict and the fields the task reads. */
  datatype QueryRequest = QueryRequest(
    query: UnifiedCaching.Query, sort: seq<ResultSort.SortSpec>, limit: Option<int>, debug: bool)

  /** The reply of a results or export route. */
  datatype RouteReply<T> = NotFound | NotCompleted | Reply(value: T)

  function Rows(rows: seq<Record>): (vs: seq<Value>)
    ensures |vs| == |rows|
    ensures forall i :: 0 <= i < |rows| ==> vs[i] == VDict(rows[i])
  {
    seq(|rows|, i requires 0 <= i < |rows| => VDict(rows[i]))
  }

  /** The rows of a cached response (`cached_result["data"]`), None when the
      response has no list there (the lookup raises). */
  function CachedRows(cached: Record): Option<seq<Value>>
  {
    if "data" in cached && cached["data"].VList? then Some(cached["data"].items) else None
  }

  const CachedDataError: string := "'data'"

  /** The response stored for fresh results. */
  function CacheData(rows: seq<Record>): Record
  {
    map["data" := VList(Rows(rows)), "row_count" := VInt(|rows|)]
  }

  /** What the task finally serves for fresh rows: sorted by the specs when
      there are specs and rows, then cut to the limit. */
  function FinalRows(rows: seq<Record>, sort: seq<ResultSort.SortSpec>, limit: Option<int>, str: Value -> string): seq<Record>
  {
    ResultSort.Limit(if sort != [] && rows != [] then ResultSort.SortAll(rows, sort, str) else rows, limit)
  }

  /** The text of the TypeError the background task's registry call raises:
      `execute_unified_query` takes no `progress_callback` argument. */
  const ProgressCallbackError: string :=
    "DataProviderRegistry.execute_unified_query() got an unexpected keyword argument 'progress_callback'"

  /** The sorting and the limit of step 3. */
  method ProcessResults(results: seq<Record>, sort: seq<ResultSort.SortSpec>, limit: Option<int>, str: Value -> string)
    returns (rows: seq<Record>)
    ensures rows == FinalRows(results, sort, limit, str)
  {
    rows := results;
    if sort != [] && rows != [] {
      rows := ResultSort.ApplySorting(rows, sort, str);
    }
    rows := ResultSort.Limit(rows, limit);
  }

  /** Setting a flag and then popping it leaves what popping alone leaves. */
  lemma DropAfterSet(flags: map<string, bool>, id: string)
    ensures flags[id := true] - {id} == flags - {id}
  {
  }

  class QueryManager {
    var activeQueries: map<string, QueryInfo>
    var cancelFlags: map<string, bool>
    const cache: UnifiedCaching.UnifiedCache

    constructor (cache: UnifiedCaching.UnifiedCache)
      ensures activeQueries == map[] && cancelFlags == map[] && this.cache == cache
    {
      activeQueries := map[];
      cancelFlags := map[];
      this.cache := cache;
    }

    predicate CancelRequested(id: string)
      reads this
    {
      id in cancelFlags && cancelFlags[id]
    }

    /** `create_query`: a new entry, queued, under a fresh id. */
    method CreateQuery(id: string, query: UnifiedCaching.Query)
      requires id !in activeQueries
      modifies this
      ensures activeQueries == old(activeQueries)[id := QueryInfo(Queued, None, false, None, None, false, None, query)]
      ensures cancelFlags == old(cancelFlags)
    {
      activeQueries := activeQueries[id := QueryInfo(Queued, None, false, None, None, false, None, query)];
    }

    /** `cancel_query`: 404 for an unknown id, 400 unless queued or running;
        otherwise the flag is set and the entry marked cancelled. */
    method CancelQuery(id: string) returns (code: int)
      modifies this
      ensures id !in old(activeQueries) ==> code == 404 && unchanged(this)
      ensures id in old(activeQueries) && old(activeQueries)[id].status !in {Queued, Running} ==>
        code == 400 && unchanged(this)
      ensures id in old(activeQueries) && old(activeQueries)[id].status in {Queued, Running} ==>
        && code == 200
        && cancelFlags == old(cancelFlags)[id := true]
        && activeQueries == old(activeQueries)[id := old(activeQueries)[id].(status := Cancelled, canCancel := false)]
    {
      if id !in activeQueries {
        return 404;
      }
      if activeQueries[id].status !in {Queued, Running} {
        return 400;
      }
      cancelFlags := cancelFlags[id := true];
      activeQueries := activeQueries[id := activeQueries[id].(status := Cancelled, canCancel := false)];
      return 200;
    }

    /** `delete_query`: 404 for an unknown id; otherwise the entry and any
        cancel flag go. */
    method DeleteQuery(id: string) returns (code: int)
      modifies this
      ensures id !in old(activeQueries) ==> code == 404 && unchanged(this)
      ensures id in old(activeQueries) ==>
        && code == 200
        && activeQueries == old(activeQueries) - {id}
        && cancelFlags == old(cancelFlags) - {id}
    {
      if id !in activeQueries {
        return 404;
      }
      activeQueries := activeQueries - {id};
      cancelFlags := cancelFlags - {id};
      return 200;
    }

    /** `get_paginated_results`: 404 for an unknown id, 400 unless completed. */
    function PaginatedResults(id: string, page: int, pageSize: int): (r: RouteReply<PageReply>)
      reads this
      ensures r.NotFound? <==> id !in activeQueries
      ensures r.NotCompleted? <==> id in activeQueries && activeQueries[id].status != Completed
      ensures r.Reply? ==> r.value.totalRows == (if activeQueries[id].data.Some? then |activeQueries[id].data.value| else 0)
    {
      if id !in activeQueries then NotFound
      else if activeQueries[id].status != Completed then NotCompleted
      else Reply(Paginate(if activeQueries[id].data.Some? then activeQueries[id].data.value else [], page, pageSize))
    }

    /** The gate of the CSV and Excel exports: 404 for an unknown id, 400
        unless completed, 404 again when there are no rows. */
    function ExportRows(id: string): (r: RouteReply<seq<Value>>)
      reads this
      ensures r.NotFound? <==>
        || id !in activeQueries
        || (activeQueries[id].status == Completed && (activeQueries[id].data.None? || activeQueries[id].data.value == []))
      ensures r.NotCompleted? <==> id in activeQueries && activeQueries[id].status != Completed
      ensures r.Reply? ==> r.value != []
    {
      if id !in activeQueries then NotFound
      else if activeQueries[id].status != Completed then NotCompleted
      else if activeQueries[id].data.None? || activeQueries[id].data.value == [] then NotFound
      else Reply(activeQueries[id].data.value)
    }

    /** Marks query `id` cancelled (the task saw its flag). */
    method MarkCancelled(id: string)
      requires id in activeQueries
      modifies this
      ensures activeQueries == old(activeQueries)[id := old(activeQueries)[id].(status := Cancelled)]
      ensures cancelFlags == old(cancelFlags) - {id}
    {
      activeQueries := activeQueries[id := activeQueries[id].(status := Cancelled)];
      cancelFlags := cancelFlags - {id};
    }

    /** Marks query `id` failed with the text of the exception. */
    method MarkFailed(id: string, message: string)
      requires id in activeQueries
      modifies this
      ensures activeQueries == old(activeQueries)[id := old(activeQueries)[id].(
        status := Failed, error := Some(message), canCancel := false,
        progress := Some(Progress(3, 3, "Failed: " + message)))]
      ensures cancelFlags == old(cancelFlags) - {id}
    {
      activeQueries := activeQueries[id := activeQueries[id].(
        status := Failed, error := Some(message), canCancel := false,
        progress := Some(Progress(3, 3, "Failed: " + message)))];
      cancelFlags := cancelFlags - {id};
    }

    /** Completes query `id` from a cached response and logs the hit. */
    method ServeCached(id: string, query: UnifiedCaching.Query, rows: seq<Value>, now: real, storeFails: bool)
      requires id in activeQueries
      modifies this, cache
      ensures activeQueries == old(activeQueries)[id := old(activeQueries)[id].(
        status := Completed, data := Some(rows), rowCount := Some(|rows|), cacheHit := true,
        progress := Some(Progress(3, 3, "Completed (cache hit)")), canCancel := false)]
      ensures cancelFlags == old(cancelFlags) - {id}
      ensures cache.table == old(cache.table)
      ensures cache.log == cache.Logged(old(cache.log), query, 0.0, true, |rows|, now, storeFails)
    {
      activeQueries := activeQueries[id := activeQueries[id].(
        status := Completed, data := Some(rows), rowCount := Some(|rows|), cacheHit := true,
        progress := Some(Progress(3, 3, "Completed (cache hit)")), canCancel := false)];
      cache.LogQuery(query, 0.0, true, |rows|, now, storeFails);
      cancelFlags := cancelFlags - {id};
    }

    /** Sorts and limits fresh rows, completes query `id` with them, stores
        them in the cache for an hour and logs the miss. */
    method ServeFresh(id: string, request: QueryRequest, results: seq<Record>, str: Value -> string,
                      now: real, storeFails: bool)
      requires id in activeQueries
      modifies this, cache
      ensures var rows := FinalRows(results, request.sort, request.limit, str);
        activeQueries == old(activeQueries)[id := old(activeQueries)[id].(
          status := Completed, data := Some(Rows(rows)), rowCount := Some(|rows|), cacheHit := false,
          progress := Some(Progress(3, 3, "Completed")), canCancel := false)]
      ensures cancelFlags == old(cancelFlags) - {id}
      ensures !storeFails && UnifiedCaching.SourcesText(UnifiedCaching.Field(request.query, "sources")).Some? ==>
        && cache.Key(request.query) in cache.table
        && cache.table[cache.Key(request.query)].response == CacheData(FinalRows(results, request.sort, request.limit, str))
        && cache.table[cache.Key(request.query)].ttlSeconds == 3600
      ensures var rows := FinalRows(results, request.sort, request.limit, str);
        && cache.table == cache.Stored(old(cache.table), request.query, CacheData(rows), 3600, 0.0, now, storeFails)
        && cache.log == cache.Logged(old(cache.log), request.query, 0.0, false, |rows|, now, storeFails)
    {
      activeQueries := activeQueries[id := activeQueries[id].(progress := Some(Progress(3, 3, "Processing results...")))];
      var rows := ProcessResults(results, request.sort, request.limit, str);
      activeQueries := activeQueries[id := activeQueries[id].(
        status := Completed, data := Some(Rows(rows)), rowCount := Some(|rows|), cacheHit := false,
        progress := Some(Progress(3, 3, "Completed")), canCancel := false)];
      cache.CacheQueryResult(request.query, CacheData(rows), 3600, 0.0, now, storeFails);
      cache.LogQuery(request.query, 0.0, false, |rows|, now, storeFails);
      cancelFlags := cancelFlags - {id};
    }

    /** Steps 2 and 3 of `execute_query_background`, after a cache miss:
        `cancelled` is whether a cancel request arrives while the providers
        run. */
    method RunProviders(id: string, request: QueryRequest, cancelled: bool,
                        provider: Result<seq<Record>>, str: Value -> string, now: real, storeFails: bool)
      requires id in activeQueries && activeQueries[id].status == Running && !CancelRequested(id)
      modifies this, cache
      ensures id in activeQueries && activeQueries.Keys == old(activeQueries.Keys)
      ensures forall other :: other in activeQueries && other != id ==> activeQueries[other] == old(activeQueries[other])
      ensures cancelFlags == old(cancelFlags) - {id}
      ensures provider.Err? ==>
        activeQueries[id].status == Failed && activeQueries[id].error == Some(provider.message)
      ensures cancelled && provider.Ok? ==> activeQueries[id].status == Cancelled
      ensures !cancelled && provider.Ok? ==>
        var rows := FinalRows(provider.value, request.sort, request.limit, str);
        && activeQueries[id].status == Completed
        && !activeQueries[id].cacheHit
        && activeQueries[id].data == Some(Rows(rows))
        && activeQueries[id].rowCount == Some(|rows|)
        && (!storeFails && UnifiedCaching.SourcesText(UnifiedCaching.Field(request.query, "sources")).Some? ==>
              && cache.Key(request.query) in cache.table
              && cache.table[cache.Key(request.query)].response == CacheData(rows)
              && cache.table[cache.Key(request.query)].ttlSeconds == 3600)
      ensures provider.Err? || cancelled ==> cache.table == old(cache.table) && cache.log == old(cache.log)
      ensures !cancelled && provider.Ok? ==>
        var rows := FinalRows(provider.value, request.sort, request.limit, str);
        && cache.table == cache.Stored(old(cache.table), request.query, CacheData(rows), 3600, 0.0, now, storeFails)
        && cache.log == cache.Logged(old(cache.log), request.query, 0.0, false, |rows|, now, storeFails)
    {
      activeQueries := activeQueries[id := activeQueries[id].(progress := Some(Progress(2, 3, "Querying data...")))];
      if cancelled {
        var flags := cancelFlags;
        var _ := CancelQuery(id);
        DropAfterSet(flags, id);
      }
      if provider.Err? {
        MarkFailed(id, provider.message);
        return;
      }
      if CancelRequested(id) {
        MarkCancelled(id);
        return;
      }
      ServeFresh(id, request, provider.value, str, now, storeFails);
    }

    /** `execute_query_background`: see the postconditions for each way it can
        end. `cancelAt` is 1 when a cancel request arrives while the cache is
        read, 2 while the providers run, and anything else for none. */
    method ExecuteQueryBackground(id: string, request: QueryRequest, cancelAt: nat,
                                  provider: Result<seq<Record>>, str: Value -> string,
                                  now: real, storeFails: bool)
      requires id in activeQueries
      modifies this, cache
      ensures id in activeQueries && activeQueries.Keys == old(activeQueries.Keys)
      ensures forall other :: other in activeQueries && other != id ==> activeQueries[other] == old(activeQueries[other])
      ensures cancelFlags == old(cancelFlags) - {id}
      // a cancel requested before the task starts
      ensures old(CancelRequested(id)) ==>
        && activeQueries[id].status == Cancelled
        && cache.table == old(cache.table) && cache.log == old(cache.log)
      // a cache hit, outside debug mode
      ensures !old(CancelRequested(id)) && !storeFails && !request.debug ==>
        var served := UnifiedCaching.Served(old(cache.table), cache.Key(request.query), now);
        served.Some? && served.value != map[] && CachedRows(served.value).Some? ==>
          && activeQueries[id].status == Completed
          && activeQueries[id].cacheHit
          && activeQueries[id].data == CachedRows(served.value)
      // a cache hit whose response has no 'data' list
      ensures !old(CancelRequested(id)) && !storeFails && !request.debug ==>
        var served := UnifiedCaching.Served(old(cache.table), cache.Key(request.query), now);
        served.Some? && served.value != map[] && CachedRows(served.value).None? ==>
          activeQueries[id].status == Failed && activeQueries[id].error == Some(CachedDataError)
      // fresh rows
      ensures !old(CancelRequested(id)) ==>
        var served := if storeFails then None else UnifiedCaching.Served(old(cache.table), cache.Key(request.query), now);
        !(served.Some? && served.value != map[] && !request.debug) ==>
          && (cancelAt == 1 ==> activeQueries[id].status == Cancelled)
          && (cancelAt != 1 && provider.Err? ==>
                activeQueries[id].status == Failed && activeQueries[id].error == Some(provider.message))
          && (cancelAt == 2 && provider.Ok? ==> activeQueries[id].status == Cancelled)
          && (cancelAt != 1 && cancelAt != 2 && provider.Ok? ==>
                var rows := FinalRows(provider.value, request.sort, request.limit, str);
                && activeQueries[id].status == Completed
                && !activeQueries[id].cacheHit
                && activeQueries[id].data == Some(Rows(rows))
                && activeQueries[id].rowCount == Some(|rows|)
                && (!storeFails && UnifiedCaching.SourcesText(UnifiedCaching.Field(request.query, "sources")).Some? ==>
                      && cache.Key(request.query) in cache.table
                      && cache.table[cache.Key(request.query)].response == CacheData(rows)
                      && cache.table[cache.Key(request.query)].ttlSeconds == 3600))
      // the cache: the read, then the hit logged, or the fresh rows stored and logged
      ensures !old(CancelRequested(id)) ==>
        var served := if storeFails then None else UnifiedCaching.Served(old(cache.table), cache.Key(request.query), now);
        var read := cache.ReadTable(old(cache.table), request.query, now, storeFails);
        served.Some? && served.value != map[] && !request.debug ==>
          && cache.table == read
          && cache.log == (match CachedRows(served.value)
                           case Some(rows) => cache.Logged(old(cache.log), request.query, 0.0, true, |rows|, now, storeFails)
                           case None => old(cache.log))
      ensures !old(CancelRequested(id)) ==>
        var served := if storeFails then None else UnifiedCaching.Served(old(cache.table), cache.Key(request.query), now);
        var read := cache.ReadTable(old(cache.table), request.query, now, storeFails);
        !(served.Some? && served.value != map[] && !request.debug) ==>
          && (cancelAt == 1 || cancelAt == 2 || provider.Err? ==> cache.table == read && cache.log == old(cache.log))
          && (cancelAt != 1 && cancelAt != 2 && provider.Ok? ==>
                var rows := FinalRows(provider.value, request.sort, request.limit, str);
                && cache.table == cache.Stored(read, request.query, CacheData(rows), 3600, 0.0, now, storeFails)
                && cache.log == cache.Logged(old(cache.log), request.query, 0.0, false, |rows|, now, storeFails))
    {
      activeQueries := activeQueries[id := activeQueries[id].(
        status := Running, progress := Some(Progress(0, 3, "Initializing query...")), canCancel := true)];
      if CancelRequested(id) {
        MarkCancelled(id);
        return;
      }
      RunStarted(id, request, cancelAt, provider, str, now, storeFails);
    }

    /** `execute_query_background` as written: the registry call raises the
        TypeError of `ProgressCallbackError` before it runs, so a query that
        is neither served from the cache nor cancelled while the cache is read
        ends failed with that text, nothing is logged, and no row is stored. */
    method ExecuteQueryAsWritten(id: string, request: QueryRequest, cancelAt: nat, now: real, storeFails: bool)
      requires id in activeQueries
      modifies this, cache
      ensures id in activeQueries
      ensures !old(CancelRequested(id)) ==>
        var served := if storeFails then None else UnifiedCaching.Served(old(cache.table), cache.Key(request.query), now);
        !(served.Some? && served.value != map[] && !request.debug) && cancelAt != 1 ==>
          && activeQueries[id].status == Failed
          && activeQueries[id].error == Some(ProgressCallbackError)
          && cache.log == old(cache.log)
          && forall k :: k in cache.table ==> k in old(cache.table) && cache.table[k] == old(cache.table)[k]
    {
      ExecuteQueryBackground(id, request, cancelAt, Err(ProgressCallbackError), (v: Value) => [], now, storeFails);
    }

    /** Step 1 of `execute_query_background`: the progress note and the cache
        read, with a cancel request arriving meanwhile when `cancelAt` is 1. */
    method ReadCache(id: string, request: QueryRequest, cancelAt: nat, now: real, storeFails: bool)
      returns (cached: Option<Record>)
      requires id in activeQueries && activeQueries[id].status == Running && !CancelRequested(id)
      modifies this, cache
      ensures cached == if storeFails then None else UnifiedCaching.Served(old(cache.table), cache.Key(request.query), now)
      ensures cache.table == cache.ReadTable(old(cache.table), request.query, now, storeFails)
      ensures cache.log == old(cache.log)
      ensures id in activeQueries && activeQueries.Keys == old(activeQueries.Keys)
      ensures forall other :: other in activeQueries && other != id ==> activeQueries[other] == old(activeQueries[other])
      ensures cancelAt == 1 ==> CancelRequested(id) && cancelFlags - {id} == old(cancelFlags) - {id}
      ensures cancelAt != 1 ==> activeQueries[id].status == Running && cancelFlags == old(cancelFlags)
    {
      activeQueries := activeQueries[id := activeQueries[id].(progress := Some(Progress(1, 3, "Checking cache...")))];
      cached := cache.GetCachedQuery(request.query, 3600, now, storeFails);
      if cancelAt == 1 {
        var flags := cancelFlags;
        var _ := CancelQuery(id);
        DropAfterSet(flags, id);
      }
    }

    /** Steps 1 to 3 of `execute_query_background` for a running query that
        no cancel has reached yet: the cache, then the providers. */
    method RunStarted(id: string, request: QueryRequest, cancelAt: nat,
                      provider: Result<seq<Record>>, str: Value -> string,
                      now: real, storeFails: bool)
      requires id in activeQueries && activeQueries[id].status == Running && !CancelRequested(id)
      modifies this, cache
      ensures id in activeQueries && activeQueries.Keys == old(activeQueries.Keys)
      ensures forall other :: other in activeQueries && other != id ==> activeQueries[other] == old(activeQueries[other])
      ensures cancelFlags == old(cancelFlags) - {id}
      ensures !storeFails && !request.debug ==>
        var served := UnifiedCaching.Served(old(cache.table), cache.Key(request.query), now);
        served.Some? && served.value != map[] && CachedRows(served.value).Some? ==>
          && activeQueries[id].status == Completed
          && activeQueries[id].cacheHit
          && activeQueries[id].data == CachedRows(served.value)
      ensures !storeFails && !request.debug ==>
        var served := UnifiedCaching.Served(old(cache.table), cache.Key(request.query), now);
        served.Some? && served.value != map[] && CachedRows(served.value).None? ==>
          activeQueries[id].status == Failed && activeQueries[id].error == Some(CachedDataError)
      ensures var served := if storeFails then None else UnifiedCaching.Served(old(cache.table), cache.Key(request.query), now);
        !(served.Some? && served.value != map[] && !request.debug) ==>
          && (cancelAt == 1 ==> activeQueries[id].status == Cancelled)
          && (cancelAt != 1 && provider.Err? ==>
                activeQueries[id].status == Failed && activeQueries[id].error == Some(provider.message))
          && (cancelAt == 2 && provider.Ok? ==> activeQueries[id].status == Cancelled)
          && (cancelAt != 1 && cancelAt != 2 && provider.Ok? ==>
                var rows := FinalRows(provider.value, request.sort, request.limit, str);
                && activeQueries[id].status == Completed
                && !activeQueries[id].cacheHit
                && activeQueries[id].data == Some(Rows(rows))
                && activeQueries[id].rowCount == Some(|rows|)
                && (!storeFails && UnifiedCaching.SourcesText(UnifiedCaching.Field(request.query, "sources")).Some? ==>
                      && cache.Key(request.query) in cache.table
                      && cache.table[cache.Key(request.query)].response == CacheData(rows)
                      && cache.table[cache.Key(request.query)].ttlSeconds == 3600))
      // the cache: the read, then the hit logged, or the fresh rows stored and logged
      ensures var served := if storeFails then None else UnifiedCaching.Served(old(cache.table), cache.Key(request.query), now);
        var read := cache.ReadTable(old(cache.table), request.query, now, storeFails);
        served.Some? && served.value != map[] && !request.debug ==>
          && cache.table == read
          && cache.log == (match CachedRows(served.value)
                           case Some(rows) => cache.Logged(old(cache.log), request.query, 0.0, true, |rows|, now, storeFails)
                           case None => old(cache.log))
      ensures var served := if storeFails then None else UnifiedCaching.Served(old(cache.table), cache.Key(request.query), now);
        var read := cache.ReadTable(old(cache.table), request.query, now, storeFails);
        !(served.Some? && served.value != map[] && !request.debug) ==>
          && (cancelAt == 1 || cancelAt == 2 || provider.Err? ==> cache.table == read && cache.log == old(cache.log))
          && (cancelAt != 1 && cancelAt != 2 && provider.Ok? ==>
                var rows := FinalRows(provider.value, request.sort, request.limit, str);
                && cache.table == cache.Stored(read, request.query, CacheData(rows), 3600, 0.0, now, storeFails)
                && cache.log == cache.Logged(old(cache.log), request.query, 0.0, false, |rows|, now, storeFails))
    {
      var cached := ReadCache(id, request, cancelAt, now, storeFails);
      if cached.Some? && cached.value != map[] && !request.debug {
        var rows := CachedRows(cached.value);
        if rows.None? {
          MarkFailed(id, CachedDataError);
        } else {
          ServeCached(id, request.query, rows.value, now, storeFails);
        }
        return;
      }
      if CancelRequested(id) {
        MarkCancelled(id);
        return;
      }

      RunProviders(id, request, cancelAt == 2, provider, str, now, storeFails);
    }
  }
}
