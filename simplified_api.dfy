/** The simplified REST API (simplified_api.py): the GA4 and Search Console
    query endpoints, the unified `/query` endpoint, and the two quick
    endpoints. It makes the same Google calls as the MCP server. */
module SimplifiedApi {
  import opened Base
  import opened Strings
  import Dates
  import PropertyFanout
  import McpServer

  datatype DateRange = DateRange(startDate: string, endDate: string)

  /** `GA4QueryRequest`. */
  datatype Ga4QueryRequest = Ga4QueryRequest(
    dateRange: DateRange, authIdentifier: string, propertyId: Option<string>,
    dimensions: string, metrics: string, filterExpression: Option<string>)

  /** `GSCQueryRequest`. */
  datatype GscQueryRequest = GscQueryRequest(
    dateRange: DateRange, domain: Option<string>, authIdentifier: Option<string>,
    searchType: string, dimensions: string)

  /** `UnifiedQueryRequest`. */
  datatype UnifiedQueryRequest = UnifiedQueryRequest(
    dateRange: DateRange, domain: Option<string>, authIdentifier: string,
    dataSources: seq<string>, ga4PropertyId: Option<string>)

  /** `ApiResponse`. */
  datatype ApiResponse = ApiResponse(status: string, message: string, data: seq<Record>, rowCount: int, source: string)

  /** A reply, or the `HTTPException` that leaves the endpoint. */
  datatype Reply<T> = Success(value: T) | HttpError(statusCode: int, detail: string)

  const InvalidDateRange: string := "Invalid date range"
  const Ga4Metrics: string := "screenPageViews,totalAdRevenue"
  const GscDimensions: string := "page,query,country,device"

  /** `str()` of an `HTTPException`: its status code and its detail. */
  function HttpExceptionText(statusCode: int, detail: string): string
  {
    IntToString(statusCode) + ": " + detail
  }

  predicate Filled(v: Option<string>)
  {
    v.Some? && v.value != []
  }

  function OrDefault(v: Option<string>, default: string): string
  {
    if v.Some? then v.value else default
  }

  function ValidRange(r: DateRange): bool
  {
    Dates.ValidateDateRange(r.startDate, r.endDate)
  }

  // ---------------------------------------------------------------------------
  // /ga4/query

  function Ga4Template(request: Ga4QueryRequest): PropertyFanout.ReportCall
  {
    PropertyFanout.ReportCall(
      request.dateRange.startDate, request.dateRange.endDate, [], [], request.authIdentifier,
      OrDefault(request.filterExpression, []), request.dimensions, request.metrics)
  }

  /** The rows inside the `try` of `query_ga4`, or the text of what it
      raised: a Google exception, or the 404 for an empty property list. */
  function Ga4Rows(request: Ga4QueryRequest, services: McpServer.Services): Result<seq<Record>>
  {
    var template := Ga4Template(request);
    if Filled(request.propertyId) then
      services.report(template.(propertyId := request.propertyId.value, propertyName := "API_Property"))
    else
      match services.listProperties(request.authIdentifier)
      case Err(m) => Err(m)
      case Ok(properties) =>
        if properties == [] then Err(HttpExceptionText(404, "No GA4 properties found"))
        else PropertyFanout.Combined(properties, template, services.report)
  }

  /** The reply of an endpoint for rows found inside its `try`: no rows is a
      404 there, and every exception of the `try`, that 404 included, leaves
      as a 500 whose detail starts with `what`. */
  function DataReply(what: string, kind: string, source: string, fetched: Result<seq<Record>>): (r: Reply<ApiResponse>)
    ensures r.HttpError? ==> r.statusCode == 500
    ensures r.Success? <==> fetched.Ok? && fetched.value != []
    ensures r.Success? ==> r.value.data == fetched.value && r.value.rowCount == |fetched.value| && r.value.source == source
  {
    match fetched
    case Err(m) => HttpError(500, what + m)
    case Ok(rows) =>
      if rows == [] then HttpError(500, what + HttpExceptionText(404, "No " + kind + " data found"))
      else Success(ApiResponse("success", "Retrieved " + NatToString(|rows|) + " rows of " + kind + " data",
                               rows, |rows|, source))
  }

  /** `query_ga4`. */
  function QueryGa4(request: Ga4QueryRequest, services: McpServer.Services): Reply<ApiResponse>
  {
    if !ValidRange(request.dateRange) then HttpError(400, InvalidDateRange)
    else DataReply("GA4 query failed: ", "GA4", "ga4", Ga4Rows(request, services))
  }

  /** An invalid range is a 400 before any Google call, whatever the services
      would answer; every other failure is a 500. */
  lemma Ga4StatusMapping(request: Ga4QueryRequest, s1: McpServer.Services, s2: McpServer.Services)
    ensures !ValidRange(request.dateRange) ==> QueryGa4(request, s1) == QueryGa4(request, s2) == HttpError(400, InvalidDateRange)
    ensures ValidRange(request.dateRange) && QueryGa4(request, s1).HttpError? ==> QueryGa4(request, s1).statusCode == 500
    ensures ValidRange(request.dateRange) ==>
      (QueryGa4(request, s1).Success? <==> Ga4Rows(request, s1).Ok? && Ga4Rows(request, s1).value != [])
  {
  }

  /** An exception from the report call surfaces as a 500 carrying its text. */
  lemma ReportExceptionIs500(request: Ga4QueryRequest, services: McpServer.Services, error: string)
    requires ValidRange(request.dateRange) && Filled(request.propertyId)
    requires services.report(Ga4Template(request).(propertyId := request.propertyId.value, propertyName := "API_Property")) == Err(error)
    ensures QueryGa4(request, services) == HttpError(500, "GA4 query failed: " + error)
  {
  }

  /** `query_ga4`, with the loop over properties. */
  method HandleQueryGa4(request: Ga4QueryRequest, services: McpServer.Services) returns (r: Reply<ApiResponse>)
    ensures r == QueryGa4(request, services)
  {
    if !ValidRange(request.dateRange) {
      return HttpError(400, InvalidDateRange);
    }
    var template := Ga4Template(request);
    var fetched: Result<seq<Record>>;
    if Filled(request.propertyId) {
      fetched := services.report(template.(propertyId := request.propertyId.value, propertyName := "API_Property"));
    } else {
      var listing := services.listProperties(request.authIdentifier);
      if listing.Err? {
        fetched := Err(listing.message);
      } else if listing.value == [] {
        fetched := Err(HttpExceptionText(404, "No GA4 properties found"));
      } else {
        fetched := PropertyFanout.CombineProperties(listing.value, template, services.report);
      }
    }
    return DataReply("GA4 query failed: ", "GA4", "ga4", fetched);
  }

  // ---------------------------------------------------------------------------
  // /gsc/query

  function GscCallFor(request: GscQueryRequest): McpServer.GscCall
  {
    McpServer.GscCall(request.dateRange.startDate, request.dateRange.endDate, request.searchType,
                      request.dimensions, OrDefault(request.authIdentifier, []), request.domain)
  }

  /** `query_gsc`. */
  function QueryGsc(request: GscQueryRequest, services: McpServer.Services): (r: Reply<ApiResponse>)
    ensures r.HttpError? ==> r.statusCode == 400 || r.statusCode == 500
    ensures r.HttpError? && r.statusCode == 400 <==> !ValidRange(request.dateRange)
  {
    if !ValidRange(request.dateRange) then HttpError(400, InvalidDateRange)
    else DataReply("GSC query failed: ", "GSC", "gsc", services.fetchGsc(GscCallFor(request)))
  }

  // ---------------------------------------------------------------------------
  // /query

  /** The GA4 request the unified endpoint makes: page-level rows of the core
      metrics, without a filter. */
  function UnifiedGa4Request(request: UnifiedQueryRequest): Ga4QueryRequest
  {
    Ga4QueryRequest(request.dateRange, request.authIdentifier, request.ga4PropertyId, "pagePath", Ga4Metrics, None)
  }

  /** The Search Console request the unified endpoint makes. */
  function UnifiedGscRequest(request: UnifiedQueryRequest): GscQueryRequest
  {
    GscQueryRequest(request.dateRange, request.domain, Some(request.authIdentifier), "web", GscDimensions)
  }

  /** `results` and `errors` after one source. */
  function Collected(reply: Option<Reply<ApiResponse>>, prefix: string,
                     results: seq<ApiResponse>, errors: seq<string>): (seq<ApiResponse>, seq<string>)
  {
    match reply
    case None => (results, errors)
    case Some(Success(response)) => (results + [response], errors)
    case Some(HttpError(code, detail)) => (results, errors + [prefix + HttpExceptionText(code, detail)])
  }

  /** `results` and `errors` after the GA4 and the Search Console step. */
  function Gathered(request: UnifiedQueryRequest, services: McpServer.Services): (seq<ApiResponse>, seq<string>)
  {
    var ga4 := if "ga4" in request.dataSources then Some(QueryGa4(UnifiedGa4Request(request), services)) else None;
    var gsc := if "gsc" in request.dataSources then Some(QueryGsc(UnifiedGscRequest(request), services)) else None;
    var afterGa4 := Collected(ga4, "GA4 query failed: ", [], []);
    Collected(gsc, "GSC query failed: ", afterGa4.0, afterGa4.1)
  }

  /** `unified_query`. */
  function UnifiedQuery(request: UnifiedQueryRequest, services: McpServer.Services): Reply<seq<ApiResponse>>
  {
    if !ValidRange(request.dateRange) then HttpError(400, InvalidDateRange)
    else
      var g := Gathered(request, services);
      if g.0 == [] && g.1 != [] then HttpError(500, JoinWith(g.1, "; "))
      else Success(g.0)
  }

  /** The unified endpoint fails with 500 only when nothing succeeded and
      something failed, and then its detail joins the errors; otherwise it
      answers with the GA4 response before the Search Console one and drops
      the errors. */
  lemma UnifiedQueryStatus(request: UnifiedQueryRequest, services: McpServer.Services)
    requires ValidRange(request.dateRange)
    ensures var g := Gathered(request, services);
      var r := UnifiedQuery(request, services);
      && (r.HttpError? <==> g.0 == [] && g.1 != [])
      && (r.HttpError? ==> r == HttpError(500, JoinWith(g.1, "; ")))
      && (r.Success? ==> r.value == g.0)
      && |g.0| + |g.1| == (if "ga4" in request.dataSources then 1 else 0) + (if "gsc" in request.dataSources then 1 else 0)
      && (forall i :: 0 <= i < |g.0| ==> g.0[i].source in ["ga4", "gsc"])
      && (|g.0| == 2 ==> g.0[0].source == "ga4" && g.0[1].source == "gsc")
  {
  }

  /** `unified_query`, accumulating `results` and `errors`. */
  method HandleUnifiedQuery(request: UnifiedQueryRequest, services: McpServer.Services) returns (r: Reply<seq<ApiResponse>>)
    ensures r == UnifiedQuery(request, services)
  {
    if !ValidRange(request.dateRange) {
      return HttpError(400, InvalidDateRange);
    }
    var results: seq<ApiResponse> := [];
    var errors: seq<string> := [];
    if "ga4" in request.dataSources {
      var ga4 := HandleQueryGa4(UnifiedGa4Request(request), services);
      match ga4 {
        case Success(response) => results := results + [response];
        case HttpError(code, detail) => errors := errors + ["GA4 query failed: " + HttpExceptionText(code, detail)];
      }
    }
    if "gsc" in request.dataSources {
      var gsc := QueryGsc(UnifiedGscRequest(request), services);
      match gsc {
        case Success(response) => results := results + [response];
        case HttpError(code, detail) => errors := errors + ["GSC query failed: " + HttpExceptionText(code, detail)];
      }
    }
    if results == [] && errors != [] {
      return HttpError(500, JoinWith(errors, "; "));
    }
    return Success(results);
  }

  // ---------------------------------------------------------------------------
  // Quick endpoints

  /** `days` must lie in 1..365; outside it the framework answers 422 before
      the endpoint runs. */
  predicate DaysAccepted(days: int)
  {
    1 <= days <= 365
  }

  /** The last `days` days up to today. */
  function QuickRange(days: int, today: McpServer.Today): DateRange
    requires DaysAccepted(days)
  {
    var window := Dates.DefaultDateRange(today, days);
    DateRange(window.0, window.1)
  }

  /** The request of `/quick/ga4`: 'hostname,pagePath' when a domain is
      given, else 'pagePath', with the core metrics and no filter. */
  function QuickGa4Request(authIdentifier: string, domain: Option<string>, days: int, today: McpServer.Today): Ga4QueryRequest
    requires DaysAccepted(days)
  {
    Ga4QueryRequest(QuickRange(days, today), authIdentifier, None,
                    if Filled(domain) then "hostname,pagePath" else "pagePath", Ga4Metrics, None)
  }

  function QuickGa4(authIdentifier: string, domain: Option<string>, days: int, today: McpServer.Today,
                    services: McpServer.Services): Reply<ApiResponse>
  {
    if !DaysAccepted(days) then HttpError(422, [])
    else QueryGa4(QuickGa4Request(authIdentifier, domain, days, today), services)
  }

  function QuickGscRequest(authIdentifier: string, domain: Option<string>, days: int, today: McpServer.Today): GscQueryRequest
    requires DaysAccepted(days)
  {
    GscQueryRequest(QuickRange(days, today), domain, Some(authIdentifier), "web", GscDimensions)
  }

  function QuickGsc(authIdentifier: string, domain: Option<string>, days: int, today: McpServer.Today,
                    services: McpServer.Services): Reply<ApiResponse>
  {
    if !DaysAccepted(days) then HttpError(422, [])
    else QueryGsc(QuickGscRequest(authIdentifier, domain, days, today), services)
  }

  /** The quick endpoints' window always passes the date check, so they
      never answer 400; only `days` outside 1..365 is refused (422). */
  lemma QuickNeverInvalidRange(authIdentifier: string, domain: Option<string>, days: int, today: McpServer.Today,
                               services: McpServer.Services)
    ensures var r := QuickGa4(authIdentifier, domain, days, today, services);
      && (r.HttpError? && r.statusCode == 422 <==> !DaysAccepted(days))
      && (r.HttpError? ==> r.statusCode != 400)
    ensures var r := QuickGsc(authIdentifier, domain, days, today, services);
      && (r.HttpError? && r.statusCode == 422 <==> !DaysAccepted(days))
      && (r.HttpError? ==> r.statusCode != 400)
    ensures DaysAccepted(days) ==>
      var q := QuickGa4Request(authIdentifier, domain, days, today);
      && q.metrics == "screenPageViews,totalAdRevenue"
      && (q.dimensions == "hostname,pagePath" <==> Filled(domain))
      && (q.dimensions == "pagePath" <==> !Filled(domain))
  {
    if DaysAccepted(days) {
      Dates.DefaultRangeValidates(today, days);
    }
  }
}
