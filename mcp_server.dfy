/** The MCP tool server (mcp_server.py): the tool dispatcher, the GA4, Search
    Console and unified query tools, and the two listing tools.

    Tool arguments are read with the types the tools' input schemas give
    them. The Google calls are the `Services` argument, and today's date is
    the `today` argument. */
module McpServer {
  import opened Base
  import opened Strings
  import Dates
  import Ga4Report
  import PropertyFanout

  /** Error codes of section 5.1 of the JSON-RPC 2.0 specification. */
  const MethodNotFound: int := -32601
  const InvalidParams: int := -32602
  const InternalError: int := -32603

  /** A `JSONRPCError`; its `str()` is taken to be its message. */
  datatype ToolError = ToolError(code: int, message: string)

  /** One `TextContent`: the `json.dumps` of a dict, or a plain sentence. */
  datatype Content = Json(payload: Record) | Plain(text: string)

  /** A handler's reply, or the error it raised. */
  datatype Outcome = Done(contents: seq<Content>) | Failed(error: ToolError)

  /** `arguments`: every key any tool reads; None where it is absent. */
  datatype Arguments = Arguments(
    authIdentifier: Option<string>, startDate: Option<string>, endDate: Option<string>,
    propertyId: Option<string>, domainFilter: Option<string>, domain: Option<string>,
    metrics: Option<string>, dimensions: Option<string>, searchType: Option<string>,
    dataSources: Option<seq<string>>, ga4PropertyId: Option<string>)

  /** The arguments of one `fetch_search_console_data` call. */
  datatype GscCall = GscCall(startDate: string, endDate: string, searchType: string, dimensions: string,
                             account: string, domain: Option<string>)

  /** The Google calls: property listing, GA4 reports, Search Console data and
      site listing; each gives its rows (None and an empty frame are both no
      rows) or the text of the exception it raised. */
  datatype Services = Services(
    listProperties: string -> Result<seq<Ga4Report.PropertyRow>>,
    report: PropertyFanout.Report,
    fetchGsc: GscCall -> Result<seq<Record>>,
    listSites: string -> Result<seq<Record>>)

  const AuthRequired: string := "auth_identifier is required"
  const InvalidDateRange: string := "Invalid date range"
  const NoGa4Properties: string := "No GA4 properties found"
  const NoGa4Data: string := "No GA4 data found for the specified criteria"
  const NoGscData: string := "No GSC data found for the specified criteria"
  const NoGscDomains: string := "No GSC domains found"
  const Ga4Metrics: string := "screenPageViews,totalAdRevenue"
  const GscDimensions: string := "page,query,country,device"

  predicate Filled(v: Option<string>)
  {
    v.Some? && v.value != []
  }

  function OrDefault(v: Option<string>, default: string): string
  {
    if v.Some? then v.value else default
  }

  // ---------------------------------------------------------------------------
  // Dates

  const DefaultWindowDays: nat := 30

  /** What `datetime.now()` can give: a real calendar date, late enough for
      any window of up to 365 days back to stay in the calendar. */
  type Today = d: Dates.Date | Dates.ValidDate(d) && d.year > 365 witness Dates.Date(2000, 1, 1)

  /** The dates a handler uses: both given ones, or else each missing one from
      `get_default_date_range()`. */
  function ResolveDates(args: Arguments, today: Today): (string, string)
  {
    if args.startDate.Some? && args.endDate.Some? then (args.startDate.value, args.endDate.value)
    else
      var window := Dates.DefaultDateRange(today, DefaultWindowDays);
      (OrDefault(args.startDate, window.0), OrDefault(args.endDate, window.1))
  }

  /** A given date is always used as given, a missing one comes from the
      30-day window ending today, and with both missing the range passes
      the date check. */
  lemma ResolveDatesSpec(args: Arguments, today: Today)
    ensures var d := ResolveDates(args, today);
      var window := Dates.DefaultDateRange(today, DefaultWindowDays);
      && d.0 == OrDefault(args.startDate, window.0)
      && d.1 == OrDefault(args.endDate, window.1)
      && (args.startDate.None? && args.endDate.None? ==> Dates.ValidateDateRange(d.0, d.1))
  {
    Dates.DefaultRangeValidates(today, DefaultWindowDays);
  }

  // ---------------------------------------------------------------------------
  // The domain filter

  /** The filter expression as written: 'hostname==' followed by the domain. */
  function DomainFilterAsWritten(domain: string): string
  {
    "hostname==" + domain
  }

  /** `produce_report` splits the expression on '=', so the filter written
      with '==' asks for a hostname equal to the empty string. */
  lemma DomainFilterAsWrittenMatchesEmpty(domain: string)
    ensures Ga4Report.ParseFilter(DomainFilterAsWritten(domain)) == Ok(Ga4Report.StringFilter("hostname", []))
  {
    Ga4Report.DoubleEqualsGivesEmptyValue("hostname", domain);
    assert "hostname" + "==" + domain == DomainFilterAsWritten(domain);
  }

  /** The filter expression in the 'field=value' syntax `produce_report`
      reads. */
  function DomainFilter(domain: string): string
  {
    "hostname=" + domain
  }

  /** The corrected expression filters on a hostname equal to the domain. */
  lemma DomainFilterSelectsDomain(domain: string)
    requires '=' !in domain
    ensures Ga4Report.ParseFilter(DomainFilter(domain)) == Ok(Ga4Report.StringFilter("hostname", domain))
  {
    Ga4Report.ParseFieldValue("hostname", domain, []);
    assert "hostname" + "=" + domain + [] == DomainFilter(domain);
  }

  // ---------------------------------------------------------------------------
  // Data replies

  function RowValues(rows: seq<Record>): (vs: seq<Value>)
    ensures |vs| == |rows|
  {
    seq(|rows|, i requires 0 <= i < |rows| => VDict(rows[i]))
  }

  /** The success dict of the GA4 and Search Console tools. */
  function DataPayload(kind: string, source: string, startDate: string, endDate: string, rows: seq<Record>): Record
  {
    map["status" := VStr("success"),
        "message" := VStr("Retrieved " + NatToString(|rows|) + " rows of " + kind + " data"),
        "date_range" := VDict(map["start_date" := VStr(startDate), "end_date" := VStr(endDate)]),
        "data" := VList(RowValues(rows)),
        "row_count" := VInt(|rows|),
        "source" := VStr(source)]
  }

  /** A data reply carries every row and counts them. */
  lemma DataPayloadCounts(kind: string, source: string, startDate: string, endDate: string, rows: seq<Record>)
    ensures var p := DataPayload(kind, source, startDate, endDate, rows);
      && p["data"].VList? && p["row_count"] == VInt(|p["data"].items|)
      && (forall i :: 0 <= i < |rows| ==> p["data"].items[i] == VDict(rows[i]))
      && p["status"] == VStr("success")
  {
  }

  // ---------------------------------------------------------------------------
  // query_ga4_data

  /** The report arguments shared by every property of one call. The domain
      filter is the corrected 'hostname=' expression of `DomainFilter`, not
      the 'hostname==' of `DomainFilterAsWritten` that the tool sends. */
  function Ga4Template(args: Arguments, startDate: string, endDate: string): PropertyFanout.ReportCall
  {
    PropertyFanout.ReportCall(
      startDate, endDate, [], [], OrDefault(args.authIdentifier, []),
      if Filled(args.domainFilter) then DomainFilter(args.domainFilter.value) else [],
      OrDefault(args.dimensions, "pagePath"), OrDefault(args.metrics, Ga4Metrics))
  }

  /** The reply for the GA4 rows, or the wrapped exception. */
  function Ga4Reply(startDate: string, endDate: string, fetched: Result<seq<Record>>): (r: Outcome)
    ensures r.Done? ==> |r.contents| == 1
    ensures r.Failed? <==> fetched.Err?
    ensures r.Failed? ==> r.error == ToolError(InternalError, "GA4 query failed: " + fetched.message)
    ensures r.Done? ==> (r.contents[0].Plain? <==> fetched.value == [])
    ensures r.Done? && r.contents[0].Json? ==>
      && "row_count" in r.contents[0].payload && "data" in r.contents[0].payload
      && r.contents[0].payload["row_count"] == VInt(|fetched.value|)
      && r.contents[0].payload["data"] == VList(RowValues(fetched.value))
  {
    match fetched
    case Err(m) => Failed(ToolError(InternalError, "GA4 query failed: " + m))
    case Ok(rows) =>
      if rows == [] then Done([Plain(NoGa4Data)])
      else Done([Json(DataPayload("GA4", "ga4", startDate, endDate, rows))])
  }

  /** `handle_query_ga4_data`, with the corrected domain filter: the
      parameter checks, then one report for a given property or the fan-out
      over every listed property. */
  function QueryGa4Data(args: Arguments, today: Today, services: Services): (r: Outcome)
    ensures r.Done? ==> |r.contents| == 1
    ensures !Filled(args.authIdentifier) ==> r == Failed(ToolError(InvalidParams, AuthRequired))
    ensures var d := ResolveDates(args, today);
      Filled(args.authIdentifier) && !Dates.ValidateDateRange(d.0, d.1) ==>
        r == Failed(ToolError(InvalidParams, InvalidDateRange))
    ensures var d := ResolveDates(args, today);
      Filled(args.authIdentifier) && Dates.ValidateDateRange(d.0, d.1) && Filled(args.propertyId) ==>
        r == Ga4Reply(d.0, d.1, services.report(PropertyFanout.CallFor(Ga4Template(args, d.0, d.1),
                                                  Ga4Report.PropertyRow(args.propertyId.value, "MCP_Property"))))
    ensures var d := ResolveDates(args, today);
      Filled(args.authIdentifier) && Dates.ValidateDateRange(d.0, d.1) && !Filled(args.propertyId) ==>
        var listing := services.listProperties(args.authIdentifier.value);
        && (listing.Err? ==> r == Failed(ToolError(InternalError, "GA4 query failed: " + listing.message)))
        && (listing == Ok([]) ==> r == Done([Plain(NoGa4Properties)]))
        && (listing.Ok? && listing.value != [] ==>
              r == Ga4Reply(d.0, d.1, PropertyFanout.Combined(listing.value, Ga4Template(args, d.0, d.1), services.report)))
  {
    if !Filled(args.authIdentifier) then Failed(ToolError(InvalidParams, AuthRequired))
    else
      var d := ResolveDates(args, today);
      if !Dates.ValidateDateRange(d.0, d.1) then Failed(ToolError(InvalidParams, InvalidDateRange))
      else
        var template := Ga4Template(args, d.0, d.1);
        if Filled(args.propertyId) then
          Ga4Reply(d.0, d.1, services.report(template.(propertyId := args.propertyId.value, propertyName := "MCP_Property")))
        else
          match services.listProperties(args.authIdentifier.value)
          case Err(m) => Failed(ToolError(InternalError, "GA4 query failed: " + m))
          case Ok(properties) =>
            if properties == [] then Done([Plain(NoGa4Properties)])
            else Ga4Reply(d.0, d.1, PropertyFanout.Combined(properties, template, services.report))
  }

  /** The GA4 tool checks its parameters before any Google call: without an
      auth identifier, or with a bad range, it fails with INVALID_PARAMS
      whatever the services would have answered. */
  lemma Ga4RejectsBeforeFetch(args: Arguments, today: Today, s1: Services, s2: Services)
    requires !Filled(args.authIdentifier) ||
      !Dates.ValidateDateRange(ResolveDates(args, today).0, ResolveDates(args, today).1)
    ensures QueryGa4Data(args, today, s1) == QueryGa4Data(args, today, s2)
    ensures QueryGa4Data(args, today, s1).Failed? && QueryGa4Data(args, today, s1).error.code == InvalidParams
  {
  }

  /** In the all-properties case every row of the reply is tagged with one of
      the listed properties. */
  lemma Ga4RowsTagged(args: Arguments, today: Today, services: Services)
    requires Filled(args.authIdentifier) && !Filled(args.propertyId)
    requires var r := QueryGa4Data(args, today, services); r.Done? && r.contents[0].Json?
    ensures var data := QueryGa4Data(args, today, services).contents[0].payload["data"];
      && data.VList?
      && forall i :: 0 <= i < |data.items| ==>
        data.items[i].VDict? && PropertyFanout.Origin(data.items[i].fields).Some?
        && PropertyFanout.Origin(data.items[i].fields).value in services.listProperties(args.authIdentifier.value).value
  {
    var d := ResolveDates(args, today);
    var properties := services.listProperties(args.authIdentifier.value).value;
    PropertyFanout.CombinedRowsTagged(properties, Ga4Template(args, d.0, d.1), services.report);
  }

  /** The GA4 tool, with the loop over properties. */
  method HandleQueryGa4Data(args: Arguments, today: Today, services: Services) returns (r: Outcome)
    ensures r == QueryGa4Data(args, today, services)
  {
    if !Filled(args.authIdentifier) {
      return Failed(ToolError(InvalidParams, AuthRequired));
    }
    var d := ResolveDates(args, today);
    if !Dates.ValidateDateRange(d.0, d.1) {
      return Failed(ToolError(InvalidParams, InvalidDateRange));
    }
    var template := Ga4Template(args, d.0, d.1);
    if Filled(args.propertyId) {
      var df := services.report(template.(propertyId := args.propertyId.value, propertyName := "MCP_Property"));
      return Ga4Reply(d.0, d.1, df);
    }
    var listing := services.listProperties(args.authIdentifier.value);
    if listing.Err? {
      return Failed(ToolError(InternalError, "GA4 query failed: " + listing.message));
    }
    if listing.value == [] {
      return Done([Plain(NoGa4Properties)]);
    }
    var combined := PropertyFanout.CombineProperties(listing.value, template, services.report);
    return Ga4Reply(d.0, d.1, combined);
  }

  // ---------------------------------------------------------------------------
  // query_gsc_data

  /** `handle_query_gsc_data`: no auth identifier is required. */
  /** The fetch the Search Console tool makes for dates `d`. */
  function GscCallFor(args: Arguments, d: (string, string)): GscCall
  {
    GscCall(d.0, d.1, OrDefault(args.searchType, "web"), OrDefault(args.dimensions, GscDimensions),
            OrDefault(args.authIdentifier, []), args.domain)
  }

  /** `handle_query_gsc_data`: no auth identifier is required. A bad range
      fails with INVALID_PARAMS before any fetch; otherwise a fetch that
      raises fails with INTERNAL_ERROR, no rows give the plain sentence, and
      rows give the success dict carrying all of them and the domain. */
  function QueryGscData(args: Arguments, today: Today, services: Services): (r: Outcome)
    ensures r.Done? ==> |r.contents| == 1
    ensures var d := ResolveDates(args, today);
      && (!Dates.ValidateDateRange(d.0, d.1) ==> r == Failed(ToolError(InvalidParams, InvalidDateRange)))
      && (Dates.ValidateDateRange(d.0, d.1) ==>
            && (r.Failed? <==> services.fetchGsc(GscCallFor(args, d)).Err?)
            && (r.Failed? ==> r.error == ToolError(InternalError, "GSC query failed: " + services.fetchGsc(GscCallFor(args, d)).message))
            && (r.Done? ==> (r.contents[0].Plain? <==> services.fetchGsc(GscCallFor(args, d)).value == []))
            && (r.Done? && r.contents[0].Json? ==>
                  var p := r.contents[0].payload;
                  && "row_count" in p && "data" in p && "domain" in p
                  && p["row_count"] == VInt(|services.fetchGsc(GscCallFor(args, d)).value|)
                  && p["data"] == VList(RowValues(services.fetchGsc(GscCallFor(args, d)).value))
                  && p["domain"] == (if args.domain.Some? then VStr(args.domain.value) else VNone)))
  {
    var d := ResolveDates(args, today);
    if !Dates.ValidateDateRange(d.0, d.1) then Failed(ToolError(InvalidParams, InvalidDateRange))
    else
      match services.fetchGsc(GscCallFor(args, d))
      case Err(m) => Failed(ToolError(InternalError, "GSC query failed: " + m))
      case Ok(rows) =>
        if rows == [] then Done([Plain(NoGscData)])
        else
          var domain := if args.domain.Some? then VStr(args.domain.value) else VNone;
          Done([Json(DataPayload("GSC", "gsc", d.0, d.1, rows)["domain" := domain])])
  }

  // ---------------------------------------------------------------------------
  // query_unified_data

  const DefaultSources: seq<string> := ["ga4", "gsc"]

  /** The arguments the unified tool passes to the GA4 tool. */
  function Ga4ArgsFor(args: Arguments, startDate: string, endDate: string): Arguments
  {
    Arguments(args.authIdentifier, Some(startDate), Some(endDate), args.ga4PropertyId, args.domain, None,
              Some(Ga4Metrics), Some("pagePath"), None, None, None)
  }

  /** The arguments the unified tool passes to the Search Console tool. */
  function GscArgsFor(args: Arguments, startDate: string, endDate: string): Arguments
  {
    Arguments(args.authIdentifier, Some(startDate), Some(endDate), None, None, args.domain,
              None, Some(GscDimensions), Some("web"), None, None)
  }

  /** `results` and `errors` after one source: its contents, or its error
      message after `prefix`; nothing when it was not requested. */
  function Collected(outcome: Option<Outcome>, prefix: string, results: seq<Content>, errors: seq<string>): (seq<Content>, seq<string>)
  {
    match outcome
    case None => (results, errors)
    case Some(Done(contents)) => (results + contents, errors)
    case Some(Failed(e)) => (results, errors + [prefix + e.message])
  }

  /** The unified tool before its reply: the parameter check, then `results`
      and `errors` after the GA4 and the Search Console step. */
  datatype Gathered = Rejected(error: ToolError) | Gathered(results: seq<Content>, errors: seq<string>)

  function Requested(args: Arguments): seq<string>
  {
    if args.dataSources.Some? then args.dataSources.value else DefaultSources
  }

  function Gather(args: Arguments, today: Today, services: Services): Gathered
  {
    if !Filled(args.authIdentifier) then Rejected(ToolError(InvalidParams, AuthRequired))
    else
      var d := ResolveDates(args, today);
      if !Dates.ValidateDateRange(d.0, d.1) then Rejected(ToolError(InvalidParams, InvalidDateRange))
      else
        var ga4 := if "ga4" in Requested(args) then Some(QueryGa4Data(Ga4ArgsFor(args, d.0, d.1), today, services)) else None;
        var gsc := if "gsc" in Requested(args) then Some(QueryGscData(GscArgsFor(args, d.0, d.1), today, services)) else None;
        var afterGa4 := Collected(ga4, "GA4 query failed: ", [], []);
        var afterGsc := Collected(gsc, "GSC query failed: ", afterGa4.0, afterGa4.1);
        Gathered(afterGsc.0, afterGsc.1)
  }

  /** Each requested source gives exactly one content or one error. */
  lemma GatherAccounts(args: Arguments, today: Today, services: Services)
    requires Gather(args, today, services).Gathered?
    ensures var g := Gather(args, today, services);
      |g.results| + |g.errors| == (if "ga4" in Requested(args) then 1 else 0) + (if "gsc" in Requested(args) then 1 else 0)
  {
  }

  /** The `json.loads` of a content as the reply means it: a JSON document
      gives its dict, and a plain sentence is kept as text. */
  function Loaded(c: Content): Value
  {
    match c
    case Json(p) => VDict(p)
    case Plain(t) => VStr(t)
  }

  /** `json.loads(result.text)` as written: a plain sentence is not a JSON
      document, so it raises. */
  function LoadedAsWritten(c: Content): Option<Value>
  {
    match c
    case Json(p) => Some(VDict(p))
    case Plain(_) => None
  }

  function LoadAllAsWritten(contents: seq<Content>): (r: Option<seq<Value>>)
    ensures r.Some? <==> forall i :: 0 <= i < |contents| ==> contents[i].Json?
  {
    if contents == [] then Some([])
    else
      match (LoadedAsWritten(contents[0]), LoadAllAsWritten(contents[1..]))
      case (Some(v), Some(vs)) => Some([v] + vs)
      case _ =>
        assert contents[0] == contents[..][0];
        None
  }

  const JsonDecodeError: string := "Expecting value: line 1 column 1 (char 0)"

  /** The combined dict of the unified tool. */
  function UnifiedPayload(results: seq<Value>, errors: seq<string>): Record
  {
    if errors != [] then
      map["status" := VStr("partial_success"),
          "message" := VStr("Retrieved data from " + NatToString(|results|) + " source(s) with "
                            + NatToString(|errors|) + " error(s)"),
          "errors" := VList(seq(|errors|, i requires 0 <= i < |errors| => VStr(errors[i]))),
          "results" := VList(results)]
    else
      map["status" := VStr("success"),
          "message" := VStr("Retrieved data from " + NatToString(|results|) + " source(s)"),
          "results" := VList(results)]
  }

  /** `handle_query_unified_data`, with a source that found no data listed
      by its sentence. */
  function QueryUnifiedData(args: Arguments, today: Today, services: Services): Outcome
  {
    match Gather(args, today, services)
    case Rejected(e) => Failed(e)
    case Gathered(results, errors) =>
      if results == [] && errors != [] then Failed(ToolError(InternalError, JoinWith(errors, "; ")))
      else Done([Json(UnifiedPayload(seq(|results|, i requires 0 <= i < |results| => Loaded(results[i])), errors))])
  }

  /** `handle_query_unified_data` as written: the reply fails when any
      source answered with a plain sentence. */
  function QueryUnifiedDataAsWritten(args: Arguments, today: Today, services: Services): Outcome
  {
    match Gather(args, today, services)
    case Rejected(e) => Failed(e)
    case Gathered(results, errors) =>
      if results == [] && errors != [] then Failed(ToolError(InternalError, JoinWith(errors, "; ")))
      else
        match LoadAllAsWritten(results)
        case None => Failed(ToolError(InternalError, JsonDecodeError))
        case Some(values) => Done([Json(UnifiedPayload(values, errors))])
  }

  /** The unified tool fails only when nothing succeeded and something
      failed; otherwise it reports 'partial_success' exactly when some source
      failed, and lists one result per source that answered. */
  lemma UnifiedStatus(args: Arguments, today: Today, services: Services)
    requires Gather(args, today, services).Gathered?
    ensures var g := Gather(args, today, services);
      var r := QueryUnifiedData(args, today, services);
      && (r.Failed? <==> g.results == [] && g.errors != [])
      && (r.Failed? ==> r.error == ToolError(InternalError, JoinWith(g.errors, "; ")))
      && (r.Done? ==>
            && r.contents[0].Json?
            && (r.contents[0].payload["status"] == VStr("partial_success") <==> g.errors != [])
            && (r.contents[0].payload["status"] == VStr("success") <==> g.errors == [])
            && r.contents[0].payload["results"].VList?
            && |r.contents[0].payload["results"].items| == |g.results|)
  {
  }

  /** A source that found nothing breaks the unified tool as written: when
      no GA4 property is listed, the GA4 step answers with a sentence, and
      `json.loads` of it fails the whole reply, while the corrected tool
      answers. */
  lemma NoPropertiesBreakUnifiedAsWritten(args: Arguments, today: Today, services: Services)
    requires Filled(args.authIdentifier) && !Filled(args.ga4PropertyId) && args.dataSources.None?
    requires var d := ResolveDates(args, today); Dates.ValidateDateRange(d.0, d.1)
    requires services.listProperties(args.authIdentifier.value) == Ok([])
    ensures QueryUnifiedDataAsWritten(args, today, services) == Failed(ToolError(InternalError, JsonDecodeError))
    ensures QueryUnifiedData(args, today, services).Done?
  {
    var d := ResolveDates(args, today);
    var ga4Args := Ga4ArgsFor(args, d.0, d.1);
    assert ResolveDates(ga4Args, today) == d;
    assert QueryGa4Data(ga4Args, today, services) == Done([Plain(NoGa4Properties)]);
    var g := Gather(args, today, services);
    assert g.results[0] == Plain(NoGa4Properties);
    assert !g.results[0].Json?;
  }

  /** The unified tool, accumulating `results` and `errors`. */
  method HandleQueryUnifiedData(args: Arguments, today: Today, services: Services) returns (r: Outcome)
    ensures r == QueryUnifiedData(args, today, services)
  {
    if !Filled(args.authIdentifier) {
      return Failed(ToolError(InvalidParams, AuthRequired));
    }
    var d := ResolveDates(args, today);
    if !Dates.ValidateDateRange(d.0, d.1) {
      return Failed(ToolError(InvalidParams, InvalidDateRange));
    }
    var sources := Requested(args);
    var results: seq<Content> := [];
    var errors: seq<string> := [];
    if "ga4" in sources {
      var ga4 := HandleQueryGa4Data(Ga4ArgsFor(args, d.0, d.1), today, services);
      if ga4.Done? {
        results := results + ga4.contents;
      } else {
        errors := errors + ["GA4 query failed: " + ga4.error.message];
      }
    }
    if "gsc" in sources {
      var gsc := QueryGscData(GscArgsFor(args, d.0, d.1), today, services);
      if gsc.Done? {
        results := results + gsc.contents;
      } else {
        errors := errors + ["GSC query failed: " + gsc.error.message];
      }
    }
    if results == [] && errors != [] {
      return Failed(ToolError(InternalError, JoinWith(errors, "; ")));
    }
    var values := seq(|results|, i requires 0 <= i < |results| => Loaded(results[i]));
    return Done([Json(UnifiedPayload(values, errors))]);
  }

  // ---------------------------------------------------------------------------
  // Listing tools

  function PropertyRecord(p: Ga4Report.PropertyRow): Record
  {
    map["property_id" := VStr(p.propertyId), "property_name" := VStr(p.propertyName)]
  }

  /** `handle_list_ga4_properties`. */
  function ListGa4Properties(args: Arguments, services: Services): (r: Outcome)
    ensures r.Done? ==> |r.contents| == 1
    ensures !Filled(args.authIdentifier) ==> r == Failed(ToolError(InvalidParams, AuthRequired))
    ensures Filled(args.authIdentifier) ==>
      var listed := services.listProperties(args.authIdentifier.value);
      && (r.Failed? <==> listed.Err?)
      && (r.Failed? ==> r.error == ToolError(InternalError, "Failed to list GA4 properties: " + listed.message))
      && (r.Done? ==> (r.contents[0].Plain? <==> listed.value == []))
  {
    if !Filled(args.authIdentifier) then Failed(ToolError(InvalidParams, AuthRequired))
    else
      match services.listProperties(args.authIdentifier.value)
      case Err(m) => Failed(ToolError(InternalError, "Failed to list GA4 properties: " + m))
      case Ok(properties) =>
        if properties == [] then Done([Plain(NoGa4Properties)])
        else
          Done([Json(map["status" := VStr("success"),
                         "message" := VStr("Found " + NatToString(|properties|) + " GA4 properties"),
                         "properties" := VList(seq(|properties|, i requires 0 <= i < |properties| => VDict(PropertyRecord(properties[i]))))])])
  }

  /** Every listed property comes back as a record naming it. */
  lemma ListedPropertiesRoundTrip(args: Arguments, services: Services)
    requires Filled(args.authIdentifier)
    requires var l := services.listProperties(args.authIdentifier.value); l.Ok? && l.value != []
    ensures var properties := services.listProperties(args.authIdentifier.value).value;
      var listed := ListGa4Properties(args, services).contents[0].payload["properties"];
      && |listed.items| == |properties|
      && forall i :: 0 <= i < |properties| ==>
        listed.items[i].VDict? && PropertyFanout.Origin(listed.items[i].fields) == Some(properties[i])
  {
  }

  /** `handle_list_gsc_domains`. */
  function ListGscDomains(args: Arguments, services: Services): (r: Outcome)
    ensures r.Done? ==> |r.contents| == 1
    ensures var sites := services.listSites(OrDefault(args.authIdentifier, []));
      && (r.Failed? <==> sites.Err?)
      && (r.Failed? ==> r.error == ToolError(InternalError, "Failed to list GSC domains: " + sites.message))
      && (r.Done? ==> (r.contents[0].Plain? <==> sites.value == []))
      && (r.Done? && r.contents[0].Json? ==>
            && "domains" in r.contents[0].payload
            && r.contents[0].payload["domains"].VList?
            && |r.contents[0].payload["domains"].items| == |sites.value|
            && forall i :: 0 <= i < |sites.value| ==> r.contents[0].payload["domains"].items[i] == VDict(sites.value[i]))
  {
    match services.listSites(OrDefault(args.authIdentifier, []))
    case Err(m) => Failed(ToolError(InternalError, "Failed to list GSC domains: " + m))
    case Ok(sites) =>
      if sites == [] then Done([Plain(NoGscDomains)])
      else
        Done([Json(map["status" := VStr("success"),
                       "message" := VStr("Found " + NatToString(|sites|) + " GSC domains"),
                       "domains" := VList(RowValues(sites))])])
  }

  // ---------------------------------------------------------------------------
  // The dispatcher

  const ToolNames: seq<string> :=
    ["query_ga4_data", "query_gsc_data", "query_unified_data", "list_ga4_properties", "list_gsc_domains"]

  /** The handler a tool name selects. */
  function Dispatch(name: string, args: Arguments, today: Today, services: Services): Outcome
  {
    if name == "query_ga4_data" then QueryGa4Data(args, today, services)
    else if name == "query_gsc_data" then QueryGscData(args, today, services)
    else if name == "query_unified_data" then QueryUnifiedData(args, today, services)
    else if name == "list_ga4_properties" then ListGa4Properties(args, services)
    else if name == "list_gsc_domains" then ListGscDomains(args, services)
    else Failed(ToolError(MethodNotFound, "Unknown tool: " + name))
  }

  /** `handle_call_tool`: every error that leaves a handler, the unknown-tool
      and invalid-parameter errors included, is raised again as
      INTERNAL_ERROR with its text after 'Tool execution failed: '. */
  function HandleCallTool(name: string, args: Arguments, today: Today, services: Services): (r: Outcome)
    ensures r.Failed? ==> r.error.code == InternalError
    ensures r.Failed? <==> Dispatch(name, args, today, services).Failed?
    ensures r.Failed? ==> r.error.message == "Tool execution failed: " + Dispatch(name, args, today, services).error.message
    ensures r.Done? ==> r == Dispatch(name, args, today, services)
  {
    match Dispatch(name, args, today, services)
    case Done(contents) => Done(contents)
    case Failed(e) => Failed(ToolError(InternalError, "Tool execution failed: " + e.message))
  }

  /** A name that is not a tool fails with INTERNAL_ERROR, not
      METHOD_NOT_FOUND. */
  lemma UnknownToolIsInternalError(name: string, args: Arguments, today: Today, services: Services)
    requires name !in ToolNames
    ensures HandleCallTool(name, args, today, services)
         == Failed(ToolError(InternalError, "Tool execution failed: Unknown tool: " + name))
  {
    UnknownToolMessage(name);
  }

  lemma UnknownToolMessage(name: string)
    ensures "Tool execution failed: " + ("Unknown tool: " + name) == "Tool execution failed: Unknown tool: " + name
  {
    assert "Tool execution failed: " + "Unknown tool: " == "Tool execution failed: Unknown tool: ";
  }

  /** A known name always reaches its handler. */
  lemma KnownToolDispatched(name: string, args: Arguments, today: Today, services: Services)
    requires name in ToolNames
    ensures Dispatch(name, args, today, services) != Failed(ToolError(MethodNotFound, "Unknown tool: " + name))
  {
  }
}
