/** The two data providers of the web backend
    (webapp/backend/data_providers/ga4_provider.py and gsc_provider.py): the
    GA4 loop over properties, the choice of the Search Console domain filter,
    the normalisation of records and the listings offered to the user.

    The reports, the property listing and the Search Console fetch are the
    arguments `report`, `listing` and `fetch`; the thread pool and its
    five-minute timeout are not modelled (a timeout is one more way of
    getting the empty result). */
module Providers {
  import opened Base
  import opened Strings
  import Ga4Report
  import GscFetch

  // ---------------------------------------------------------------------------
  // normalize_data

  /** A record with the `_source` and `_source_name` fields set. */
  function Tagged(r: Record, source: string, sourceName: string): Record
  {
    r["_source" := VStr(source)]["_source_name" := VStr(sourceName)]
  }

  /** Tagging adds the two source fields and leaves every other field as it
      was; tagging twice is tagging once. */
  lemma TaggedFields(r: Record, source: string, sourceName: string)
    ensures Tagged(r, source, sourceName).Keys == r.Keys + {"_source", "_source_name"}
    ensures Tagged(r, source, sourceName)["_source"] == VStr(source)
    ensures Tagged(r, source, sourceName)["_source_name"] == VStr(sourceName)
    ensures forall k :: k in r && k != "_source" && k != "_source_name" ==> Tagged(r, source, sourceName)[k] == r[k]
    ensures Tagged(Tagged(r, source, sourceName), source, sourceName) == Tagged(r, source, sourceName)
  {
  }

  /** `normalize_data`: every record gains its source fields, in place. An
      empty frame has no records. */
  method NormalizeData(records: seq<Record>, source: string, sourceName: string) returns (out: seq<Record>)
    ensures |out| == |records|
    ensures forall i :: 0 <= i < |records| ==> out[i] == Tagged(records[i], source, sourceName)
  {
    out := records;
    for i := 0 to |out|
      invariant |out| == |records|
      invariant forall j :: 0 <= j < i ==> out[j] == Tagged(records[j], source, sourceName)
      invariant forall j :: i <= j < |out| ==> out[j] == records[j]
    {
      out := out[i := Tagged(out[i], source, sourceName)];
    }
  }

  const Ga4Source: string := "ga4"
  const Ga4SourceName: string := "Google Analytics 4"
  const GscSource: string := "gsc"
  const GscSourceName: string := "Google Search Console"

  // ---------------------------------------------------------------------------
  // GA4: list_properties

  /** One entry of the property picker. */
  function PropertyOption(p: Ga4Report.PropertyRow): Record
  {
    map["id" := VStr(p.propertyId), "name" := VStr(p.propertyName),
        "display_name" := VStr(p.propertyName + " (" + p.propertyId + ")")]
  }

  /** `GA4Provider.list_properties`: one option per listed property; a
      listing that failed (None) gives none. */
  function PropertyOptions(listing: Option<seq<Ga4Report.PropertyRow>>): (opts: seq<Record>)
    ensures listing.None? ==> opts == []
    ensures listing.Some? ==> |opts| == |listing.value|
  {
    if listing.None? then []
    else seq(|listing.value|, i requires 0 <= i < |listing.value| => PropertyOption(listing.value[i]))
  }

  /** The property an option stands for, read back from its id and name. */
  function OptionProperty(opt: Record): Option<Ga4Report.PropertyRow>
  {
    if "id" in opt && "name" in opt && opt["id"].VStr? && opt["name"].VStr?
    then Some(Ga4Report.PropertyRow(opt["id"].s, opt["name"].s))
    else None
  }

  /** The options give back the listing they were made from, in order. */
  lemma PropertyOptionsRoundTrip(rows: seq<Ga4Report.PropertyRow>)
    ensures var opts := PropertyOptions(Some(rows));
      forall i :: 0 <= i < |rows| ==> OptionProperty(opts[i]) == Some(rows[i])
  {
  }

  // ---------------------------------------------------------------------------
  // GA4: execute_query

  /** One report to run: the property, the name it is reported under, and
      whether the rows are tagged with that name too. */
  datatype Job = Job(propertyId: string, propertyName: string, tagName: bool)

  /** `df.empty`: no rows or no columns. */
  predicate NonEmpty(t: Table)
  {
    |t.rows| > 0 && |t.columns| > 0
  }

  function TagRow(row: Record, job: Job): Record
  {
    var withId := row["property_id" := VStr(job.propertyId)];
    if job.tagName then withId["property_name" := VStr(job.propertyName)] else withId
  }

  function TagRows(rows: seq<Record>, job: Job): (tagged: seq<Record>)
    ensures |tagged| == |rows|
    ensures forall i :: 0 <= i < |rows| ==> tagged[i] == TagRow(rows[i], job)
  {
    seq(|rows|, i requires 0 <= i < |rows| => TagRow(rows[i], job))
  }

  /** The rows of the jobs run in order; the first report that raises aborts
      the whole batch. Reports with bad dates and empty frames add nothing. */
  function Reports(jobs: seq<Job>, report: (string, string) -> Ga4Report.ReportOutcome): Result<seq<Record>>
    decreases |jobs|
  {
    if jobs == [] then Ok([])
    else
      var job := jobs[|jobs| - 1];
      match Reports(jobs[..|jobs| - 1], report)
      case Err(e) => Err(e)
      case Ok(front) =>
        match report(job.propertyId, job.propertyName)
        case Raised(e) => Err(e)
        case InvalidDates => Ok(front)
        case Frame(t) => Ok(front + (if NonEmpty(t) then TagRows(t.rows, job) else []))
  }

  /** The jobs of a query: the requested properties under the name
      "Property_<id>", or else every listed property under its own name. */
  function JobsFor(propertyIds: seq<string>, listing: Option<seq<Ga4Report.PropertyRow>>): (jobs: seq<Job>)
    ensures propertyIds != [] ==>
      && |jobs| == |propertyIds|
      && forall i :: 0 <= i < |jobs| ==> jobs[i] == Job(propertyIds[i], "Property_" + propertyIds[i], false)
    ensures propertyIds == [] && listing.Some? ==>
      && |jobs| == |listing.value|
      && forall i :: 0 <= i < |jobs| ==> jobs[i] == Job(listing.value[i].propertyId, listing.value[i].propertyName, true)
    ensures propertyIds == [] && listing.None? ==> jobs == []
  {
    if propertyIds != [] then
      seq(|propertyIds|, i requires 0 <= i < |propertyIds| => Job(propertyIds[i], "Property_" + propertyIds[i], false))
    else if listing.None? then []
    else
      seq(|listing.value|, i requires 0 <= i < |listing.value| =>
        Job(listing.value[i].propertyId, listing.value[i].propertyName, true))
  }

  /** What `GA4Provider.execute_query` returns, as records: the batch's rows,
      or nothing when any report raised. */
  function Ga4Rows(propertyIds: seq<string>, listing: Option<seq<Ga4Report.PropertyRow>>,
                   report: (string, string) -> Ga4Report.ReportOutcome): seq<Record>
  {
    match Reports(JobsFor(propertyIds, listing), report)
    case Ok(rows) => rows
    case Err(_) => []
  }

  /** The report each job runs: `produce_report` with the dimension and
      metric lists joined with ','. */
  function ReportCall(startDate: string, endDate: string, filterExpression: string,
                      dimensions: seq<string>, metrics: seq<string>,
                      run: Ga4Report.ReportRequest -> Ga4Report.ApiReply): (string, string) -> Ga4Report.ReportOutcome
  {
    (id: string, name: string) =>
      Ga4Report.ProduceReport(startDate, endDate, id, name, filterExpression, Join(dimensions, ','), Join(metrics, ','), run)
  }

  /** Joining the lists and splitting them again in the report gives the
      lists back. */
  lemma ReportSeesSameNames(dimensions: seq<string>, metrics: seq<string>)
    requires |dimensions| >= 1 && |metrics| >= 1
    requires forall i :: 0 <= i < |dimensions| ==> ',' !in dimensions[i] && Strip(dimensions[i]) == dimensions[i]
    requires forall i :: 0 <= i < |metrics| ==> ',' !in metrics[i] && Strip(metrics[i]) == metrics[i]
    ensures Ga4Report.Names(Join(dimensions, ',')) == dimensions
    ensures Ga4Report.Names(Join(metrics, ',')) == metrics
  {
    Ga4Report.NamesRoundTrip(dimensions);
    Ga4Report.NamesRoundTrip(metrics);
  }

  /** A failed prefix of the batch fails the batch, with the same error. */
  lemma {:induction false} ReportsFail(jobs: seq<Job>, k: nat, report: (string, string) -> Ga4Report.ReportOutcome)
    requires k <= |jobs| && Reports(jobs[..k], report).Err?
    ensures Reports(jobs, report) == Reports(jobs[..k], report)
    decreases |jobs| - k
  {
    if k < |jobs| {
      assert jobs[..k + 1][..k] == jobs[..k];
      ReportsFail(jobs, k + 1, report);
    } else {
      assert jobs[..k] == jobs;
    }
  }

  /** One report that raises discards the rows of every property, the ones
      before it included. */
  lemma AnyRaiseLosesAll(jobs: seq<Job>, k: nat, report: (string, string) -> Ga4Report.ReportOutcome)
    requires k < |jobs| && report(jobs[k].propertyId, jobs[k].propertyName).Raised?
    ensures Reports(jobs, report).Err?
  {
    assert jobs[..k + 1][..k] == jobs[..k];
    assert Reports(jobs[..k + 1], report).Err?;
    ReportsFail(jobs, k + 1, report);
  }

  /** Row `r` carries the id of the job's property, and its name when the
      job asks for it. */
  predicate Carries(r: Record, job: Job)
  {
    && "property_id" in r && r["property_id"] == VStr(job.propertyId)
    && (job.tagName ==> "property_name" in r && r["property_name"] == VStr(job.propertyName))
  }

  /** Every row of a successful batch carries the id of the property it came
      from, and the property's name when the job asks for it. */
  lemma {:induction false} ReportsTagged(jobs: seq<Job>, report: (string, string) -> Ga4Report.ReportOutcome)
    requires Reports(jobs, report).Ok?
    ensures forall r :: r in Reports(jobs, report).value ==> exists j :: 0 <= j < |jobs| && Carries(r, jobs[j])
    decreases |jobs|
  {
    if jobs != [] {
      var front := jobs[..|jobs| - 1];
      ReportsTagged(front, report);
      assert forall j :: 0 <= j < |front| ==> front[j] == jobs[j];
      var last := |jobs| - 1;
      forall r | r in Reports(jobs, report).value
        ensures exists j :: 0 <= j < |jobs| && Carries(r, jobs[j])
      {
        if r !in Reports(front, report).value {
          var t := report(jobs[last].propertyId, jobs[last].propertyName).table;
          var i :| 0 <= i < |t.rows| && r == TagRow(t.rows[i], jobs[last]);
          assert Carries(r, jobs[last]);
        }
      }
    }
  }

  /** The batch loop of `run_ga4_query`: frames concatenated in job order. */
  method RunReports(jobs: seq<Job>, report: (string, string) -> Ga4Report.ReportOutcome) returns (rows: seq<Record>)
    ensures rows == match Reports(jobs, report) case Ok(r) => r case Err(_) => []
  {
    var combined: seq<Record> := [];
    for k := 0 to |jobs|
      invariant Reports(jobs[..k], report) == Ok(combined)
    {
      assert jobs[..k + 1][..k] == jobs[..k];
      var outcome := report(jobs[k].propertyId, jobs[k].propertyName);
      if outcome.Raised? {
        ReportsFail(jobs, k + 1, report);
        return [];
      }
      if outcome.Frame? && NonEmpty(outcome.table) {
        combined := combined + TagRows(outcome.table.rows, jobs[k]);
      } else {
        assert combined + [] == combined;
      }
    }
    assert jobs[..|jobs|] == jobs;
    return combined;
  }

  /** `GA4Provider.execute_query`: with property ids, those properties;
      without, every listed property (none when the listing failed). */
  method ExecuteGa4(propertyIds: seq<string>, listing: Option<seq<Ga4Report.PropertyRow>>,
                    report: (string, string) -> Ga4Report.ReportOutcome) returns (rows: seq<Record>)
    ensures rows == Ga4Rows(propertyIds, listing, report)
  {
    if propertyIds == [] && (listing.None? || listing.value == []) {
      return [];
    }
    rows := RunReports(JobsFor(propertyIds, listing), report);
  }

  // ---------------------------------------------------------------------------
  // Search Console: execute_query

  /** The fetch settings the provider always uses. */
  const GscConfig: GscFetch.FetchConfig := GscFetch.FetchConfig(2, 3, 5)

  /** The `domain_filter` handed to the fetch: the one domain when exactly one
      is given, else None, meaning every domain. */
  function DomainFilterArg(domains: Option<seq<string>>): (f: Option<string>)
    ensures f.Some? <==> domains.Some? && |domains.value| == 1
    ensures f.Some? ==> f.value == domains.value[0]
  {
    if domains.Some? && |domains.value| == 1 then Some(domains.value[0]) else None
  }

  /** `GSCProvider.execute_query`: the fetch's rows, or nothing when it
      raises. */
  function GscRows(dimensions: seq<string>, domains: Option<seq<string>>,
                   fetch: (string, Option<string>, GscFetch.FetchConfig) -> Result<seq<Record>>): seq<Record>
  {
    match fetch(Join(dimensions, ','), DomainFilterArg(domains), GscConfig)
    case Ok(rows) => rows
    case Err(_) => []
  }

  /** Two or more domains are fetched like no domain at all. */
  lemma SeveralDomainsMeanAll(dimensions: seq<string>, domains: seq<string>,
                              fetch: (string, Option<string>, GscFetch.FetchConfig) -> Result<seq<Record>>)
    requires |domains| != 1
    ensures GscRows(dimensions, Some(domains), fetch) == GscRows(dimensions, None, fetch)
  {
  }

  // ---------------------------------------------------------------------------
  // Search Console: list_domains

  /** The positional parameters `get_service` requires (api_name,
      api_version, scope, client_secrets_path) and how many
      `_get_domains_sync` passes. */
  const GetServiceRequired: nat := 4
  const GetServicePassed: nat := 3

  /** The sites of the account, as `_get_domains_sync` obtains them with
      `passed` arguments: a call with too few raises, and every error gives
      the empty list. `sites` is what the listing call returns. */
  function DomainsSync(passed: nat, sites: Result<Record>): seq<Value>
  {
    if passed < GetServiceRequired then []
    else
      match sites
      case Err(_) => []
      case Ok(reply) =>
        if "siteEntry" in reply && reply["siteEntry"].VList? then reply["siteEntry"].items else []
  }

  /** The options for the site entries: id, name and display name are all the
      site URL; an entry without one raises (None). */
  function SiteOptions(entries: seq<Value>): (r: Option<seq<Record>>)
    ensures r.Some? ==> |r.value| == |entries|
    ensures r.Some? ==> forall i :: 0 <= i < |entries| ==>
      entries[i].VDict? && "siteUrl" in entries[i].fields
      && r.value[i] == map["id" := entries[i].fields["siteUrl"], "name" := entries[i].fields["siteUrl"],
                           "display_name" := entries[i].fields["siteUrl"]]
  {
    if entries == [] then Some([])
    else if !(entries[0].VDict? && "siteUrl" in entries[0].fields) then None
    else
      var url := entries[0].fields["siteUrl"];
      match SiteOptions(entries[1..])
      case None => None
      case Some(rest) => Some([map["id" := url, "name" := url, "display_name" := url]] + rest)
  }

  /** `list_domains` as written: `get_service` is called with three
      arguments. */
  function ListDomainsAsWritten(sites: Result<Record>): seq<Record>
  {
    match SiteOptions(DomainsSync(GetServicePassed, sites))
    case Some(opts) => opts
    case None => []
  }

  /** Whatever the account holds, the listing as written is empty. */
  lemma ListDomainsAlwaysEmpty(sites: Result<Record>)
    ensures ListDomainsAsWritten(sites) == []
  {
  }

  /** `list_domains` with `get_service` given all its arguments. */
  function ListDomains(sites: Result<Record>): seq<Record>
  {
    match SiteOptions(DomainsSync(GetServiceRequired, sites))
    case Some(opts) => opts
    case None => []
  }

  /** With the arguments fixed, every site entry becomes one option keyed by
      its URL; and an account with one site shows the difference. */
  lemma ListDomainsListsSites(entries: seq<Value>)
    requires forall i :: 0 <= i < |entries| ==> entries[i].VDict? && "siteUrl" in entries[i].fields
    ensures var opts := ListDomains(Ok(map["siteEntry" := VList(entries)]));
      && |opts| == |entries|
      && forall i :: 0 <= i < |entries| ==> opts[i]["id"] == entries[i].fields["siteUrl"]
    ensures entries != [] ==>
      ListDomainsAsWritten(Ok(map["siteEntry" := VList(entries)])) != ListDomains(Ok(map["siteEntry" := VList(entries)]))
  {
    SiteOptionsTotal(entries);
  }

  lemma {:induction false} SiteOptionsTotal(entries: seq<Value>)
    requires forall i :: 0 <= i < |entries| ==> entries[i].VDict? && "siteUrl" in entries[i].fields
    ensures SiteOptions(entries).Some?
  {
    if entries != [] {
      SiteOptionsTotal(entries[1..]);
    }
  }
}
