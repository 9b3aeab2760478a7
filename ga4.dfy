/** The GA4 Data API helpers of GA4query3.py: how `produce_report` turns its
    text arguments into a report request and a report into a data frame, and
    the paging loops of `list_properties`. The OAuth flow and the Google
    clients are parameters: `run` answers a report request, and the Admin
    API's pages are given as the chain of pages its page tokens reach. */
module Ga4Report {
  import opened Base
  import opened Strings
  import Dates

  // ---------------------------------------------------------------------------
  // Request building

  /** `[x.strip() for x in s.split(',')]`: the comma-separated names, trimmed,
      in their order (blank names are kept). */
  function Names(s: string): (names: seq<string>)
    ensures |names| == |Split(s, ',')|
  {
    var parts := Split(s, ',');
    seq(|parts|, i requires 0 <= i < |parts| => Strip(parts[i]))
  }

  /** Names joined with ',' split back into the same names, in order. */
  lemma NamesRoundTrip(names: seq<string>)
    requires |names| >= 1
    requires forall i :: 0 <= i < |names| ==> ',' !in names[i] && Strip(names[i]) == names[i]
    ensures Names(Join(names, ',')) == names
  {
    SplitJoin(names, ',');
  }

  /** A string filter: exact match of `value` on dimension `fieldName`. */
  datatype StringFilter = StringFilter(fieldName: string, value: string)

  /** `Filter(field_name=e.split('=')[0], value=e.split('=')[1])`: the text
      before the first '=' and the text between the first and the second;
      without any '=' the index raises. */
  function ParseFilter(expr: string): (r: Result<StringFilter>)
    ensures r.Ok? <==> '=' in expr
  {
    var parts := Split(expr, '=');
    if |parts| < 2 then
      SplitWithoutSeparator(expr, '=');
      Err(IndexErrorText)
    else
      SplitSeparatorFound(expr, '=');
      Ok(StringFilter(parts[0], parts[1]))
  }

  const IndexErrorText: string := "list index out of range"

  lemma {:induction false} SplitWithoutSeparator(s: string, sep: char)
    requires |Split(s, sep)| < 2
    ensures sep !in s
  {
    if s != [] {
      SplitWithoutSeparator(s[1..], sep);
    }
  }

  lemma {:induction false} SplitSeparatorFound(s: string, sep: char)
    requires |Split(s, sep)| >= 2
    ensures sep in s
  {
    if s != [] && s[0] != sep {
      SplitSeparatorFound(s[1..], sep);
    }
  }

  /** A filter `field=value`, possibly followed by more text that starts with
      '=', reads as that field and that value. */
  lemma ParseFieldValue(field: string, value: string, tail: string)
    requires '=' !in field && '=' !in value
    requires tail == [] || tail[0] == '='
    ensures ParseFilter(field + "=" + value + tail) == Ok(StringFilter(field, value))
  {
    var t := Split(tail, '=');
    if tail == [] {
      assert t == [[]];
    } else {
      assert t == [[]] + Split(tail[1..], '=');
    }
    assert t[0] == [];
    SplitPrefix(value, tail, '=');
    var v := Split(value + tail, '=');
    assert v[0] == value + [] == value;
    var e := ['='] + (value + tail);
    assert e[0] == '=' && e[1..] == value + tail;
    var se := Split(e, '=');
    assert se == [[]] + v;
    assert se[0] == [] && se[1] == value;
    SplitPrefix(field, e, '=');
    var parts := Split(field + e, '=');
    assert parts[0] == field + [] == field;
    assert parts[1] == se[1];
    assert field + "=" + value + tail == field + e;
  }

  /** An expression written with '==' names its field and an empty value:
      'hostname==example.com' filters on hostname equal to ''. */
  lemma DoubleEqualsGivesEmptyValue(field: string, value: string)
    requires '=' !in field
    ensures ParseFilter(field + "==" + value) == Ok(StringFilter(field, []))
  {
    ParseFieldValue(field, [], "=" + value);
    assert field + "=" + [] + ("=" + value) == field + "==" + value;
  }

  /** What is sent to `run_report`. */
  datatype ReportRequest = ReportRequest(
    property: string, dimensions: seq<string>, metrics: seq<string>,
    startDate: string, endDate: string, filter: Option<StringFilter>)

  /** The request of `produce_report`, or the exception raised while building
      it; a filter is applied only when the expression is non-empty. */
  function BuildRequest(startDate: string, endDate: string, propertyId: string,
                        filterExpression: string, dimensions: string, metrics: string): (r: Result<ReportRequest>)
    ensures r.Err? <==> filterExpression != [] && '=' !in filterExpression
    ensures r.Ok? ==>
      && r.value.property == "properties/" + propertyId
      && r.value.dimensions == Names(dimensions) && r.value.metrics == Names(metrics)
      && (r.value.filter.Some? <==> filterExpression != [])
  {
    var request := ReportRequest("properties/" + propertyId, Names(dimensions), Names(metrics), startDate, endDate, None);
    if filterExpression == [] then Ok(request)
    else
      match ParseFilter(filterExpression)
      case Err(e) => Err(e)
      case Ok(f) => Ok(request.(filter := Some(f)))
  }

  // ---------------------------------------------------------------------------
  // Report to frame

  datatype ResponseRow = ResponseRow(dimensionValues: seq<string>, metricValues: seq<string>)

  /** What `run_report` answers: an API error or the report. */
  datatype ApiReply =
    | ApiError(error: string)
    | Report(dimensionHeaders: seq<string>, metricHeaders: seq<string>, rows: seq<ResponseRow>)

  /** One frame row as a record: later columns of the same name win. */
  function Zip(names: seq<string>, values: seq<string>): (r: Record)
    requires |names| == |values|
    ensures r.Keys == set i | 0 <= i < |names| :: names[i]
    decreases |names|
  {
    if names == [] then map[]
    else
      var n := |names| - 1;
      var front := Zip(names[..n], values[..n]);
      assert forall i :: 0 <= i < n ==> names[..n][i] == names[i];
      front[names[n] := VStr(values[n])]
  }

  predicate Distinct(names: seq<string>)
  {
    forall i, j :: 0 <= i < j < |names| ==> names[i] != names[j]
  }

  /** With distinct column names, each name reads back its own value. */
  lemma {:induction false} ZipLookup(names: seq<string>, values: seq<string>, j: int)
    requires |names| == |values| && Distinct(names) && 0 <= j < |names|
    ensures names[j] in Zip(names, values) && Zip(names, values)[names[j]] == VStr(values[j])
    decreases |names|
  {
    var n := |names| - 1;
    if j < n {
      ZipLookup(names[..n], values[..n], j);
    }
  }

  /** `pd.DataFrame(rows, columns=dimension names + metric names)`, each row
      the dimension values followed by the metric values; pandas refuses a
      row whose length differs from the column count. */
  function ReportFrame(dimensionHeaders: seq<string>, metricHeaders: seq<string>, rows: seq<ResponseRow>): (r: Result<Table>)
    ensures r.Ok? <==> forall i :: 0 <= i < |rows| ==>
      |rows[i].dimensionValues| + |rows[i].metricValues| == |dimensionHeaders| + |metricHeaders|
    ensures r.Ok? ==> r.value.columns == dimensionHeaders + metricHeaders && |r.value.rows| == |rows|
  {
    var columns := dimensionHeaders + metricHeaders;
    if forall i :: 0 <= i < |rows| ==> |rows[i].dimensionValues| + |rows[i].metricValues| == |columns| then
      Ok(Table(columns, seq(|rows|, i requires 0 <= i < |rows| && |rows[i].dimensionValues| + |rows[i].metricValues| == |columns|
        => Zip(columns, rows[i].dimensionValues + rows[i].metricValues))))
    else Err(ColumnsMismatch)
  }

  const ColumnsMismatch: string := "passed data does not match the number of columns"

  /** Each cell of the frame holds the matching dimension or metric value of
      its response row. */
  lemma ReportCells(dimensionHeaders: seq<string>, metricHeaders: seq<string>, rows: seq<ResponseRow>, i: int, j: int)
    requires ReportFrame(dimensionHeaders, metricHeaders, rows).Ok?
    requires Distinct(dimensionHeaders + metricHeaders)
    requires 0 <= i < |rows| && 0 <= j < |dimensionHeaders| + |metricHeaders|
    ensures var t := ReportFrame(dimensionHeaders, metricHeaders, rows).value;
      && t.columns[j] in t.rows[i]
      && t.rows[i][t.columns[j]] == VStr((rows[i].dimensionValues + rows[i].metricValues)[j])
  {
    var columns := dimensionHeaders + metricHeaders;
    var values := rows[i].dimensionValues + rows[i].metricValues;
    assert ReportFrame(dimensionHeaders, metricHeaders, rows).value.rows[i] == Zip(columns, values);
    ZipLookup(columns, values, j);
  }

  /** What `produce_report` gives back. */
  datatype ReportOutcome =
    | InvalidDates            // returns None
    | Raised(error: string)   // raises, the API message wrapped with the property
    | Frame(table: Table)

  /** The light-bulb marker that starts each suggestion, as the characters the
      source file holds there (the UTF-8 bytes of the emoji decoded once more). */
  const HintMark: string := "\n\U{00F0}\U{0178}\U{2019}\U{00A1} Suggestion: "

  const SchemaPage: string := "https://developers.google.com/analytics/devguides/reporting/data/v1/api-schema"

  const CampaignHint: string := HintMark + "Use 'sessionCampaignId' for campaign ID or 'sessionCampaignName' for campaign name instead of 'sessionCampaign'"
  const DimensionsHint: string := HintMark + "Check the GA4 API documentation for valid dimensions: " + SchemaPage
  const MetricsHint: string := HintMark + "Check the GA4 API documentation for valid metrics: " + SchemaPage
  const VerifyHint: string := HintMark + "Verify your dimensions and metrics are valid for GA4. Common dimensions include: pagePath, country, deviceCategory, sessionSource, sessionMedium, sessionCampaignId"

  /** The suggestion `produce_report` appends to the text of an API error:
      one for an invalid dimension (campaign or field), one for an invalid
      metric, one for a 400 that mentions dimensions or metrics, or none. */
  function Suggestion(error: string): string
  {
    if Contains(error, "is not a valid dimension") then
      if Contains(error, "sessionCampaign") then CampaignHint
      else if Contains(error, "Field") then DimensionsHint
      else []
    else if Contains(error, "is not a valid metric") then MetricsHint
    else if Contains(error, "400") && (Contains(Lower(error), "dimension") || Contains(Lower(error), "metric")) then VerifyHint
    else []
  }

  /** The head of the raised text: the property and the API's own message. */
  function ApiErrorHead(propertyName: string, propertyId: string, error: string): string
  {
    "GA4 API Error for property " + propertyName + " (" + propertyId + "): " + error
  }

  /** The text of the exception `produce_report` raises for an API error. */
  function ApiErrorText(propertyName: string, propertyId: string, error: string): string
  {
    ApiErrorHead(propertyName, propertyId, error) + Suggestion(error)
  }

  /** The raised text keeps the API's message whole after the property, and
      adds at most one of the four suggestions; an invalid metric gets the
      metrics hint, and a message that names no invalid field and no 400 gets
      none. */
  lemma ApiErrorTextSpec(propertyName: string, propertyId: string, error: string)
    ensures var t := ApiErrorText(propertyName, propertyId, error);
      var head := ApiErrorHead(propertyName, propertyId, error);
      && StartsWith(t, head)
      && t[|head|..] in [[], CampaignHint, DimensionsHint, MetricsHint, VerifyHint]
    ensures !Contains(error, "is not a valid dimension") && Contains(error, "is not a valid metric") ==>
      ApiErrorText(propertyName, propertyId, error) == ApiErrorHead(propertyName, propertyId, error) + MetricsHint
    ensures !Contains(error, "is not a valid dimension") && !Contains(error, "is not a valid metric") && !Contains(error, "400") ==>
      ApiErrorText(propertyName, propertyId, error) == ApiErrorHead(propertyName, propertyId, error)
  {
    var head := ApiErrorHead(propertyName, propertyId, error);
    var t := ApiErrorText(propertyName, propertyId, error);
    assert t[..|head|] == head && t[|head|..] == Suggestion(error);
    assert head + [] == head;
  }

  /** `produce_report` after authorisation: the two dates must parse as
      '%Y-%m-%d' before anything else happens; then the request is built and
      sent, and the report becomes a frame. */
  function ProduceReport(startDate: string, endDate: string, propertyId: string, propertyName: string,
                         filterExpression: string, dimensions: string, metrics: string,
                         run: ReportRequest -> ApiReply): (r: ReportOutcome)
    ensures r.InvalidDates? <==> Dates.ParseDate(startDate).None? || Dates.ParseDate(endDate).None?
  {
    if Dates.ParseDate(startDate).None? || Dates.ParseDate(endDate).None? then InvalidDates
    else
      match BuildRequest(startDate, endDate, propertyId, filterExpression, dimensions, metrics)
      case Err(e) => Raised(ApiErrorText(propertyName, propertyId, e))
      case Ok(request) =>
        match run(request)
        case ApiError(e) => Raised(ApiErrorText(propertyName, propertyId, e))
        case Report(dh, mh, rows) =>
          match ReportFrame(dh, mh, rows)
          case Err(e) => Raised(ApiErrorText(propertyName, propertyId, e))
          case Ok(t) => Frame(t)
  }

  /** A bad date stops the report before the API is asked anything: the
      outcome does not depend on the client. */
  lemma BadDatesNeverCallApi(startDate: string, endDate: string, propertyId: string, propertyName: string,
                             filterExpression: string, dimensions: string, metrics: string,
                             run1: ReportRequest -> ApiReply, run2: ReportRequest -> ApiReply)
    requires Dates.ParseDate(startDate).None? || Dates.ParseDate(endDate).None?
    ensures ProduceReport(startDate, endDate, propertyId, propertyName, filterExpression, dimensions, metrics, run1)
         == ProduceReport(startDate, endDate, propertyId, propertyName, filterExpression, dimensions, metrics, run2)
  {
  }

  // ---------------------------------------------------------------------------
  // Property listing

  /** One page of an Admin API listing, or the exception its call raised. */
  datatype Page<T> = Page(items: seq<T>, nextPageToken: string) | PageFailed(error: string)

  datatype AdminProperty = AdminProperty(name: string, displayName: string)

  /** A row of the `list_properties` frame. */
  datatype PropertyRow = PropertyRow(propertyId: string, propertyName: string)

  /** `name.split('/')[-1]`. */
  function LastSegment(name: string): (id: string)
    ensures '/' !in id
  {
    var parts := Split(name, '/');
    parts[|parts| - 1]
  }

  lemma ResourceId(collection: string, id: string)
    requires '/' !in collection && '/' !in id
    ensures LastSegment(collection + "/" + id) == id
  {
    SplitJoin([collection, id], '/');
    assert Join([collection, id], '/') == collection + "/" + id;
  }

  function RowsOf(properties: seq<AdminProperty>): (rows: seq<PropertyRow>)
    ensures |rows| == |properties|
    ensures forall i :: 0 <= i < |rows| ==>
      rows[i] == PropertyRow(LastSegment(properties[i].name), properties[i].displayName)
  {
    seq(|properties|, i requires 0 <= i < |properties| => PropertyRow(LastSegment(properties[i].name), properties[i].displayName))
  }

  /** A listing stops after a page that is empty or carries no next token. */
  predicate Stops<T>(p: Page<T>)
    requires p.Page?
  {
    p.items == [] || p.nextPageToken == []
  }

  /** `Some(acc + r)` for `Some(r)`, None for None. */
  function Prefixed<T>(acc: seq<T>, r: Option<seq<T>>): Option<seq<T>>
  {
    match r
    case None => None
    case Some(rest) => Some(acc + rest)
  }

  /** The properties of one account, from page `i` of its chain on; a call that
      raises makes the whole listing fail, and the chain's end reads as an
      empty page. */
  function PropertyPages(pages: seq<Page<AdminProperty>>, i: nat): Option<seq<PropertyRow>>
    decreases |pages| - i
  {
    if i >= |pages| then Some([])
    else
      match pages[i]
      case PageFailed(_) => None
      case Page(items, next) =>
        if items == [] then Some([])
        else if next == [] then Some(RowsOf(items))
        else Prefixed(RowsOf(items), PropertyPages(pages, i + 1))
  }

  /** The properties of the accounts `names`, account by account. */
  function AccountsProperties(names: seq<string>, propertyPages: string -> seq<Page<AdminProperty>>): Option<seq<PropertyRow>>
    decreases |names|
  {
    if names == [] then Some([])
    else
      match AccountsProperties(names[..|names| - 1], propertyPages)
      case None => None
      case Some(front) =>
        Prefixed(front, PropertyPages(propertyPages(LastSegment(names[|names| - 1])), 0))
  }

  /** The listing from account page `i` on. */
  function AccountPages(pages: seq<Page<string>>, propertyPages: string -> seq<Page<AdminProperty>>, i: nat): Option<seq<PropertyRow>>
    decreases |pages| - i
  {
    if i >= |pages| then Some([])
    else
      match pages[i]
      case PageFailed(_) => None
      case Page(names, next) =>
        if names == [] then Some([])
        else
          match AccountsProperties(names, propertyPages)
          case None => None
          case Some(here) =>
            if next == [] then Some(here) else Prefixed(here, AccountPages(pages, propertyPages, i + 1))
  }

  lemma PrefixedEmpty<T>(r: Option<seq<T>>)
    ensures Prefixed([], r) == r
  {
    if r.Some? {
      assert [] + r.value == r.value;
    }
  }

  lemma PrefixedAssociative<T>(a: seq<T>, b: seq<T>, r: Option<seq<T>>)
    ensures Prefixed(a, Prefixed(b, r)) == Prefixed(a + b, r)
  {
    if r.Some? {
      assert a + (b + r.value) == (a + b) + r.value;
    }
  }

  /** The paging loop for one account's properties. */
  method ListAccountProperties(pages: seq<Page<AdminProperty>>) returns (r: Option<seq<PropertyRow>>)
    ensures r == PropertyPages(pages, 0)
  {
    var found: seq<PropertyRow> := [];
    var i := 0;
    PrefixedEmpty(PropertyPages(pages, 0));
    while true
      invariant 0 <= i <= |pages|
      invariant PropertyPages(pages, 0) == Prefixed(found, PropertyPages(pages, i))
      decreases |pages| - i
    {
      if i == |pages| {
        // the chain's end: an empty page
        break;
      }
      match pages[i]
      case PageFailed(_) =>
        return None;
      case Page(items, next) =>
        if items == [] {
          break;
        }
        PrefixedAssociative(found, RowsOf(items), PropertyPages(pages, i + 1));
        found := found + RowsOf(items);
        if next == [] {
          break;
        }
        i := i + 1;
    }
    assert found + [] == found;
    return Some(found);
  }

  /** `list_properties`: account pages in order, each account's property pages
      in order, every property appended as it is met. */
  method ListProperties(pages: seq<Page<string>>, propertyPages: string -> seq<Page<AdminProperty>>)
    returns (r: Option<seq<PropertyRow>>)
    ensures r == AccountPages(pages, propertyPages, 0)
  {
    var all: seq<PropertyRow> := [];
    var i := 0;
    PrefixedEmpty(AccountPages(pages, propertyPages, 0));
    while true
      invariant 0 <= i <= |pages|
      invariant AccountPages(pages, propertyPages, 0) == Prefixed(all, AccountPages(pages, propertyPages, i))
      decreases |pages| - i
    {
      if i == |pages| {
        break;
      }
      match pages[i]
      case PageFailed(_) =>
        return None;
      case Page(names, next) =>
        if names == [] {
          break;
        }
        var here: seq<PropertyRow> := [];
        var k := 0;
        while k < |names|
          invariant 0 <= k <= |names|
          invariant AccountsProperties(names[..k], propertyPages) == Some(here)
        {
          var found := ListAccountProperties(propertyPages(LastSegment(names[k])));
          assert names[..k + 1][..k] == names[..k];
          if found.None? {
            AccountsFailLater(names, propertyPages, k + 1);
            return None;
          }
          here := here + found.value;
          k := k + 1;
        }
        assert names[..k] == names;
        PrefixedAssociative(all, here, AccountPages(pages, propertyPages, i + 1));
        all := all + here;
        if next == [] {
          break;
        }
        i := i + 1;
    }
    assert all + [] == all;
    return Some(all);
  }

  /** A failing account fails every longer list of accounts. */
  lemma {:induction false} AccountsFailLater(names: seq<string>, propertyPages: string -> seq<Page<AdminProperty>>, k: int)
    requires 0 <= k <= |names|
    requires AccountsProperties(names[..k], propertyPages).None?
    ensures AccountsProperties(names, propertyPages).None?
    decreases |names| - k
  {
    if k < |names| {
      assert names[..k + 1][..k] == names[..k];
      AccountsFailLater(names, propertyPages, k + 1);
    } else {
      assert names[..k] == names;
    }
  }

  /** Pages after a page that stops the listing are never read. */
  lemma {:induction false} PagesAfterStopIgnored(pages: seq<Page<AdminProperty>>, more: seq<Page<AdminProperty>>, i: nat)
    requires i < |pages| && pages[|pages| - 1].Page? && Stops(pages[|pages| - 1])
    ensures PropertyPages(pages + more, i) == PropertyPages(pages, i)
    decreases |pages| - i
  {
    assert (pages + more)[i] == pages[i];
    if i < |pages| - 1 {
      PagesAfterStopIgnored(pages, more, i + 1);
    }
  }

  /** Every property on pages `i` onwards, in page order. */
  function AllRows(pages: seq<Page<AdminProperty>>, i: nat): seq<PropertyRow>
    decreases |pages| - i
  {
    if i >= |pages| then []
    else (if pages[i].Page? then RowsOf(pages[i].items) else []) + AllRows(pages, i + 1)
  }

  /** A chain of full pages, each naming a next page, ending in a page without
      a token lists every property of every page, in page order. */
  lemma {:induction false} FullChainListsAll(pages: seq<Page<AdminProperty>>, i: nat)
    requires i < |pages|
    requires forall j :: i <= j < |pages| ==> pages[j].Page? && pages[j].items != []
    requires forall j :: i <= j < |pages| - 1 ==> pages[j].nextPageToken != []
    requires pages[|pages| - 1].nextPageToken == []
    ensures PropertyPages(pages, i) == Some(AllRows(pages, i))
    decreases |pages| - i
  {
    if i == |pages| - 1 {
      assert AllRows(pages, i + 1) == [];
      assert AllRows(pages, i) == RowsOf(pages[i].items) + [];
      assert RowsOf(pages[i].items) + [] == RowsOf(pages[i].items);
      assert pages[i].Page? && pages[i].items != [] && pages[i].nextPageToken == [];
      assert PropertyPages(pages, i) == Some(RowsOf(pages[i].items));
    } else {
      FullChainListsAll(pages, i + 1);
    }
  }
}
