/** The all-properties GA4 loop that mcp_server.py (`handle_query_ga4_data`)
    and simplified_api.py (`query_ga4`) both run when no property id is
    given: one `produce_report` per listed property, each frame tagged with
    its property's id and name, all concatenated. A report that raises ends
    the loop and the exception leaves it. */
module PropertyFanout {
  import opened Base
  import Ga4Report

  /** The arguments of one `produce_report` call. */
  datatype ReportCall = ReportCall(
    startDate: string, endDate: string, propertyId: string, propertyName: string,
    account: string, filterExpression: string, dimensions: string, metrics: string)

  /** `produce_report`: the rows of its frame (None and an empty frame are
      both no rows), or the text of the exception it raised. */
  type Report = ReportCall -> Result<seq<Record>>

  /** `df_property['property_id'] = prop_id; df_property['property_name'] = prop_name`. */
  function TagProperty(r: Record, p: Ga4Report.PropertyRow): Record
  {
    r["property_id" := VStr(p.propertyId)]["property_name" := VStr(p.propertyName)]
  }

  /** The property a tagged row names, if it carries both tags as strings. */
  function Origin(r: Record): Option<Ga4Report.PropertyRow>
  {
    if "property_id" in r && "property_name" in r && r["property_id"].VStr? && r["property_name"].VStr?
    then Some(Ga4Report.PropertyRow(r["property_id"].s, r["property_name"].s))
    else None
  }

  /** The call for one property: `template` with that property's id and name. */
  function CallFor(template: ReportCall, p: Ga4Report.PropertyRow): ReportCall
  {
    template.(propertyId := p.propertyId, propertyName := p.propertyName)
  }

  /** What one property adds to `combined_df`, or the exception. */
  function Contribution(p: Ga4Report.PropertyRow, template: ReportCall, report: Report): (r: Result<seq<Record>>)
    ensures r.Err? <==> report(CallFor(template, p)).Err?
    ensures r.Ok? ==> |r.value| == |report(CallFor(template, p)).value|
    ensures r.Ok? ==> forall i :: 0 <= i < |r.value| ==> Origin(r.value[i]) == Some(p)
  {
    match report(CallFor(template, p))
    case Err(e) => Err(e)
    case Ok(rows) => Ok(seq(|rows|, i requires 0 <= i < |rows| => TagProperty(rows[i], p)))
  }

  /** Two outcomes one after the other: the first exception wins. */
  function Then(x: Result<seq<Record>>, y: Result<seq<Record>>): Result<seq<Record>>
  {
    if x.Err? then x else if y.Err? then y else Ok(x.value + y.value)
  }

  /** `combined_df` after the loop over `properties`. */
  function Combined(properties: seq<Ga4Report.PropertyRow>, template: ReportCall, report: Report): Result<seq<Record>>
    decreases |properties|
  {
    if properties == [] then Ok([])
    else
      Then(Combined(properties[..|properties| - 1], template, report),
           Contribution(properties[|properties| - 1], template, report))
  }

  /** The loop over properties. */
  method CombineProperties(properties: seq<Ga4Report.PropertyRow>, template: ReportCall, report: Report)
    returns (r: Result<seq<Record>>)
    ensures r == Combined(properties, template, report)
  {
    var combined: seq<Record> := [];
    for k := 0 to |properties|
      invariant Combined(properties[..k], template, report) == Ok(combined)
    {
      assert properties[..k + 1][..k] == properties[..k];
      var p := properties[k];
      var frame := report(CallFor(template, p));
      if frame.Err? {
        CombinedStaysFailed(properties, k + 1, template, report);
        return Err(frame.message);
      }
      var tagged := seq(|frame.value|, i requires 0 <= i < |frame.value| => TagProperty(frame.value[i], p));
      combined := combined + tagged;
    }
    assert properties[..|properties|] == properties;
    return Ok(combined);
  }

  /** Once a prefix of the loop has raised, the whole loop raises the same. */
  lemma {:induction false} CombinedStaysFailed(properties: seq<Ga4Report.PropertyRow>, k: nat, template: ReportCall, report: Report)
    requires k <= |properties|
    requires Combined(properties[..k], template, report).Err?
    ensures Combined(properties, template, report) == Combined(properties[..k], template, report)
    decreases |properties| - k
  {
    if k < |properties| {
      assert properties[..k + 1][..k] == properties[..k];
      CombinedStaysFailed(properties, k + 1, template, report);
    } else {
      assert properties[..k] == properties;
    }
  }

  /** The loop raises exactly when some property's report raises. */
  lemma {:induction false} CombinedFails(properties: seq<Ga4Report.PropertyRow>, template: ReportCall, report: Report)
    ensures Combined(properties, template, report).Err? <==>
      exists j :: 0 <= j < |properties| && report(CallFor(template, properties[j])).Err?
    decreases |properties|
  {
    if properties != [] {
      var n := |properties| - 1;
      CombinedFails(properties[..n], template, report);
      assert forall j :: 0 <= j < n ==> properties[..n][j] == properties[j];
    }
  }

  /** Every combined row is tagged with one of the listed properties, and
      there are as many rows as the reports gave. */
  lemma {:induction false} CombinedRowsTagged(properties: seq<Ga4Report.PropertyRow>, template: ReportCall, report: Report)
    ensures var r := Combined(properties, template, report);
      r.Ok? ==> forall i :: 0 <= i < |r.value| ==> Origin(r.value[i]).Some? && Origin(r.value[i]).value in properties
    decreases |properties|
  {
    if properties != [] {
      var n := |properties| - 1;
      var front := Combined(properties[..n], template, report);
      var last := Contribution(properties[n], template, report);
      CombinedRowsTagged(properties[..n], template, report);
      if front.Ok? && last.Ok? {
        var all := front.value + last.value;
        forall i | 0 <= i < |all|
          ensures Origin(all[i]).Some? && Origin(all[i]).value in properties
        {
          if i < |front.value| {
            assert all[i] == front.value[i];
            assert Origin(all[i]).value in properties[..n];
          } else {
            assert all[i] == last.value[i - |front.value|];
          }
        }
      }
    }
  }

  /** `Then` is associative, so the loop splits at any point. */
  lemma {:induction false} CombinedAppend(a: seq<Ga4Report.PropertyRow>, b: seq<Ga4Report.PropertyRow>,
                                          template: ReportCall, report: Report)
    ensures Combined(a + b, template, report) == Then(Combined(a, template, report), Combined(b, template, report))
    decreases |b|
  {
    var ca := Combined(a, template, report);
    if b == [] {
      assert a + b == a;
      if ca.Ok? { assert ca.value + [] == ca.value; }
    } else {
      var n := |b| - 1;
      assert (a + b)[..|a + b| - 1] == a + b[..n];
      assert (a + b)[|a + b| - 1] == b[n];
      CombinedAppend(a, b[..n], template, report);
      var cb := Combined(b[..n], template, report);
      var last := Contribution(b[n], template, report);
      if ca.Ok? && cb.Ok? && last.Ok? {
        assert ca.value + cb.value + last.value == ca.value + (cb.value + last.value);
      }
    }
  }

  /** A property whose report is empty leaves the result as it would be
      without that property. */
  lemma EmptyPropertySkipped(a: seq<Ga4Report.PropertyRow>, p: Ga4Report.PropertyRow, b: seq<Ga4Report.PropertyRow>,
                             template: ReportCall, report: Report)
    requires report(CallFor(template, p)) == Ok([])
    ensures Combined(a + [p] + b, template, report) == Combined(a + b, template, report)
  {
    CombinedAppend(a + [p], b, template, report);
    CombinedAppend(a, [p], template, report);
    CombinedAppend(a, b, template, report);
    assert [p][..0] == [];
    var none: seq<Record> := [];
    assert none + none == none;
    assert |Contribution(p, template, report).value| == 0;
    assert Combined([p], template, report) == Ok([]);
    var ca := Combined(a, template, report);
    if ca.Ok? { assert ca.value + [] == ca.value; }
  }
}
