/** The registry of data providers (webapp/backend/data_providers/registry.py):
    lookup by source name, and the unified query that runs each requested
    source in turn, normalises its records, and appends the Search Console
    rows, merged by domain, after all the others.

    The two providers' `execute_query` calls are the arguments `ga4` and
    `gsc` (their records, or the exception they raised). */
module Registry {
  import opened Base
  import Providers
  import AggregateDomains

  datatype Source = Ga4 | Gsc

  /** The names the registry knows, in registration order. */
  function ListSources(): seq<string>
  {
    ["ga4", "gsc"]
  }

  /** `get_provider`: the provider registered under `source`, if any. */
  function GetProvider(source: string): (p: Option<Source>)
    ensures p.Some? <==> source in ListSources()
    ensures p == Some(Ga4) <==> source == "ga4"
    ensures p == Some(Gsc) <==> source == "gsc"
  {
    if source == "ga4" then Some(Ga4) else if source == "gsc" then Some(Gsc) else None
  }

  // ---------------------------------------------------------------------------
  // Search Console dimensions

  /** The dimension ids of the Search Console metadata. */
  const GscDimensionIds: seq<string> := ["page", "query", "country", "device", "date", "searchAppearance"]

  /** The requested dimensions that are in `valid`, in request order. */
  function KeepValid(dimensions: seq<string>, valid: seq<string>): seq<string>
  {
    if dimensions == [] then []
    else (if dimensions[0] in valid then [dimensions[0]] else []) + KeepValid(dimensions[1..], valid)
  }

  /** `KeepValid` keeps exactly the valid requested dimensions, and keeps a
      list that is all valid whole. */
  lemma {:induction false} KeepValidSpec(dimensions: seq<string>, valid: seq<string>)
    ensures forall d :: d in KeepValid(dimensions, valid) <==> d in dimensions && d in valid
    ensures (forall i :: 0 <= i < |dimensions| ==> dimensions[i] in valid) ==> KeepValid(dimensions, valid) == dimensions
  {
    if dimensions != [] {
      KeepValidSpec(dimensions[1..], valid);
      assert forall d :: d in dimensions <==> d == dimensions[0] || d in dimensions[1..];
      assert dimensions == [dimensions[0]] + dimensions[1..];
    }
  }

  /** The dimensions sent to Search Console: the valid requested ones, or
      ['page'] when none is valid. */
  function GscDimensions(dimensions: seq<string>): seq<string>
  {
    var kept := KeepValid(dimensions, GscDimensionIds);
    if kept == [] then ["page"] else kept
  }

  /** Search Console is never asked for a dimension it does not know, and
      falls back to 'page' exactly when nothing requested is valid. */
  lemma GscDimensionsSpec(dimensions: seq<string>)
    ensures var g := GscDimensions(dimensions);
      && g != []
      && (forall d :: d in g ==> d in GscDimensionIds)
      && (g == ["page"] <==> (forall d :: d in dimensions ==> d !in GscDimensionIds) || KeepValid(dimensions, GscDimensionIds) == ["page"])
      && (forall d :: d in dimensions && d in GscDimensionIds ==> d in g)
  {
    KeepValidSpec(dimensions, GscDimensionIds);
    var kept := KeepValid(dimensions, GscDimensionIds);
    if kept != [] {
      assert kept[0] in kept;
    }
  }

  // ---------------------------------------------------------------------------
  // The unified query

  /** GA4's `property_ids`: the properties, or None when there are none. */
  function Ga4PropertyIds(properties: Option<seq<string>>): Option<seq<string>>
  {
    if properties.Some? && properties.value != [] then properties else None
  }

  /** The provider calls of one query. */
  datatype Calls = Calls(
    ga4: Option<seq<string>> -> Result<seq<Record>>,
    gsc: (seq<string>, Option<seq<string>>) -> Result<seq<Record>>)

  function Normalized(records: seq<Record>, source: string, sourceName: string): (r: seq<Record>)
    ensures |r| == |records|
  {
    seq(|records|, i requires 0 <= i < |records| => Providers.Tagged(records[i], source, sourceName))
  }

  /** What one source adds to the two lists (`all_results`, `gsc_results`):
      nothing when it is unknown or its call raised. */
  function SourceRows(source: string, dimensions: seq<string>, properties: Option<seq<string>>,
                      calls: Calls): (seq<Record>, seq<Record>)
  {
    match GetProvider(source)
    case None => ([], [])
    case Some(Ga4) =>
      (match calls.ga4(Ga4PropertyIds(properties))
       case Err(_) => ([], [])
       case Ok(records) => (Normalized(records, Providers.Ga4Source, Providers.Ga4SourceName), []))
    case Some(Gsc) =>
      (match calls.gsc(GscDimensions(dimensions), properties)
       case Err(_) => ([], [])
       case Ok(records) => ([], Normalized(records, Providers.GscSource, Providers.GscSourceName)))
  }

  /** The two lists after a loop over `sources` in which each source adds
      `step(source)` to them. */
  function Gather(sources: seq<string>, step: string -> (seq<Record>, seq<Record>)): (seq<Record>, seq<Record>)
    decreases |sources|
  {
    if sources == [] then ([], [])
    else
      var front := Gather(sources[..|sources| - 1], step);
      var last := step(sources[|sources| - 1]);
      (front.0 + last.0, front.1 + last.1)
  }

  /** Steps contribute independently: the lists of `a + b` are those of `a`
      followed by those of `b`. */
  lemma {:induction false} GatherAppend(a: seq<string>, b: seq<string>, step: string -> (seq<Record>, seq<Record>))
    ensures var ab := Gather(a + b, step);
      var ga := Gather(a, step);
      var gb := Gather(b, step);
      ab == (ga.0 + gb.0, ga.1 + gb.1)
    decreases |b|
  {
    var ga := Gather(a, step);
    if b == [] {
      assert a + b == a;
      assert ga.0 + [] == ga.0 && ga.1 + [] == ga.1;
    } else {
      var b' := b[..|b| - 1];
      assert (a + b)[..|a + b| - 1] == a + b';
      assert (a + b)[|a + b| - 1] == b[|b| - 1];
      GatherAppend(a, b', step);
      var gb' := Gather(b', step);
      var last := step(b[|b| - 1]);
      assert ga.0 + gb'.0 + last.0 == ga.0 + (gb'.0 + last.0);
      assert ga.1 + gb'.1 + last.1 == ga.1 + (gb'.1 + last.1);
    }
  }

  /** The two lists after the loop over `sources`. */
  function Collect(sources: seq<string>, dimensions: seq<string>, properties: Option<seq<string>>,
                   calls: Calls): (seq<Record>, seq<Record>)
  {
    Gather(sources, s => SourceRows(s, dimensions, properties, calls))
  }

  /** `execute_unified_query`: the GA4 records, then the Search Console ones
      merged by domain; a merge that raises is not caught. */
  function UnifiedQuery(sources: seq<string>, dimensions: seq<string>, properties: Option<seq<string>>,
                        calls: Calls, str: Value -> string, parseFloat: string -> Option<real>): Result<seq<Record>>
  {
    var lists := Collect(sources, dimensions, properties, calls);
    if lists.1 == [] then Ok(lists.0)
    else
      match AggregateDomains.Aggregate(lists.1, str, parseFloat)
      case Err(e) => Err(e)
      case Ok(merged) => Ok(lists.0 + merged)
  }

  /** Sources contribute independently: the lists of `a + b` are those of `a`
      followed by those of `b`. */
  lemma CollectAppend(a: seq<string>, b: seq<string>, dimensions: seq<string>,
                      properties: Option<seq<string>>, calls: Calls)
    ensures var ab := Collect(a + b, dimensions, properties, calls);
      var ca := Collect(a, dimensions, properties, calls);
      var cb := Collect(b, dimensions, properties, calls);
      ab == (ca.0 + cb.0, ca.1 + cb.1)
  {
    GatherAppend(a, b, s => SourceRows(s, dimensions, properties, calls));
  }

  lemma CollectOne(s: string, dimensions: seq<string>, properties: Option<seq<string>>, calls: Calls)
    ensures Collect([s], dimensions, properties, calls) == SourceRows(s, dimensions, properties, calls)
  {
    GatherOne(s, s => SourceRows(s, dimensions, properties, calls));
  }

  lemma GatherOne(s: string, step: string -> (seq<Record>, seq<Record>))
    ensures Gather([s], step) == step(s)
  {
    assert [s][..0] == [];
    assert [] + step(s).0 == step(s).0 && [] + step(s).1 == step(s).1;
  }

  /** An unknown source, or one whose call raised, leaves the others' rows as
      they would be without it. */
  lemma SilentSourceSkipped(a: seq<string>, s: string, b: seq<string>, dimensions: seq<string>,
                            properties: Option<seq<string>>, calls: Calls)
    requires SourceRows(s, dimensions, properties, calls) == ([], [])
    ensures Collect(a + [s] + b, dimensions, properties, calls) == Collect(a + b, dimensions, properties, calls)
  {
    CollectAppend(a + [s], b, dimensions, properties, calls);
    CollectAppend(a, [s], dimensions, properties, calls);
    CollectAppend(a, b, dimensions, properties, calls);
    CollectOne(s, dimensions, properties, calls);
    var ca := Collect(a, dimensions, properties, calls);
    assert ca.0 + [] == ca.0 && ca.1 + [] == ca.1;
  }

  /** A query without "gsc" never merges: it is the GA4 records alone. */
  lemma {:induction false} WithoutGscNoMerge(sources: seq<string>, dimensions: seq<string>,
                                             properties: Option<seq<string>>, calls: Calls)
    requires "gsc" !in sources
    ensures Collect(sources, dimensions, properties, calls).1 == []
    decreases |sources|
  {
    if sources != [] {
      assert sources[|sources| - 1] in sources;
      assert forall x :: x in sources[..|sources| - 1] ==> x in sources;
      WithoutGscNoMerge(sources[..|sources| - 1], dimensions, properties, calls);
    }
  }

  /** The loop of `execute_unified_query` and the merge after it. */
  method ExecuteUnifiedQuery(sources: seq<string>, dimensions: seq<string>, properties: Option<seq<string>>,
                             calls: Calls, str: Value -> string, parseFloat: string -> Option<real>)
    returns (r: Result<seq<Record>>)
    ensures r == UnifiedQuery(sources, dimensions, properties, calls, str, parseFloat)
  {
    var allResults: seq<Record> := [];
    var gscResults: seq<Record> := [];
    for k := 0 to |sources|
      invariant Collect(sources[..k], dimensions, properties, calls) == (allResults, gscResults)
    {
      assert sources[..k + 1][..k] == sources[..k];
      var source := sources[k];
      var provider := GetProvider(source);
      if provider == Some(Ga4) {
        var outcome := calls.ga4(Ga4PropertyIds(properties));
        if outcome.Ok? {
          var normalized := Providers.NormalizeData(outcome.value, Providers.Ga4Source, Providers.Ga4SourceName);
          assert normalized == Normalized(outcome.value, Providers.Ga4Source, Providers.Ga4SourceName);
          allResults := allResults + normalized;
        }
      } else if provider == Some(Gsc) {
        var outcome := calls.gsc(GscDimensions(dimensions), properties);
        if outcome.Ok? {
          var normalized := Providers.NormalizeData(outcome.value, Providers.GscSource, Providers.GscSourceName);
          assert normalized == Normalized(outcome.value, Providers.GscSource, Providers.GscSourceName);
          gscResults := gscResults + normalized;
        }
      }
      assert allResults + [] == allResults && gscResults + [] == gscResults;
    }
    assert sources[..|sources|] == sources;
    if gscResults != [] {
      var merged := AggregateDomains.AggregateGscDomainVariants(gscResults, str, parseFloat);
      if merged.Err? {
        return Err(merged.message);
      }
      allResults := allResults + merged.value;
    }
    return Ok(allResults);
  }
}
