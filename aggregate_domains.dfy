/** Merging of Search Console rows that belong to variants of one site
    (webapp/backend/data_providers/aggregate_domains.py): each row's base
    domain is read from the first domain-like field that matches
    `^(https?://)?(www\.)?([^/]+)`, rows are grouped by base domain in order of
    first appearance, and each group becomes one row whose numeric fields are
    summed, or averaged for `position` and `ctr`. */
module AggregateDomains {
  import opened Base
  import opened Strings

  /** The fields searched for a domain, in the order they are tried. */
  const CandidateKeys: seq<string> := ["site", "property", "domain", "siteUrl", "propertyUrl", "page", "url"]

  // ---------------------------------------------------------------------------
  // The domain pattern

  /** The longest prefix of `s` without a '/' (greedy `[^/]*`). */
  function UpToSlash(s: string): (r: string)
    ensures r <= s && '/' !in r
    ensures |r| < |s| ==> s[|r|] == '/'
  {
    if s == [] || s[0] == '/' then [] else [s[0]] + UpToSlash(s[1..])
  }

  /** `([^/]+)` at the start of `rest`. */
  function HostAt(rest: string): (r: Option<string>)
    ensures r.Some? <==> rest != [] && rest[0] != '/'
    ensures r.Some? ==> r.value != [] && '/' !in r.value
  {
    if rest != [] && rest[0] != '/' then Some(UpToSlash(rest)) else None
  }

  /** `(www\.)?([^/]+)`: the optional group is tried first, and given up when
      the rest cannot match without it. */
  function AfterWww(rest: string): Option<string>
  {
    if StartsWith(rest, "www.") && HostAt(rest[4..]).Some? then HostAt(rest[4..]) else HostAt(rest)
  }

  /** Group 3 of `^(https?://)?(www\.)?([^/]+)` matched against `s`, with the
      backtracking of Python's `re`: "https://" is tried, then "http://", then
      no scheme. */
  function BaseDomain(s: string): (r: Option<string>)
  {
    if StartsWith(s, "https://") && AfterWww(s[8..]).Some? then AfterWww(s[8..])
    else if StartsWith(s, "http://") && AfterWww(s[7..]).Some? then AfterWww(s[7..])
    else AfterWww(s)
  }

  /** The pattern matches exactly the texts that do not start with '/', and the
      domain it gives is never empty and has no '/'. */
  lemma BaseDomainMatches(s: string)
    ensures BaseDomain(s).Some? <==> s != [] && s[0] != '/'
    ensures BaseDomain(s).Some? ==> BaseDomain(s).value != [] && '/' !in BaseDomain(s).value
  {
    if StartsWith(s, "https://") {
      assert s[0] == "https://"[0];
    } else if StartsWith(s, "http://") {
      assert s[0] == "http://"[0];
    }
    if StartsWith(s, "www.") {
      assert s[0] == "www."[0];
    }
  }

  lemma PrefixOfConcat(p: string, q: string)
    ensures StartsWith(p + q, p) && (p + q)[|p|..] == q
  {
    assert (p + q)[..|p|] == p;
  }

  /** A host that starts with neither a scheme nor "www." is its own domain, up
      to the first '/'. */
  lemma BareHost(host: string)
    requires host != [] && host[0] != '/'
    requires !StartsWith(host, "https://") && !StartsWith(host, "http://") && !StartsWith(host, "www.")
    ensures BaseDomain(host) == Some(UpToSlash(host))
  {
  }

  /** The scheme and a leading "www." are what the variants of a site differ
      in: all four give the domain of the bare host. */
  lemma VariantsShareDomain(host: string)
    requires host != [] && host[0] != '/'
    ensures BaseDomain("https://" + ("www." + host)) == Some(UpToSlash(host))
    ensures BaseDomain("http://" + ("www." + host)) == Some(UpToSlash(host))
    ensures !StartsWith(host, "www.") ==> BaseDomain("https://" + host) == Some(UpToSlash(host))
    ensures !StartsWith(host, "www.") ==> BaseDomain("http://" + host) == Some(UpToSlash(host))
  {
    PrefixOfConcat("www.", host);
    PrefixOfConcat("https://", "www." + host);
    PrefixOfConcat("https://", host);
    PrefixOfConcat("http://", "www." + host);
    PrefixOfConcat("http://", host);
    NotHttps("www." + host);
    NotHttps(host);
  }

  lemma NotHttps(rest: string)
    ensures !StartsWith("http://" + rest, "https://")
  {
    assert ("http://" + rest)[4] == ':';
  }

  // ---------------------------------------------------------------------------
  // Finding a row's domain

  /** The text `str()` gives for a field (strings are themselves). */
  function Text(v: Value, str: Value -> string): string
  {
    if v.VStr? then v.s else str(v)
  }

  /** The domain of the first field among `keys` that is present and matches. */
  function DomainFrom(row: Record, keys: seq<string>, str: Value -> string): Option<string>
  {
    if keys == [] then None
    else if keys[0] in row && BaseDomain(Text(row[keys[0]], str)).Some? then BaseDomain(Text(row[keys[0]], str))
    else DomainFrom(row, keys[1..], str)
  }

  function DomainOf(row: Record, str: Value -> string): Option<string>
  {
    DomainFrom(row, CandidateKeys, str)
  }

  /** The domain comes from the earliest candidate field that is present and
      matches, and there is none exactly when no such field exists. */
  lemma {:induction false} DomainFromFirstMatch(row: Record, keys: seq<string>, str: Value -> string)
    ensures DomainFrom(row, keys, str).None? <==>
      forall i :: 0 <= i < |keys| ==> keys[i] !in row || BaseDomain(Text(row[keys[i]], str)).None?
    ensures DomainFrom(row, keys, str).Some? ==>
      exists i :: 0 <= i < |keys| && keys[i] in row && BaseDomain(Text(row[keys[i]], str)) == DomainFrom(row, keys, str)
        && forall j :: 0 <= j < i ==> keys[j] !in row || BaseDomain(Text(row[keys[j]], str)).None?
  {
    if keys != [] {
      DomainFromFirstMatch(row, keys[1..], str);
      if keys[0] in row && BaseDomain(Text(row[keys[0]], str)).Some? {
      } else {
        assert forall i :: 1 <= i < |keys| ==> keys[i] == keys[1..][i - 1];
        if DomainFrom(row, keys, str).Some? {
          var i :| 0 <= i < |keys[1..]| && keys[1..][i] in row
            && BaseDomain(Text(row[keys[1..][i]], str)) == DomainFrom(row, keys[1..], str)
            && forall j :: 0 <= j < i ==> keys[1..][j] !in row || BaseDomain(Text(row[keys[1..][j]], str)).None?;
          assert keys[i + 1] == keys[1..][i];
          assert forall j :: 1 <= j < i + 1 ==> keys[j] == keys[1..][j - 1];
        }
      }
    }
  }

  /** The search loop over the candidate fields of one row. */
  method FindDomain(row: Record, str: Value -> string) returns (domain: Option<string>)
    ensures domain == DomainOf(row, str)
  {
    var keys := CandidateKeys;
    var k := 0;
    while k < |keys|
      invariant 0 <= k <= |keys|
      invariant DomainFrom(row, keys[k..], str) == DomainOf(row, str)
    {
      assert keys[k..][1..] == keys[k + 1..];
      if keys[k] in row {
        var m := BaseDomain(Text(row[keys[k]], str));
        if m.Some? {
          return m;
        }
      }
      k := k + 1;
    }
    return None;
  }

  // ---------------------------------------------------------------------------
  // Grouping

  /** The distinct domains of `rows`, in order of first appearance (the key
      order of the `defaultdict`). */
  function Order(rows: seq<Record>, str: Value -> string): seq<string>
    decreases |rows|
  {
    if rows == [] then []
    else
      var front := Order(rows[..|rows| - 1], str);
      match DomainOf(rows[|rows| - 1], str)
      case None => front
      case Some(d) => if d in front then front else front + [d]
  }

  /** The rows of domain `d`, in their order. */
  function Group(rows: seq<Record>, d: string, str: Value -> string): seq<Record>
    decreases |rows|
  {
    if rows == [] then []
    else Group(rows[..|rows| - 1], d, str) + (if DomainOf(rows[|rows| - 1], str) == Some(d) then [rows[|rows| - 1]] else [])
  }

  /** The domains are distinct, a domain is listed exactly when some row has
      it, and exactly those domains have a non-empty group. */
  lemma OrderSpec(rows: seq<Record>, str: Value -> string)
    ensures forall i, j :: 0 <= i < j < |Order(rows, str)| ==> Order(rows, str)[i] != Order(rows, str)[j]
    ensures forall d :: d in Order(rows, str) <==> exists i :: 0 <= i < |rows| && DomainOf(rows[i], str) == Some(d)
    ensures forall d :: d in Order(rows, str) <==> Group(rows, d, str) != []
  {
    OrderDistinct(rows, str);
    OrderMembers(rows, str);
    OrderGroups(rows, str);
  }

  lemma {:induction false} OrderDistinct(rows: seq<Record>, str: Value -> string)
    ensures forall i, j :: 0 <= i < j < |Order(rows, str)| ==> Order(rows, str)[i] != Order(rows, str)[j]
    decreases |rows|
  {
    if rows != [] {
      var front := rows[..|rows| - 1];
      OrderDistinct(front, str);
      var ds := Order(rows, str);
      var before := Order(front, str);
      var last := DomainOf(rows[|rows| - 1], str);
      if last.Some? && last.value !in before {
        assert ds == before + [last.value];
        forall i, j | 0 <= i < j < |ds|
          ensures ds[i] != ds[j]
        {
          assert ds[i] == before[i];
          if j < |before| {
            assert ds[j] == before[j];
          } else {
            assert before[i] in before;
          }
        }
      }
    }
  }

  /** Some row of `rows` has domain `d`. */
  predicate Seen(rows: seq<Record>, d: string, str: Value -> string)
  {
    exists i :: 0 <= i < |rows| && DomainOf(rows[i], str) == Some(d)
  }

  lemma SeenStep(rows: seq<Record>, d: string, str: Value -> string)
    requires rows != []
    ensures Seen(rows, d, str) <==> Seen(rows[..|rows| - 1], d, str) || DomainOf(rows[|rows| - 1], str) == Some(d)
  {
    var n := |rows| - 1;
    var front := rows[..n];
    if Seen(rows, d, str) {
      var i :| 0 <= i < |rows| && DomainOf(rows[i], str) == Some(d);
      if i < n {
        assert front[i] == rows[i];
      }
    }
    if Seen(front, d, str) {
      var i :| 0 <= i < |front| && DomainOf(front[i], str) == Some(d);
      assert front[i] == rows[i];
    }
  }

  lemma {:induction false} OrderMembers(rows: seq<Record>, str: Value -> string)
    ensures forall d :: d in Order(rows, str) <==> Seen(rows, d, str)
    decreases |rows|
  {
    if rows != [] {
      var n := |rows| - 1;
      OrderMembers(rows[..n], str);
      var before := Order(rows[..n], str);
      var last := DomainOf(rows[n], str);
      assert forall d :: d in Order(rows, str) <==> d in before || last == Some(d);
      forall d ensures d in Order(rows, str) <==> Seen(rows, d, str) {
        SeenStep(rows, d, str);
      }
    }
  }

  lemma {:induction false} OrderGroups(rows: seq<Record>, str: Value -> string)
    ensures forall d :: d in Order(rows, str) <==> Group(rows, d, str) != []
    decreases |rows|
  {
    if rows != [] {
      OrderGroups(rows[..|rows| - 1], str);
    }
  }

  /** Every row with a domain lands in its domain's group, and a group holds
      only rows of its domain. */
  lemma {:induction false} GroupSpec(rows: seq<Record>, d: string, str: Value -> string)
    ensures forall r :: r in Group(rows, d, str) ==> DomainOf(r, str) == Some(d)
    ensures forall i :: 0 <= i < |rows| && DomainOf(rows[i], str) == Some(d) ==> rows[i] in Group(rows, d, str)
    decreases |rows|
  {
    if rows != [] {
      var n := |rows| - 1;
      var front := rows[..n];
      GroupSpec(front, d, str);
      var before := Group(front, d, str);
      var g := Group(rows, d, str);
      assert g == before + (if DomainOf(rows[n], str) == Some(d) then [rows[n]] else []);
      forall i | 0 <= i < |rows| && DomainOf(rows[i], str) == Some(d)
        ensures rows[i] in g
      {
        if i < n {
          assert front[i] == rows[i];
          assert rows[i] in before;
        }
      }
    }
  }

  // ---------------------------------------------------------------------------
  // Merging a group

  /** `isinstance(v, (int, float))`: booleans are ints in Python. */
  predicate Numeric(v: Value)
  {
    v.VInt? || v.VFloat? || v.VBool?
  }

  predicate Averaged(k: string)
  {
    k == "position" || k == "ctr"
  }

  /** The message of the exception `float()` raises; its exact text is not
      modelled. */
  const FloatError: string := "could not convert to float"

  /** Python's `float(v)`; `parseFloat` is its parsing of a string. */
  function Float(v: Value, parseFloat: string -> Option<real>): Result<real>
  {
    match v
    case VInt(i) => Ok(i as real)
    case VFloat(r) => Ok(r)
    case VBool(b) => Ok(if b then 1.0 else 0.0)
    case VStr(s) => if parseFloat(s).Some? then Ok(parseFloat(s).value) else Err(FloatError)
    case _ => Err(FloatError)
  }

  /** `sum(float(r.get(k, 0) or 0) for r in rows)`. */
  function SumField(rows: seq<Record>, k: string, parseFloat: string -> Option<real>): Result<real>
  {
    if rows == [] then Ok(0.0)
    else
      match Float(OrElse(GetOr(rows[0], k, VInt(0)), VInt(0)), parseFloat)
      case Err(e) => Err(e)
      case Ok(x) =>
        match SumField(rows[1..], k, parseFloat)
        case Err(e) => Err(e)
        case Ok(rest) => Ok(x + rest)
  }

  /** The sum and the count of `float(r[k])` over the rows where `r.get(k)` is
      not None. */
  function MeanParts(rows: seq<Record>, k: string, parseFloat: string -> Option<real>): Result<(real, nat)>
  {
    if rows == [] then Ok((0.0, 0))
    else
      match MeanParts(rows[1..], k, parseFloat)
      case Err(e) => Err(e)
      case Ok(rest) =>
        if k !in rows[0] || rows[0][k].VNone? then Ok(rest)
        else
          match Float(rows[0][k], parseFloat)
          case Err(e) => Err(e)
          case Ok(x) => Ok((x + rest.0, rest.1 + 1))
  }

  /** The merged value of field `k`, whose value in the first row is `v`. */
  function FieldResult(k: string, v: Value, group: seq<Record>, parseFloat: string -> Option<real>): Result<Value>
  {
    if !Numeric(v) then Ok(v)
    else if Averaged(k) then
      match MeanParts(group, k, parseFloat)
      case Err(e) => Err(e)
      case Ok(parts) => Ok(if parts.1 == 0 then VInt(0) else VFloat(parts.0 / parts.1 as real))
    else
      match SumField(group, k, parseFloat)
      case Err(e) => Err(e)
      case Ok(s) => Ok(VFloat(s))
  }

  /** A copy of `first` with every candidate domain field present set to `d`. */
  function Relabelled(first: Record, d: string): (r: Record)
    ensures r.Keys == first.Keys
  {
    map k | k in first :: if k in CandidateKeys then VStr(d) else first[k]
  }

  /** The merged row of one group (a group is never empty; the empty case gives
      the empty row). */
  function AggRow(d: string, group: seq<Record>, parseFloat: string -> Option<real>): Result<Record>
  {
    if group == [] then Ok(map[])
    else
      var base := Relabelled(group[0], d);
      if FieldFails(base, group, parseFloat) then Err(FloatError) else Ok(Merged(base, group, parseFloat))
  }

  /** Some field's `float()` raises. */
  predicate FieldFails(base: Record, group: seq<Record>, parseFloat: string -> Option<real>)
  {
    exists k :: k in base && FieldResult(k, base[k], group, parseFloat).Err?
  }

  /** Each field of `base` replaced by its merged value. */
  function Merged(base: Record, group: seq<Record>, parseFloat: string -> Option<real>): Record
  {
    map k | k in base :: match FieldResult(k, base[k], group, parseFloat) case Ok(v) => v case Err(_) => base[k]
  }

  /** The merged row keeps the first row's fields: candidate domain fields
      read the base domain, numeric fields become the group's sum (mean for
      position and ctr), and the rest are copied. */
  lemma AggRowFields(d: string, group: seq<Record>, parseFloat: string -> Option<real>, k: string)
    requires group != [] && AggRow(d, group, parseFloat).Ok?
    ensures AggRow(d, group, parseFloat).value.Keys == group[0].Keys
    ensures k in group[0] && k in CandidateKeys ==> AggRow(d, group, parseFloat).value[k] == VStr(d)
    ensures k in group[0] && k !in CandidateKeys && !Numeric(group[0][k]) ==>
      AggRow(d, group, parseFloat).value[k] == group[0][k]
    ensures k in group[0] && k !in CandidateKeys && Numeric(group[0][k]) && !Averaged(k) ==>
      SumField(group, k, parseFloat).Ok? && AggRow(d, group, parseFloat).value[k] == VFloat(SumField(group, k, parseFloat).value)
    ensures k in group[0] && k !in CandidateKeys && Numeric(group[0][k]) && Averaged(k) ==>
      && MeanParts(group, k, parseFloat).Ok?
      && MeanParts(group, k, parseFloat).value.1 >= 1
      && AggRow(d, group, parseFloat).value[k]
         == VFloat(MeanParts(group, k, parseFloat).value.0 / MeanParts(group, k, parseFloat).value.1 as real)
  {
    var base := Relabelled(group[0], d);
    if k in group[0] {
      assert FieldResult(k, base[k], group, parseFloat).Ok?;
    }
  }

  /** Summing integers: the merged value is the total of the group's integer
      values, a missing field counting as 0. */
  lemma {:induction false} SumOfInts(group: seq<Record>, k: string, parseFloat: string -> Option<real>)
    requires forall i :: 0 <= i < |group| ==> k !in group[i] || group[i][k].VInt?
    ensures SumField(group, k, parseFloat) == Ok(IntTotal(group, k) as real)
  {
    if group != [] {
      SumOfInts(group[1..], k, parseFloat);
      assert forall i :: 1 <= i < |group| ==> group[1..][i - 1] == group[i];
    }
  }

  function IntTotal(group: seq<Record>, k: string): int
  {
    if group == [] then 0
    else (if k in group[0] && group[0][k].VInt? then group[0][k].i else 0) + IntTotal(group[1..], k)
  }

  /** The number of rows where `r.get(k)` is not None. */
  function PresentCount(group: seq<Record>, k: string): nat
  {
    if group == [] then 0
    else (if k in group[0] && !group[0][k].VNone? then 1 else 0) + PresentCount(group[1..], k)
  }

  /** Averaging integers: the mean is taken over the rows that have the field,
      a missing or None field being left out rather than counted as 0. */
  lemma {:induction false} MeanOfInts(group: seq<Record>, k: string, parseFloat: string -> Option<real>)
    requires forall i :: 0 <= i < |group| ==> k !in group[i] || group[i][k].VInt? || group[i][k].VNone?
    ensures MeanParts(group, k, parseFloat) == Ok((IntTotal(group, k) as real, PresentCount(group, k)))
  {
    if group != [] {
      MeanOfInts(group[1..], k, parseFloat);
      assert forall i :: 1 <= i < |group| ==> group[1..][i - 1] == group[i];
    }
  }

  // ---------------------------------------------------------------------------
  // The whole aggregation

  /** One `merge(d)` per domain of `ds`, in order, stopping at the first
      that raises. */
  function MergeEach(ds: seq<string>, merge: string -> Result<Record>): Result<seq<Record>>
    decreases |ds|
  {
    if ds == [] then Ok([])
    else
      match MergeEach(ds[..|ds| - 1], merge)
      case Err(e) => Err(e)
      case Ok(front) =>
        match merge(ds[|ds| - 1])
        case Err(e) => Err(e)
        case Ok(row) => Ok(front + [row])
  }

  /** A successful `MergeEach` has one merged row per domain. */
  lemma {:induction false} MergeEachSpec(ds: seq<string>, merge: string -> Result<Record>)
    requires MergeEach(ds, merge).Ok?
    ensures var out := MergeEach(ds, merge).value;
      && |out| == |ds|
      && forall i :: 0 <= i < |ds| ==> merge(ds[i]) == Ok(out[i])
    decreases |ds|
  {
    if ds != [] {
      var n := |ds| - 1;
      MergeEachSpec(ds[..n], merge);
      var prev := MergeEach(ds[..n], merge).value;
      var out := prev + [merge(ds[n]).value];
      forall i | 0 <= i < |ds| ensures merge(ds[i]) == Ok(out[i]) {
        if i < n {
          assert ds[..n][i] == ds[i] && out[i] == prev[i];
        }
      }
    }
  }

  /** Once a prefix has raised, the whole `MergeEach` raises the same. */
  lemma {:induction false} MergeEachFails(ds: seq<string>, j: nat, merge: string -> Result<Record>)
    requires j <= |ds| && MergeEach(ds[..j], merge).Err?
    ensures MergeEach(ds, merge) == MergeEach(ds[..j], merge)
    decreases |ds| - j
  {
    if j < |ds| {
      assert ds[..j + 1][..j] == ds[..j];
      MergeEachFails(ds, j + 1, merge);
    } else {
      assert ds[..j] == ds;
    }
  }

  /** One more step of `MergeEach`: the row of `ds[j]` after those of `ds[..j]`. */
  lemma MergeEachStep(ds: seq<string>, j: nat, merge: string -> Result<Record>)
    requires j < |ds| && MergeEach(ds[..j], merge).Ok?
    ensures MergeEach(ds[..j + 1], merge) ==
      if merge(ds[j]).Err? then Err(merge(ds[j]).message) else Ok(MergeEach(ds[..j], merge).value + [merge(ds[j]).value])
  {
    assert ds[..j + 1][..j] == ds[..j];
  }

  /** The merged rows of the domains `ds`, stopping at the first `float()`
      that raises. */
  function AggregateFrom(rows: seq<Record>, ds: seq<string>, str: Value -> string,
                         parseFloat: string -> Option<real>): Result<seq<Record>>
  {
    MergeEach(ds, d => AggRow(d, Group(rows, d, str), parseFloat))
  }

  /** `aggregate_gsc_domain_variants`. */
  function Aggregate(rows: seq<Record>, str: Value -> string, parseFloat: string -> Option<real>): Result<seq<Record>>
  {
    AggregateFrom(rows, Order(rows, str), str, parseFloat)
  }

  /** One merged row per domain, in the order of `ds`. */
  lemma AggregateFromSpec(rows: seq<Record>, ds: seq<string>, str: Value -> string,
                          parseFloat: string -> Option<real>)
    requires AggregateFrom(rows, ds, str, parseFloat).Ok?
    ensures var out := AggregateFrom(rows, ds, str, parseFloat).value;
      && |out| == |ds|
      && forall i :: 0 <= i < |ds| ==> AggRow(ds[i], Group(rows, ds[i], str), parseFloat) == Ok(out[i])
  {
    MergeEachSpec(ds, d => AggRow(d, Group(rows, d, str), parseFloat));
  }

  /** One more domain of the aggregation. */
  lemma AggregateFromStep(rows: seq<Record>, ds: seq<string>, j: nat, str: Value -> string,
                          parseFloat: string -> Option<real>)
    requires j < |ds| && AggregateFrom(rows, ds[..j], str, parseFloat).Ok?
    ensures var row := AggRow(ds[j], Group(rows, ds[j], str), parseFloat);
      AggregateFrom(rows, ds[..j + 1], str, parseFloat) ==
        if row.Err? then Err(row.message) else Ok(AggregateFrom(rows, ds[..j], str, parseFloat).value + [row.value])
  {
    MergeEachStep(ds, j, d => AggRow(d, Group(rows, d, str), parseFloat));
  }

  /** A merged row that raises makes the whole aggregation raise, with its
      error. */
  lemma AggregateFromFails(rows: seq<Record>, ds: seq<string>, j: nat, str: Value -> string,
                           parseFloat: string -> Option<real>)
    requires j <= |ds| && AggregateFrom(rows, ds[..j], str, parseFloat).Err?
    ensures AggregateFrom(rows, ds, str, parseFloat) == AggregateFrom(rows, ds[..j], str, parseFloat)
  {
    MergeEachFails(ds, j, d => AggRow(d, Group(rows, d, str), parseFloat));
  }

  /** The rows of a successful aggregation are one per distinct base domain,
      in order of first appearance, and every row that has a domain is merged
      into the row of its domain. */
  lemma AggregateOnePerDomain(rows: seq<Record>, str: Value -> string, parseFloat: string -> Option<real>)
    requires Aggregate(rows, str, parseFloat).Ok?
    ensures var ds := Order(rows, str);
      var out := Aggregate(rows, str, parseFloat).value;
      && |out| == |ds|
      && (forall i, j :: 0 <= i < j < |ds| ==> ds[i] != ds[j])
      && (forall i :: 0 <= i < |ds| ==> AggRow(ds[i], Group(rows, ds[i], str), parseFloat) == Ok(out[i]))
      && (forall i :: 0 <= i < |rows| && DomainOf(rows[i], str).Some? ==>
            DomainOf(rows[i], str).value in ds && rows[i] in Group(rows, DomainOf(rows[i], str).value, str))
  {
    OrderSpec(rows, str);
    AggregateFromSpec(rows, Order(rows, str), str, parseFloat);
    forall i | 0 <= i < |rows| && DomainOf(rows[i], str).Some?
      ensures rows[i] in Group(rows, DomainOf(rows[i], str).value, str)
    {
      GroupSpec(rows, DomainOf(rows[i], str).value, str);
    }
  }

  /** The first loop of `aggregate_gsc_domain_variants`: rows appended to
      the list of their domain in a dict, whose keys keep their order of
      insertion. */
  method GroupByDomain(results: seq<Record>, str: Value -> string)
    returns (groups: map<string, seq<Record>>, order: seq<string>)
    ensures order == Order(results, str)
    ensures forall d :: d in groups <==> d in order
    ensures forall d :: d in groups ==> groups[d] == Group(results, d, str)
  {
    groups := map[];
    order := [];
    for i := 0 to |results|
      invariant order == Order(results[..i], str)
      invariant forall d :: d in groups <==> d in order
      invariant forall d :: d in groups ==> groups[d] == Group(results[..i], d, str)
      invariant forall d :: d !in groups ==> Group(results[..i], d, str) == []
    {
      var next := results[..i + 1];
      assert next[..i] == results[..i] && next[i] == results[i];
      var domain := FindDomain(results[i], str);
      if domain.Some? {
        var d := domain.value;
        if d in groups {
          groups := groups[d := groups[d] + [results[i]]];
        } else {
          groups := groups[d := [results[i]]];
          order := order + [d];
        }
      }
      assert forall e :: Group(next, e, str) == Group(results[..i], e, str) + (if domain == Some(e) then [results[i]] else []);
    }
    assert results[..|results|] == results;
  }

  /** `aggregate_gsc_domain_variants`: the grouping loop, then one merged row
      per domain in the order the domains were first seen. */
  method AggregateGscDomainVariants(results: seq<Record>, str: Value -> string, parseFloat: string -> Option<real>)
    returns (r: Result<seq<Record>>)
    ensures r == Aggregate(results, str, parseFloat)
  {
    var groups, order := GroupByDomain(results, str);
    var aggregated: seq<Record> := [];
    for j := 0 to |order|
      invariant AggregateFrom(results, order[..j], str, parseFloat) == Ok(aggregated)
    {
      AggregateFromStep(results, order, j, str, parseFloat);
      var row := AggRow(order[j], groups[order[j]], parseFloat);
      if row.Err? {
        AggregateFromFails(results, order, j + 1, str, parseFloat);
        return Err(FloatError);
      }
      aggregated := aggregated + [row.value];
    }
    assert order[..|order|] == order;
    return Ok(aggregated);
  }
}
