/** Key extraction for the MCP HTTP server (mcp_auth.py): where a request's
    API key is read from, which source wins, and how the `key` query
    parameter is removed from the request before it is passed on. */
module McpAuth {
  import opened Base
  import opened Strings

  /** Name/value pairs in the order the request carries them. */
  type Pairs = seq<(string, string)>

  /** `dict(pairs).get(name)`: the value of the last pair named `name`. */
  function Lookup(pairs: Pairs, name: string): Option<string>
    decreases |pairs|
  {
    if pairs == [] then None
    else if pairs[|pairs| - 1].0 == name then Some(pairs[|pairs| - 1].1)
    else Lookup(pairs[..|pairs| - 1], name)
  }

  /** A lookup finds a value exactly when some pair has the name, and the
      value it finds is that of the last such pair. */
  lemma {:induction false} LookupSpec(pairs: Pairs, name: string)
    ensures Lookup(pairs, name).Some? <==> exists i :: 0 <= i < |pairs| && pairs[i].0 == name
    ensures Lookup(pairs, name).Some? ==>
      exists i :: 0 <= i < |pairs| && pairs[i] == (name, Lookup(pairs, name).value)
        && forall j :: i < j < |pairs| ==> pairs[j].0 != name
    decreases |pairs|
  {
    if pairs != [] {
      var n := |pairs| - 1;
      var front := pairs[..n];
      LookupSpec(front, name);
      if pairs[n].0 != name {
        assert forall i :: 0 <= i < n ==> pairs[i] == front[i];
        if Lookup(front, name).Some? {
          var i :| 0 <= i < |front| && front[i] == (name, Lookup(front, name).value)
            && forall j :: i < j < |front| ==> front[j].0 != name;
          assert pairs[i] == front[i];
        }
      }
    }
  }

  /** `{k.lower(): v for k, v in request.headers.items()}`. */
  function LowerNames(headers: Pairs): (r: Pairs)
    ensures |r| == |headers|
    ensures forall i :: 0 <= i < |headers| ==> r[i] == (Lower(headers[i].0), headers[i].1)
  {
    seq(|headers|, i requires 0 <= i < |headers| => (Lower(headers[i].0), headers[i].1))
  }

  /** A header by its lower-case name, whatever case the request used. */
  function Header(headers: Pairs, name: string): Option<string>
  {
    Lookup(LowerNames(headers), name)
  }

  /** Header names are compared without regard to case: two header lists that
      differ only in the case of their names give the same lookups. */
  lemma HeaderCaseInsensitive(h1: Pairs, h2: Pairs, name: string)
    requires |h1| == |h2|
    requires forall i :: 0 <= i < |h1| ==> Lower(h1[i].0) == Lower(h2[i].0) && h1[i].1 == h2[i].1
    ensures Header(h1, name) == Header(h2, name)
  {
    assert LowerNames(h1) == LowerNames(h2);
  }

  predicate Filled(v: Option<string>)
  {
    v.Some? && v.value != []
  }

  /** `raw`: the first non-empty of the authorization, x-api-key and
      x-auth-token headers, or else whatever the last of them holds. */
  function RawHeader(headers: Pairs): (raw: Option<string>)
    ensures Filled(Header(headers, "authorization")) ==> raw == Header(headers, "authorization")
    ensures !Filled(Header(headers, "authorization")) && Filled(Header(headers, "x-api-key"))
            ==> raw == Header(headers, "x-api-key")
    ensures Filled(raw) <==>
      || Filled(Header(headers, "authorization"))
      || Filled(Header(headers, "x-api-key"))
      || Filled(Header(headers, "x-auth-token"))
  {
    var authorization := Header(headers, "authorization");
    var apiKey := Header(headers, "x-api-key");
    if Filled(authorization) then authorization
    else if Filled(apiKey) then apiKey
    else Header(headers, "x-auth-token")
  }

  const BearerPrefix: string := "bearer "

  /** `key_from_header`: a raw value not starting with 'bearer ' (any case) is
      first prefixed with 'Bearer ', and then the first seven characters are
      dropped. */
  function KeyFromHeader(raw: Option<string>): Option<string>
  {
    if !Filled(raw) then None
    else
      var rawStr := if StartsWith(Lower(raw.value), BearerPrefix) then raw.value else "Bearer " + raw.value;
      if StartsWith(Lower(rawStr), BearerPrefix) then Some(rawStr[7..]) else None
  }

  /** The header key is the raw value with a leading 'Bearer ' (any case)
      removed, or the raw value itself; there is one whenever the raw value
      is non-empty. */
  lemma HeaderKeySpec(raw: string)
    requires raw != []
    ensures StartsWith(Lower(raw), BearerPrefix) ==> KeyFromHeader(Some(raw)) == Some(raw[7..])
    ensures !StartsWith(Lower(raw), BearerPrefix) ==> KeyFromHeader(Some(raw)) == Some(raw)
  {
    if !StartsWith(Lower(raw), BearerPrefix) {
      var prefixed := "Bearer " + raw;
      LowerAppend("Bearer ", raw);
      assert Lower("Bearer ") == BearerPrefix;
      assert Lower(prefixed)[..7] == BearerPrefix;
      assert prefixed[7..] == raw;
    }
  }

  /** 'Bearer ' alone gives an empty key. */
  lemma BearerAloneIsEmpty()
    ensures KeyFromHeader(Some("Bearer ")) == Some([])
  {
    HeaderKeySpec("Bearer ");
    assert Lower("Bearer ") == BearerPrefix;
  }

  /** What `extract_keys_from_request` reads: headers and query parameters. */
  datatype Request = Request(headers: Pairs, queryParams: Pairs)

  datatype Keys = Keys(fromHeader: Option<string>, fromQuery: Option<string>, raw: Option<string>)

  /** `extract_keys_from_request`. */
  function ExtractKeys(request: Request): (k: Keys)
    ensures k.raw == RawHeader(request.headers)
    ensures k.fromHeader.Some? <==> Filled(k.raw)
    ensures k.fromQuery == Lookup(request.queryParams, "key")
  {
    var raw := RawHeader(request.headers);
    var keys := Keys(KeyFromHeader(raw), Lookup(request.queryParams, "key"), raw);
    if Filled(raw) then HeaderKeySpec(raw.value); keys else keys
  }

  /** `determine_token`: the header key if non-empty, else the query key if
      non-empty, else nothing; with the way it was found. */
  function DetermineToken(fromHeader: Option<string>, fromQuery: Option<string>): (Option<string>, Option<string>)
  {
    if Filled(fromHeader) then (fromHeader, Some("header"))
    else if Filled(fromQuery) then (fromQuery, Some("url_param"))
    else (None, None)
  }

  /** The token of a request: a non-empty header key always wins over the
      query key; the query key is used exactly when the header gives no
      non-empty key; a token is never empty. */
  lemma TokenPrecedence(request: Request)
    ensures var k := ExtractKeys(request);
      var t := DetermineToken(k.fromHeader, k.fromQuery);
      && (t.1 == Some("header") <==> Filled(k.fromHeader))
      && (t.1 == Some("url_param") <==> !Filled(k.fromHeader) && Filled(k.fromQuery))
      && (t.1.Some? <==> Filled(t.0))
      && (t.1 == Some("header") ==> t.0 == k.fromHeader)
      && (t.1 == Some("url_param") ==> t.0 == Lookup(request.queryParams, "key"))
  {
  }

  /** A raw header holding only 'Bearer ' gives an empty header key, so the
      query key is used when there is one. */
  lemma EmptyBearerFallsBackToQuery(request: Request)
    requires RawHeader(request.headers) == Some("Bearer ")
    requires Filled(Lookup(request.queryParams, "key"))
    ensures var k := ExtractKeys(request);
      DetermineToken(k.fromHeader, k.fromQuery) == (Lookup(request.queryParams, "key"), Some("url_param"))
  {
    BearerAloneIsEmpty();
  }

  // ---------------------------------------------------------------------------
  // Removing the key from the query string

  predicate Kept(part: string)
  {
    !StartsWith(part, "key=") && part != []
  }

  /** The parts that are non-empty and do not start with 'key=', in order. */
  function KeptParts(parts: seq<string>): (r: seq<string>)
    ensures forall p :: p in r <==> p in parts && Kept(p)
    ensures |r| <= |parts|
  {
    if parts == [] then []
    else (if Kept(parts[0]) then [parts[0]] else []) + KeptParts(parts[1..])
  }

  /** Keeping is a no-op on parts that are all kept already. */
  lemma {:induction false} KeptPartsKeepsKept(parts: seq<string>)
    requires forall i :: 0 <= i < |parts| ==> Kept(parts[i])
    ensures KeptParts(parts) == parts
  {
    if parts != [] {
      KeptPartsKeepsKept(parts[1..]);
      assert parts == [parts[0]] + parts[1..];
    }
  }

  /** The query string without its 'key=' and empty parameters. */
  function StripKey(qs: string): string
  {
    Join(KeptParts(Split(qs, '&')), '&')
  }

  /** No parameter of the stripped query string is empty or starts with
      'key=', and every other parameter of the original is still there. */
  lemma StripKeySpec(qs: string)
    ensures var parts := Split(StripKey(qs), '&');
      StripKey(qs) != [] ==>
        && (forall p :: p in parts <==> p in Split(qs, '&') && Kept(p))
  {
    var kept := KeptParts(Split(qs, '&'));
    if kept != [] {
      assert forall i :: 0 <= i < |kept| ==> kept[i] in kept;
      SplitJoin(kept, '&');
    }
  }

  /** Stripping twice gives the same query string as stripping once. */
  lemma StripKeyIdempotent(qs: string)
    ensures StripKey(StripKey(qs)) == StripKey(qs)
  {
    var kept := KeptParts(Split(qs, '&'));
    assert forall i :: 0 <= i < |kept| ==> kept[i] in kept;
    if kept == [] {
      assert Split([], '&') == [[]];
    } else {
      SplitJoin(kept, '&');
      KeptPartsKeepsKept(kept);
    }
  }

  /** `scope['query_string']`: raw bytes or already a string. */
  datatype QueryString = Bytes(bytes: seq<bv8>) | Text(text: string)

  /** The new `query_string` value: bytes that do not decode count as empty;
      an empty query string becomes b''. `decode` and `encode` are UTF-8. */
  function Stripped(qs: QueryString, decode: seq<bv8> -> Option<string>, encode: string -> seq<bv8>): (r: QueryString)
    ensures r.Bytes?
  {
    var text := match qs
      case Text(t) => t
      case Bytes(b) => (match decode(b) case Some(t) => t case None => []);
    if text == [] then Bytes([]) else Bytes(encode(StripKey(text)))
  }

  /** With a UTF-8 round trip, stripping a stripped query string changes
      nothing. */
  lemma StrippedIdempotent(qs: QueryString, decode: seq<bv8> -> Option<string>, encode: string -> seq<bv8>)
    requires forall s :: decode(encode(s)) == Some(s)
    requires encode([]) == []
    ensures Stripped(Stripped(qs, decode, encode), decode, encode) == Stripped(qs, decode, encode)
  {
    var once := Stripped(qs, decode, encode);
    if once.bytes != [] {
      var text := match qs
        case Text(t) => t
        case Bytes(b) => (match decode(b) case Some(t) => t case None => []);
      assert once == Bytes(encode(StripKey(text)));
      assert decode(once.bytes) == Some(StripKey(text));
      StripKeyIdempotent(text);
    } else {
      assert decode(encode([])) == Some([]);
    }
  }

  /** The ASGI scope of a request; `queryString` is None when the scope has
      no 'query_string' entry. */
  class Scope {
    var queryString: Option<QueryString>

    constructor(queryString: Option<QueryString>)
      ensures this.queryString == queryString
    {
      this.queryString := queryString;
    }
  }

  /** `strip_key_param_from_scope`: rewrites the scope's query string in
      place; a request without a scope (null) or without a query string is
      left alone. */
  method StripKeyParamFromScope(scope: Scope?, decode: seq<bv8> -> Option<string>, encode: string -> seq<bv8>)
    modifies scope
    ensures scope != null && old(scope.queryString).Some? ==>
      scope.queryString == Some(Stripped(old(scope.queryString).value, decode, encode))
    ensures scope != null && old(scope.queryString).None? ==> scope.queryString == None
  {
    if scope == null || scope.queryString.None? {
      return;
    }
    var qs := scope.queryString.value;
    var text: string;
    match qs {
      case Text(t) => text := t;
      case Bytes(b) =>
        var decoded := decode(b);
        if decoded.Some? { text := decoded.value; } else { text := []; }
    }
    if text == [] {
      scope.queryString := Some(Bytes([]));
      return;
    }
    var parts := KeptParts(Split(text, '&'));
    scope.queryString := Some(Bytes(encode(Join(parts, '&'))));
  }
}
