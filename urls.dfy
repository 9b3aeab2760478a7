/** The part of Python's `urllib.parse.urlparse` the Search Console code relies
    on: the network location of a URL and its `hostname` attribute. */
module Urls {
  import opened Base
  import opened Strings

  /** First index of `c` in `s`. */
  function IndexOf(s: string, c: char): (r: Option<nat>)
    ensures r.None? <==> c !in s
    ensures r.Some? ==> r.value < |s| && s[r.value] == c && c !in s[..r.value]
  {
    if s == [] then None
    else if s[0] == c then Some(0)
    else
      var t := IndexOf(s[1..], c);
      assert s[1..] == s[1..];
      if t.None? then None
      else
        assert s[..t.value + 1] == [s[0]] + s[1..][..t.value];
        Some(t.value + 1)
  }

  /** The text after the last `c`, or all of `s` without one (`s.rpartition(c)[2]`). */
  function AfterLast(s: string, c: char): (r: string)
    ensures |r| <= |s| && r == s[|s| - |r|..]
    ensures c !in r
    ensures c !in s ==> r == s
  {
    if s == [] then []
    else if s[|s| - 1] == c then []
    else AfterLast(s[..|s| - 1], c) + [s[|s| - 1]]
  }

  /** The text before the first `c`, or all of `s` (`s.partition(c)[0]`). */
  function BeforeFirst(s: string, c: char): (r: string)
    ensures c !in r && r <= s
    ensures c !in s ==> r == s
  {
    match IndexOf(s, c)
    case None => s
    case Some(i) => s[..i]
  }

  /** The text after the first `c`, or "" without one (`s.partition(c)[2]`). */
  function AfterFirst(s: string, c: char): string
  {
    match IndexOf(s, c)
    case None => []
    case Some(i) => s[i + 1..]
  }

  /** The characters `urlsplit` strips from the front: C0 controls and space. */
  predicate ControlOrSpace(c: char)
  {
    c as int <= 0x20
  }

  function LStripControls(s: string): (r: string)
    ensures |r| <= |s| && r == s[|s| - |r|..]
    ensures r != [] ==> !ControlOrSpace(r[0])
  {
    if s != [] && ControlOrSpace(s[0]) then LStripControls(s[1..]) else s
  }

  /** Tab, carriage return and line feed are removed everywhere. */
  function RemoveUnsafe(s: string): (r: string)
    ensures forall j :: 0 <= j < |r| ==> r[j] != '\t' && r[j] != '\r' && r[j] != '\n'
  {
    if s == [] then []
    else if s[0] == '\t' || s[0] == '\r' || s[0] == '\n' then RemoveUnsafe(s[1..])
    else [s[0]] + RemoveUnsafe(s[1..])
  }

  predicate AsciiLetter(c: char)
  {
    'a' <= c <= 'z' || 'A' <= c <= 'Z'
  }

  predicate SchemeChar(c: char)
  {
    AsciiLetter(c) || '0' <= c <= '9' || c == '+' || c == '-' || c == '.'
  }

  /** The URL after its scheme and ':', when the text before the first ':' is a
      scheme (non-empty, starting with a letter, made of scheme characters);
      otherwise the URL itself. */
  function AfterScheme(u: string): (r: string)
    ensures |r| <= |u| && r == u[|u| - |r|..]
  {
    match IndexOf(u, ':')
    case None => u
    case Some(i) =>
      if i > 0 && AsciiLetter(u[0]) && forall j :: 0 <= j < i ==> SchemeChar(u[j]) then u[i + 1..] else u
  }

  /** Where the network location ends: the first '/', '?' or '#', or the end. */
  function NetlocEnd(s: string): (n: nat)
    ensures n <= |s|
    ensures forall j :: 0 <= j < n ==> s[j] != '/' && s[j] != '?' && s[j] != '#'
    ensures n < |s| ==> s[n] == '/' || s[n] == '?' || s[n] == '#'
  {
    if s == [] || s[0] == '/' || s[0] == '?' || s[0] == '#' then 0 else 1 + NetlocEnd(s[1..])
  }

  /** The checks `urlsplit` makes of a bracketed (IPv6) network location:
      brackets must come in pairs, nothing may precede '[' after the user
      information, and only a ':port' may follow ']'. */
  function CheckBrackets(netloc: string): (r: Result<string>)
    ensures r.Ok? ==> r.value == netloc
  {
    if ('[' in netloc) != (']' in netloc) then Err("Invalid IPv6 URL")
    else if '[' in netloc then
      var hostAndPort := AfterLast(netloc, '@');
      if BeforeFirst(hostAndPort, '[') != [] then Err("Invalid IPv6 URL")
      else
        var port := AfterFirst(AfterFirst(hostAndPort, '['), ']');
        if port != [] && port[0] != ':' then Err("Invalid IPv6 URL") else Ok(netloc)
    else Ok(netloc)
  }

  /** `urlsplit(url).netloc`: "" when the URL has no "//" after its scheme; an
      error for a malformed bracketed location. */
  function Netloc(url: string): (r: Result<string>)
  {
    NetlocAfterScheme(AfterScheme(RemoveUnsafe(LStripControls(url))))
  }

  function NetlocAfterScheme(rest: string): (r: Result<string>)
  {
    if |rest| >= 2 && rest[..2] == "//" then
      var s := rest[2..];
      CheckBrackets(s[..NetlocEnd(s)])
    else Ok([])
  }

  /** The host part of a network location: after the user information, inside
      the brackets when there are any, and before the port. */
  function HostOf(netloc: string): string
  {
    var hostinfo := AfterLast(netloc, '@');
    if '[' in hostinfo then BeforeFirst(AfterFirst(hostinfo, '['), ']')
    else BeforeFirst(hostinfo, ':')
  }

  /** `urlparse(url).hostname`: None for an empty host, otherwise the host
      lower-cased up to a '%' zone suffix, which is kept as written. */
  function Hostname(url: string): (r: Result<Option<string>>)
    ensures r.Ok? && r.value.Some? ==> r.value.value != []
  {
    match Netloc(url)
    case Err(e) => Err(e)
    case Ok(netloc) => Ok(HostnameOfNetloc(netloc))
  }

  function HostnameOfNetloc(netloc: string): (r: Option<string>)
    ensures r.Some? ==> r.value != []
  {
    var host := HostOf(netloc);
    if host == [] then None
    else
      var name := BeforeFirst(host, '%');
      Some(Lower(name) + host[|name|..])
  }

  /** A character that may appear in a plain host name without ending or
      splitting it. */
  predicate PlainHostChar(c: char)
  {
    !ControlOrSpace(c) && c != '/' && c != '?' && c != '#' && c != '@' && c != ':'
    && c != '[' && c != ']' && c != '%'
  }

  /** The hostname of `scheme://host` followed by a path, query or fragment is
      the lower-cased host. */
  lemma HostnameOfUrl(scheme: string, host: string, tail: string)
    requires scheme != [] && AsciiLetter(scheme[0])
    requires forall j :: 0 <= j < |scheme| ==> SchemeChar(scheme[j])
    requires host != [] && forall j :: 0 <= j < |host| ==> PlainHostChar(host[j])
    requires tail == [] || tail[0] == '/' || tail[0] == '?' || tail[0] == '#'
    requires forall j :: 0 <= j < |tail| ==> !ControlOrSpace(tail[j])
    ensures Hostname(scheme + "://" + host + tail) == Ok(Some(Lower(host)))
  {
    var rest := "//" + (host + tail);
    var url := scheme + ":" + rest;
    UrlShape(scheme, host, tail);
    RestHasNoControls(host, tail);
    NoControls(scheme, rest);
    SchemeRemoved(scheme, rest);
    RestNetloc(host, tail);
    assert AfterScheme(RemoveUnsafe(LStripControls(url))) == rest;
    assert Netloc(url) == Ok(host);
  }

  lemma UrlShape(scheme: string, host: string, tail: string)
    ensures scheme + "://" + host + tail == scheme + ":" + ("//" + (host + tail))
  {
    var a := scheme + "://" + host + tail;
    var b := scheme + ":" + ("//" + (host + tail));
    assert |a| == |b|;
    forall j | 0 <= j < |a| ensures a[j] == b[j] {
      if j < |scheme| {
      } else if j < |scheme| + 3 {
      } else if j < |scheme| + 3 + |host| {
        assert a[j] == host[j - |scheme| - 3] == b[j];
      } else {
        assert a[j] == tail[j - |scheme| - 3 - |host|] == b[j];
      }
    }
  }

  lemma RestHasNoControls(host: string, tail: string)
    requires forall j :: 0 <= j < |host| ==> PlainHostChar(host[j])
    requires forall j :: 0 <= j < |tail| ==> !ControlOrSpace(tail[j])
    ensures forall j :: 0 <= j < |"//" + (host + tail)| ==> !ControlOrSpace(("//" + (host + tail))[j])
  {
    var rest := "//" + (host + tail);
    forall j | 0 <= j < |rest| ensures !ControlOrSpace(rest[j]) {
      if j < 2 { } else if j < 2 + |host| { assert rest[j] == host[j - 2]; }
      else { assert rest[j] == tail[j - 2 - |host|]; }
    }
  }

  lemma RestNetloc(host: string, tail: string)
    requires host != [] && forall j :: 0 <= j < |host| ==> PlainHostChar(host[j])
    requires tail == [] || tail[0] == '/' || tail[0] == '?' || tail[0] == '#'
    ensures NetlocAfterScheme("//" + (host + tail)) == Ok(host)
    ensures HostnameOfNetloc(host) == Some(Lower(host))
  {
    NetlocOfHost(host, tail);
    NetlocAfterSlashes(host + tail, host);
    HostOfPlain(host);
  }

  lemma NetlocAfterSlashes(s: string, host: string)
    requires NetlocEnd(s) == |host| && s[..|host|] == host && CheckBrackets(host) == Ok(host)
    ensures NetlocAfterScheme("//" + s) == Ok(host)
  {
    assert ("//" + s)[..2] == "//" && ("//" + s)[2..] == s;
  }

  lemma HostOfPlain(host: string)
    requires host != [] && '[' !in host && ']' !in host && '@' !in host && ':' !in host && '%' !in host
    ensures HostnameOfNetloc(host) == Some(Lower(host))
  {
    assert AfterLast(host, '@') == host;
    assert HostOf(host) == host;
    assert BeforeFirst(host, '%') == host;
    assert Lower(host) + host[|host|..] == Lower(host);
  }

  lemma NoControls(scheme: string, rest: string)
    requires forall j :: 0 <= j < |scheme| ==> SchemeChar(scheme[j])
    requires forall j :: 0 <= j < |rest| ==> !ControlOrSpace(rest[j])
    ensures LStripControls(scheme + ":" + rest) == scheme + ":" + rest
    ensures RemoveUnsafe(scheme + ":" + rest) == scheme + ":" + rest
  {
    var url := scheme + ":" + rest;
    assert forall j :: 0 <= j < |scheme| ==> !ControlOrSpace(scheme[j]);
    assert forall j :: 0 <= j < |url| ==> !ControlOrSpace(url[j]) by {
      forall j | 0 <= j < |url| ensures !ControlOrSpace(url[j]) {
        if j < |scheme| { assert url[j] == scheme[j]; }
        else if j == |scheme| { assert url[j] == ':'; }
        else { assert url[j] == rest[j - |scheme| - 1]; }
      }
    }
    NoUnsafeKept(url);
  }

  lemma SchemeRemoved(scheme: string, rest: string)
    requires scheme != [] && AsciiLetter(scheme[0])
    requires forall j :: 0 <= j < |scheme| ==> SchemeChar(scheme[j])
    ensures AfterScheme(scheme + ":" + rest) == rest
  {
    var url := scheme + ":" + rest;
    assert url[..|scheme|] == scheme;
    assert forall j :: 0 <= j < |scheme| ==> url[j] == scheme[j];
    assert ':' !in scheme by {
      forall j | 0 <= j < |scheme| ensures scheme[j] != ':' { assert SchemeChar(scheme[j]); }
    }
    FirstIndex(url, ':', |scheme|);
    assert url[|scheme| + 1..] == rest;
  }

  lemma NetlocOfHost(host: string, tail: string)
    requires forall j :: 0 <= j < |host| ==> PlainHostChar(host[j])
    requires tail == [] || tail[0] == '/' || tail[0] == '?' || tail[0] == '#'
    ensures NetlocEnd(host + tail) == |host| && (host + tail)[..|host|] == host
    ensures CheckBrackets(host) == Ok(host)
    ensures '[' !in host && ']' !in host && '@' !in host && ':' !in host && '%' !in host
  {
    var s := host + tail;
    forall j | 0 <= j < |host| ensures s[j] != '/' && s[j] != '?' && s[j] != '#' {
      assert s[j] == host[j] && PlainHostChar(host[j]);
    }
    NetlocEndAt(s, |host|);
    assert s[..|host|] == host;
    assert '[' !in host && ']' !in host && '@' !in host && ':' !in host && '%' !in host by {
      forall j | 0 <= j < |host| ensures host[j] != '[' && host[j] != ']' && host[j] != '@'
                                     && host[j] != ':' && host[j] != '%' {
        assert PlainHostChar(host[j]);
      }
    }
  }

  lemma NoUnsafeKept(s: string)
    requires forall j :: 0 <= j < |s| ==> !ControlOrSpace(s[j])
    ensures LStripControls(s) == s
    ensures RemoveUnsafe(s) == s
  {
    if s != [] {
      NoUnsafeKept(s[1..]);
      assert s == [s[0]] + s[1..];
    }
  }

  lemma {:induction false} FirstIndex(s: string, c: char, i: nat)
    requires i < |s| && s[i] == c && c !in s[..i]
    ensures IndexOf(s, c) == Some(i)
  {
    if i > 0 {
      assert s[..i][0] == s[0];
      assert s[1..][..i - 1] == s[..i][1..];
      FirstIndex(s[1..], c, i - 1);
    }
  }

  lemma {:induction false} NetlocEndAt(s: string, n: nat)
    requires n <= |s|
    requires forall j :: 0 <= j < n ==> s[j] != '/' && s[j] != '?' && s[j] != '#'
    requires n == |s| || s[n] == '/' || s[n] == '?' || s[n] == '#'
    ensures NetlocEnd(s) == n
  {
    if n > 0 {
      NetlocEndAt(s[1..], n - 1);
    }
  }

  lemma RemoveUnsafeKeepsOut(s: string, c: char)
    requires c !in s
    ensures c !in RemoveUnsafe(s)
  {
    if s != [] {
      RemoveUnsafeKeepsOut(s[1..], c);
    }
  }

  /** Text with no '/' at all has no network location, so no hostname: a bare
      domain such as "example.com" parses without one. */
  lemma NoSlashNoHostname(url: string)
    requires '/' !in url
    ensures Hostname(url) == Ok(None)
  {
    var l := LStripControls(url);
    SuffixKeepsOut(url, l, '/');
    RemoveUnsafeKeepsOut(l, '/');
    var u := RemoveUnsafe(l);
    var rest := AfterScheme(u);
    SuffixKeepsOut(u, rest, '/');
    NoSlashNoNetloc(rest);
  }

  lemma NoSlashNoNetloc(rest: string)
    requires '/' !in rest
    ensures NetlocAfterScheme(rest) == Ok([]) && HostnameOfNetloc([]).None?
  {
    assert !(|rest| >= 2 && rest[..2] == "//") by {
      if |rest| >= 2 { assert rest[..2][0] == rest[0]; }
    }
    assert HostOf([]) == [];
  }

  lemma SuffixKeepsOut(s: string, r: string, c: char)
    requires c !in s && |r| <= |s| && r == s[|s| - |r|..]
    ensures c !in r
  {
    forall j | 0 <= j < |r| ensures r[j] != c { assert r[j] == s[|s| - |r| + j]; }
  }
}
