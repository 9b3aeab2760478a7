/** Search Console site discovery: the accounts to ask, the classification of
    each listed site, the per-account listing loop with its domain-list cache
    (NewDownloads.py) and its uncached twin (NewDownloads_clean.py), and the
    domain filter both fetchers apply to the listed sites.

    The sites API is a parameter `fetch`: for an account it answers Err when
    building the service or listing raises, Ok(None) when the reply has no
    `siteEntry`, and otherwise the entries. */
module GscSites {
  import opened Base
  import opened Strings
  import Urls
  import DomainCaching

  /** One `siteEntry`; a key the reply lacks is None. */
  datatype SiteEntry = SiteEntry(siteUrl: Option<string>, permissionLevel: Option<string>)

  /** A row of the site table of NewDownloads.py. */
  datatype SiteInfo = SiteInfo(
    siteUrl: string, domain: string, permissionLevel: string, propertyType: string, account: string)

  /** A row of the site table of NewDownloads_clean.py. */
  datatype Site = Site(siteUrl: string, domain: string, account: string)

  /** What an account's entries produced: the sites appended before the loop
      ended, and whether it ended without raising. */
  datatype Listing<T> = Listing(sites: seq<T>, complete: bool)

  const DomainPropertyPrefix: string := "sc-domain:"
  const Unverified: string := "siteUnverifiedUser"
  const DomainProperty: string := "Domain Property"
  const UrlPrefixProperty: string := "URL-prefix Property"

  /** The label recorded for an account: the default account is 'default'. */
  function AccountLabel(account: string): (name: string)
    ensures name != []
    ensures account != [] ==> name == account
  {
    if account == [] then "default" else account
  }

  /** The text after `sc-domain:` of a Domain property. */
  function DomainOfProperty(siteUrl: string): string
    requires StartsWith(siteUrl, DomainPropertyPrefix)
  {
    siteUrl[|DomainPropertyPrefix|..]
  }

  // ---------------------------------------------------------------------------
  // Accounts

  /** `str.splitlines()` break characters. */
  predicate LineBreak(c: char)
  {
    var n := c as int;
    (0x0A <= n <= 0x0D) || (0x1C <= n <= 0x1E) || n == 0x85 || n == 0x2028 || n == 0x2029
  }

  /** The text split at every line-break character. A "\r\n" pair gives an
      extra empty line that `splitlines` would not, but every empty line is
      dropped below, so the account list is the same. */
  function Lines(text: string): (lines: seq<string>)
    ensures |lines| >= 1
  {
    if text == [] then [[]]
    else
      var rest := Lines(text[1..]);
      if LineBreak(text[0]) then [[]] + rest else [[text[0]] + rest[0]] + rest[1..]
  }

  /** The stripped non-blank lines, in order. */
  function NonBlankLines(lines: seq<string>): seq<string>
  {
    if lines == [] then []
    else
      var s := Strip(lines[0]);
      if s == [] then NonBlankLines(lines[1..]) else [s] + NonBlankLines(lines[1..])
  }

  /** The kept lines are stripped and non-blank. */
  lemma {:induction false} NonBlankLinesTrimmed(lines: seq<string>)
    ensures forall i :: 0 <= i < |NonBlankLines(lines)| ==> Trimmed(NonBlankLines(lines)[i])
  {
    if lines != [] {
      var s := Strip(lines[0]);
      var rest := NonBlankLines(lines[1..]);
      NonBlankLinesTrimmed(lines[1..]);
      if s != [] {
        var r := [s] + rest;
        forall i | 0 <= i < |r| ensures Trimmed(r[i]) {
          if i > 0 {
            assert r[i] == rest[i - 1];
          }
        }
      }
    }
  }

  /** The accounts to list: the default account when no account is given or it
      is blank; the non-blank lines of the file it names when that file can be
      read (`fileText`); otherwise the given text itself. */
  function AccountList(googleAccount: Option<string>, fileText: Option<string>): (accounts: seq<string>)
    ensures googleAccount.None? || Strip(googleAccount.value) == [] ==> accounts == [[]]
    ensures googleAccount.Some? && Strip(googleAccount.value) != [] && fileText.None?
            ==> accounts == [googleAccount.value]
    ensures googleAccount.Some? && Strip(googleAccount.value) != [] && fileText.Some?
            ==> forall i :: 0 <= i < |accounts| ==>
                  Trimmed(accounts[i])
  {
    if googleAccount.None? || Strip(googleAccount.value) == [] then [[]]
    else if fileText.None? then [googleAccount.value]
    else NonBlankLinesTrimmed(Lines(fileText.value)); NonBlankLines(Lines(fileText.value))
  }

  // ---------------------------------------------------------------------------
  // Classification of one entry

  /** The domain recorded for a site of NewDownloads.py: the text after
      `sc-domain:`, or the URL's hostname; 'Unknown' when that is empty.
      Parsing a malformed URL raises. */
  function RootDomain(siteUrl: string): (r: Result<string>)
    ensures r.Ok? ==> r.value != []
    ensures StartsWith(siteUrl, DomainPropertyPrefix) ==>
      r == Ok(if DomainOfProperty(siteUrl) != [] then DomainOfProperty(siteUrl) else "Unknown")
  {
    if StartsWith(siteUrl, DomainPropertyPrefix) then
      var d := DomainOfProperty(siteUrl);
      Ok(if d != [] then d else "Unknown")
    else
      match Urls.Hostname(siteUrl)
      case Err(e) => Err(e)
      case Ok(h) => Ok(if h.Some? then h.value else "Unknown")
  }

  /** One entry in NewDownloads.py: a missing permission or URL raises; an
      unverified site is skipped; any other becomes a row. */
  function ClassifyEntry(e: SiteEntry, account: string): (r: Result<Option<SiteInfo>>)
    ensures r.Ok? && r.value.Some? ==>
      var s := r.value.value;
      && e.siteUrl == Some(s.siteUrl)
      && e.permissionLevel == Some(s.permissionLevel)
      && s.permissionLevel != Unverified
      && s.account == AccountLabel(account)
      && (s.propertyType == DomainProperty <==> StartsWith(s.siteUrl, DomainPropertyPrefix))
      && (s.propertyType == DomainProperty || s.propertyType == UrlPrefixProperty)
    ensures e.permissionLevel == Some(Unverified) ==> r == Ok(None)
    ensures e.permissionLevel.None? ==> r.Err?
  {
    match e.permissionLevel
    case None => Err("KeyError: 'permissionLevel'")
    case Some(p) =>
      if p == Unverified then Ok(None)
      else
        match e.siteUrl
        case None => Err("KeyError: 'siteUrl'")
        case Some(u) =>
          match RootDomain(u)
          case Err(msg) => Err(msg)
          case Ok(d) =>
            var kind := if StartsWith(u, DomainPropertyPrefix) then DomainProperty else UrlPrefixProperty;
            Ok(Some(SiteInfo(u, d, p, kind, AccountLabel(account))))
  }

  /** One entry in NewDownloads_clean.py: only an explicit unverified
      permission skips it; the domain of a Domain property is the text after
      `sc-domain:` even when empty. */
  function ClassifyEntryClean(e: SiteEntry, account: string): (r: Result<Option<Site>>)
    ensures r.Ok? && r.value.Some? ==>
      && e.siteUrl == Some(r.value.value.siteUrl)
      && e.permissionLevel != Some(Unverified)
      && r.value.value.account == AccountLabel(account)
    ensures e.permissionLevel == Some(Unverified) ==> r == Ok(None)
    ensures e.permissionLevel != Some(Unverified) && e.siteUrl.None? ==> r.Err?
  {
    if e.permissionLevel == Some(Unverified) then Ok(None)
    else
      match e.siteUrl
      case None => Err("KeyError: 'siteUrl'")
      case Some(u) =>
        if StartsWith(u, DomainPropertyPrefix) then
          Ok(Some(Site(u, DomainOfProperty(u), AccountLabel(account))))
        else
          match Urls.Hostname(u)
          case Err(msg) => Err(msg)
          case Ok(h) => Ok(Some(Site(u, if h.Some? then h.value else "Unknown", AccountLabel(account))))
  }

  /** The entries of one account, classified in order until one raises. */
  function EntrySites<T>(entries: seq<SiteEntry>, account: string,
                         classify: (SiteEntry, string) -> Result<Option<T>>): (l: Listing<T>)
    ensures |l.sites| <= |entries|
  {
    if entries == [] then Listing([], true)
    else
      var rest := EntrySites(entries[1..], account, classify);
      assert forall i :: 1 <= i < |entries| ==> entries[i] == entries[1..][i - 1];
      match classify(entries[0], account)
      case Err(_) => Listing([], false)
      case Ok(None) => rest
      case Ok(Some(s)) => Listing([s] + rest.sites, rest.complete)
  }

  /** An account's listing completes iff no entry raises. */
  lemma {:induction false} EntrySitesComplete<T>(entries: seq<SiteEntry>, account: string,
                                                  classify: (SiteEntry, string) -> Result<Option<T>>)
    ensures EntrySites(entries, account, classify).complete
        <==> forall i :: 0 <= i < |entries| ==> classify(entries[i], account).Ok?
  {
    if entries != [] {
      EntrySitesComplete(entries[1..], account, classify);
      assert forall i :: 1 <= i < |entries| ==> entries[i] == entries[1..][i - 1];
    }
  }

  /** Every site listed comes from one of the account's entries. */
  lemma {:induction false} EntrySiteOrigin<T>(entries: seq<SiteEntry>, account: string,
                                               classify: (SiteEntry, string) -> Result<Option<T>>, s: T)
    requires s in EntrySites(entries, account, classify).sites
    ensures exists i :: 0 <= i < |entries| && classify(entries[i], account) == Ok(Some(s))
  {
    var first := classify(entries[0], account);
    if first != Ok(Some(s)) {
      EntrySiteOrigin(entries[1..], account, classify, s);
      var i :| 0 <= i < |entries[1..]| && classify(entries[1..][i], account) == Ok(Some(s));
      assert entries[1..][i] == entries[i + 1];
    }
  }

  /** The loop over one account's entries, appending each classified site. */
  method CollectEntries<T>(entries: seq<SiteEntry>, account: string,
                           classify: (SiteEntry, string) -> Result<Option<T>>)
    returns (sites: seq<T>, complete: bool)
    ensures Listing(sites, complete) == EntrySites(entries, account, classify)
  {
    sites := [];
    var i := 0;
    while i < |entries|
      invariant 0 <= i <= |entries|
      invariant EntrySites(entries, account, classify)
             == (var r := EntrySites(entries[i..], account, classify); Listing(sites + r.sites, r.complete))
    {
      assert entries[i..][1..] == entries[i + 1..];
      match classify(entries[i], account) {
        case Err(_) =>
          return sites, false;
        case Ok(None) =>
        case Ok(Some(s)) =>
          sites := sites + [s];
      }
      i := i + 1;
    }
    assert entries[i..] == [];
    complete := true;
  }

  // ---------------------------------------------------------------------------
  // Listing with the domain-list cache (NewDownloads.py)

  /** One account of `list_search_console_sites`: the sites it appends and the
      cache afterwards. A non-empty fresh cache entry is used without asking
      the API; otherwise the account's sites are listed and cached when caching
      is on, nothing raised and at least one site was found. */
  function AccountStep(account: string, useCache: bool, ttl: int, now: real,
                       fetch: string -> Result<Option<seq<SiteEntry>>>,
                       m: map<string, DomainCaching.CachedDomainList<SiteInfo>>)
    : (seq<SiteInfo>, map<string, DomainCaching.CachedDomainList<SiteInfo>>)
  {
    var cached := DomainCaching.Lookup(m, ttl, account, now);
    if useCache && cached.Some? && cached.value != [] then (cached.value, m)
    else
      match fetch(account)
      case Err(_) => ([], m)
      case Ok(None) => ([], m)
      case Ok(Some(entries)) =>
        var l := EntrySites(entries, account, ClassifyEntry);
        if l.complete && useCache && l.sites != [] then
          (l.sites, m[account := DomainCaching.CachedDomainList(l.sites, now, account)])
        else (l.sites, m)
  }

  /** A non-empty fresh entry answers without the API; otherwise the cache
      changes only by storing this account's own non-empty listing, and a
      failed or empty reply leaves it as it was. */
  lemma AccountStepCache(account: string, useCache: bool, ttl: int, now: real,
                         fetch: string -> Result<Option<seq<SiteEntry>>>,
                         m: map<string, DomainCaching.CachedDomainList<SiteInfo>>)
    ensures var r := AccountStep(account, useCache, ttl, now, fetch, m);
      && (useCache && DomainCaching.Lookup(m, ttl, account, now).Some?
          && DomainCaching.Lookup(m, ttl, account, now).value != []
          ==> r == (DomainCaching.Lookup(m, ttl, account, now).value, m))
      && (r.1 == m || (useCache && r.0 != [] && r.1 == m[account := DomainCaching.CachedDomainList(r.0, now, account)]))
      && (fetch(account).Err? || fetch(account) == Ok(None) ==> r.1 == m)
  {
  }

  /** All accounts in order: every site appended, and the final cache. */
  function ListAccounts(accounts: seq<string>, useCache: bool, ttl: int, now: real,
                        fetch: string -> Result<Option<seq<SiteEntry>>>,
                        m: map<string, DomainCaching.CachedDomainList<SiteInfo>>)
    : (seq<SiteInfo>, map<string, DomainCaching.CachedDomainList<SiteInfo>>)
    decreases |accounts|
  {
    if accounts == [] then ([], m)
    else
      var front := ListAccounts(accounts[..|accounts| - 1], useCache, ttl, now, fetch, m);
      var step := AccountStep(accounts[|accounts| - 1], useCache, ttl, now, fetch, front.1);
      (front.0 + step.0, step.1)
  }

  lemma ListLast(accounts: seq<string>, i: nat, useCache: bool, ttl: int, now: real,
                 fetch: string -> Result<Option<seq<SiteEntry>>>,
                 m: map<string, DomainCaching.CachedDomainList<SiteInfo>>)
    requires i < |accounts|
    ensures var front := ListAccounts(accounts[..i], useCache, ttl, now, fetch, m);
            var step := AccountStep(accounts[i], useCache, ttl, now, fetch, front.1);
            ListAccounts(accounts[..i + 1], useCache, ttl, now, fetch, m) == (front.0 + step.0, step.1)
  {
    assert accounts[..i + 1][..i] == accounts[..i];
  }

  /** A row as NewDownloads.py builds it for `account`. */
  predicate WellFormedSite(s: SiteInfo, account: string)
  {
    && s.permissionLevel != Unverified
    && s.account == AccountLabel(account)
    && s.domain != []
    && (s.propertyType == DomainProperty <==> StartsWith(s.siteUrl, DomainPropertyPrefix))
  }

  /** Every cached list holds rows built for its own account. */
  predicate WellFormedCache(m: map<string, DomainCaching.CachedDomainList<SiteInfo>>)
  {
    forall a :: a in m ==> forall s :: s in m[a].domains ==> WellFormedSite(s, a)
  }

  lemma ClassifiedWellFormed(entries: seq<SiteEntry>, account: string)
    ensures forall s :: s in EntrySites(entries, account, ClassifyEntry).sites ==> WellFormedSite(s, account)
  {
    forall s | s in EntrySites(entries, account, ClassifyEntry).sites ensures WellFormedSite(s, account) {
      EntrySiteOrigin(entries, account, ClassifyEntry, s);
      var i :| 0 <= i < |entries| && ClassifyEntry(entries[i], account) == Ok(Some(s));
      var u := entries[i].siteUrl.value;
      assert RootDomain(u).Ok?;
    }
  }

  /** Whether served from the cache or listed afresh, every site of the listing
      is verified, carries its account's label and is typed by its URL; and the
      cache stays that way. */
  lemma {:induction false} ListedSitesWellFormed(accounts: seq<string>, useCache: bool, ttl: int, now: real,
                                                 fetch: string -> Result<Option<seq<SiteEntry>>>,
                                                 m: map<string, DomainCaching.CachedDomainList<SiteInfo>>)
    requires WellFormedCache(m)
    ensures WellFormedCache(ListAccounts(accounts, useCache, ttl, now, fetch, m).1)
    ensures forall s :: s in ListAccounts(accounts, useCache, ttl, now, fetch, m).0 ==>
      exists i :: 0 <= i < |accounts| && WellFormedSite(s, accounts[i])
    decreases |accounts|
  {
    if accounts != [] {
      var n := |accounts| - 1;
      var a := accounts[n];
      ListedSitesWellFormed(accounts[..n], useCache, ttl, now, fetch, m);
      var front := ListAccounts(accounts[..n], useCache, ttl, now, fetch, m);
      var step := AccountStep(a, useCache, ttl, now, fetch, front.1);
      assert forall s :: s in step.0 ==> WellFormedSite(s, a) by {
        if fetch(a).Ok? && fetch(a).value.Some? {
          ClassifiedWellFormed(fetch(a).value.value, a);
        }
      }
      AccountStepCache(a, useCache, ttl, now, fetch, front.1);
      assert WellFormedCache(step.1);
      forall s | s in front.0 + step.0 ensures exists i :: 0 <= i < |accounts| && WellFormedSite(s, accounts[i]) {
        if s in step.0 {
          assert WellFormedSite(s, accounts[n]);
        } else {
          var j :| 0 <= j < |accounts[..n]| && WellFormedSite(s, accounts[..n][j]);
          assert WellFormedSite(s, accounts[j]);
        }
      }
    }
  }

  /** An account listed afresh and cached is, for the rest of the time-to-live,
      answered from the cache with the same sites, whatever the API would now
      say. */
  lemma SecondListingServedFromCache(account: string, ttl: int, now: real, later: real,
                                     fetch: string -> Result<Option<seq<SiteEntry>>>,
                                     fetchLater: string -> Result<Option<seq<SiteEntry>>>,
                                     m: map<string, DomainCaching.CachedDomainList<SiteInfo>>)
    requires now <= later < now + ttl as real
    requires AccountStep(account, true, ttl, now, fetch, m).1 != m
    ensures AccountStep(account, true, ttl, later, fetchLater, AccountStep(account, true, ttl, now, fetch, m).1)
         == (AccountStep(account, true, ttl, now, fetch, m).0, AccountStep(account, true, ttl, now, fetch, m).1)
  {
  }

  /** `list_search_console_sites` of NewDownloads.py over the cache `cache`:
      None when no account yields a site. */
  method ListSites(cache: DomainCaching.DomainCache<SiteInfo>, accounts: seq<string>, useCache: bool, now: real,
                   fetch: string -> Result<Option<seq<SiteEntry>>>)
    returns (sites: Option<seq<SiteInfo>>)
    requires cache.Valid()
    modifies cache
    ensures cache.Valid()
    ensures var spec := ListAccounts(accounts, useCache, cache.ttlSeconds, now, fetch, old(cache.cache));
            && cache.cache == spec.1
            && sites == (if spec.0 == [] then None else Some(spec.0))
  {
    var all: seq<SiteInfo> := [];
    var i := 0;
    ghost var ttl := cache.ttlSeconds;
    while i < |accounts|
      invariant 0 <= i <= |accounts| && cache.Valid() && ttl == cache.ttlSeconds
      invariant ListAccounts(accounts[..i], useCache, ttl, now, fetch, old(cache.cache)) == (all, cache.cache)
    {
      ListLast(accounts, i, useCache, ttl, now, fetch, old(cache.cache));
      var found := ListAccount(cache, accounts[i], useCache, now, fetch);
      all := all + found;
      i := i + 1;
    }
    assert accounts[..i] == accounts;
    sites := if all == [] then None else Some(all);
  }

  /** The body of the account loop: the sites one account appends. */
  method ListAccount(cache: DomainCaching.DomainCache<SiteInfo>, account: string, useCache: bool, now: real,
                     fetch: string -> Result<Option<seq<SiteEntry>>>)
    returns (found: seq<SiteInfo>)
    requires cache.Valid()
    modifies cache
    ensures cache.Valid()
    ensures (found, cache.cache) == AccountStep(account, useCache, cache.ttlSeconds, now, fetch, old(cache.cache))
  {
    var cached := if useCache then cache.Get(account, now) else None;
    if cached.Some? && cached.value != [] {
      found := cached.value;
    } else {
      found := [];
      match fetch(account) {
        case Err(_) =>
        case Ok(None) =>
        case Ok(Some(entries)) =>
          var complete;
          found, complete := CollectEntries(entries, account, ClassifyEntry);
          if complete && useCache && found != [] {
            cache.Set(account, found, now);
          }
      }
    }
  }

  // ---------------------------------------------------------------------------
  // Listing without a cache (NewDownloads_clean.py)

  /** The sites one account contributes in NewDownloads_clean.py. */
  function AccountSitesClean(account: string, fetch: string -> Result<Option<seq<SiteEntry>>>): seq<Site>
  {
    match fetch(account)
    case Err(_) => []
    case Ok(None) => []
    case Ok(Some(entries)) => EntrySites(entries, account, ClassifyEntryClean).sites
  }

  function ListAccountsClean(accounts: seq<string>, fetch: string -> Result<Option<seq<SiteEntry>>>): seq<Site>
  {
    if accounts == [] then []
    else AccountSitesClean(accounts[0], fetch) + ListAccountsClean(accounts[1..], fetch)
  }

  lemma CleanStep(accounts: seq<string>, i: nat, fetch: string -> Result<Option<seq<SiteEntry>>>)
    requires i < |accounts|
    ensures ListAccountsClean(accounts[i..], fetch)
         == AccountSitesClean(accounts[i], fetch) + ListAccountsClean(accounts[i + 1..], fetch)
  {
    assert accounts[i..][0] == accounts[i] && accounts[i..][1..] == accounts[i + 1..];
  }

  /** Every site the clean listing returns is verified and labelled with one of
      the accounts asked. */
  lemma {:induction false} CleanSitesFromAccounts(accounts: seq<string>, fetch: string -> Result<Option<seq<SiteEntry>>>)
    ensures forall s :: s in ListAccountsClean(accounts, fetch) ==>
      exists i :: 0 <= i < |accounts| && s.account == AccountLabel(accounts[i])
  {
    if accounts != [] {
      CleanSitesFromAccounts(accounts[1..], fetch);
      var here := AccountSitesClean(accounts[0], fetch);
      forall s | s in ListAccountsClean(accounts, fetch)
        ensures exists i :: 0 <= i < |accounts| && s.account == AccountLabel(accounts[i])
      {
        if s in here {
          var entries := fetch(accounts[0]).value.value;
          EntrySiteOrigin(entries, accounts[0], ClassifyEntryClean, s);
          var k :| 0 <= k < |entries| && ClassifyEntryClean(entries[k], accounts[0]) == Ok(Some(s));
          assert s.account == AccountLabel(accounts[0]);
        } else {
          var j :| 0 <= j < |accounts[1..]| && s.account == AccountLabel(accounts[1..][j]);
          assert s.account == AccountLabel(accounts[j + 1]);
        }
      }
    }
  }

  /** `list_search_console_sites` of NewDownloads_clean.py: every account in
      order, None when no site was found. */
  method ListSitesClean(accounts: seq<string>, fetch: string -> Result<Option<seq<SiteEntry>>>)
    returns (sites: Option<seq<Site>>)
    ensures var all := ListAccountsClean(accounts, fetch);
            sites == (if all == [] then None else Some(all))
  {
    var all: seq<Site> := [];
    var i := 0;
    while i < |accounts|
      invariant 0 <= i <= |accounts|
      invariant ListAccountsClean(accounts, fetch) == all + ListAccountsClean(accounts[i..], fetch)
    {
      var found := ListAccountClean(accounts[i], fetch);
      CleanStep(accounts, i, fetch);
      all := all + found;
      i := i + 1;
    }
    assert accounts[i..] == [];
    assert all == ListAccountsClean(accounts, fetch);
    sites := if all == [] then None else Some(all);
  }

  /** The body of the clean account loop. */
  method ListAccountClean(account: string, fetch: string -> Result<Option<seq<SiteEntry>>>)
    returns (found: seq<Site>)
    ensures found == AccountSitesClean(account, fetch)
  {
    found := [];
    match fetch(account) {
      case Err(_) =>
      case Ok(None) =>
      case Ok(Some(entries)) =>
        var complete;
        found, complete := CollectEntries(entries, account, ClassifyEntryClean);
    }
  }

  // ---------------------------------------------------------------------------
  // Domain filter

  /** One leading "www." removed. */
  function DropWww(s: string): (r: string)
    ensures StartsWith(s, "www.") ==> s == "www." + r
    ensures !StartsWith(s, "www.") ==> r == s
  {
    if StartsWith(s, "www.") then s[4..] else s
  }

  /** The filter of NewDownloads.py: lower-cased, stripped, one "www." off. */
  function NormalizeFilter(filter: string): string
  {
    DropWww(Strip(Lower(filter)))
  }

  /** The filter of NewDownloads_clean.py: lower-cased and stripped, replaced
      by its hostname when it parses as a URL with one, one "www." off. */
  function NormalizeFilterClean(filter: string): string
  {
    var f := Strip(Lower(filter));
    var host := Urls.Hostname(f);
    DropWww(if host.Ok? && host.value.Some? then host.value.value else f)
  }

  /** The host a site is matched by: the lower-cased text after `sc-domain:`,
      or the lower-cased hostname ("" without one), one "www." off. */
  function SiteHost(siteUrl: string): (r: Result<string>)
    ensures StartsWith(siteUrl, DomainPropertyPrefix) ==> r == Ok(DropWww(Lower(DomainOfProperty(siteUrl))))
  {
    if StartsWith(siteUrl, DomainPropertyPrefix) then Ok(DropWww(Lower(DomainOfProperty(siteUrl))))
    else
      match Urls.Hostname(siteUrl)
      case Err(e) => Err(e)
      case Ok(None) => Ok([])
      case Ok(Some(h)) => Ok(DropWww(Lower(h)))
  }

  /** A site matches iff its host equals the normalised filter; parsing a
      malformed site URL raises. */
  function MatchesDomain(siteUrl: string, normalizedFilter: string): (r: Result<bool>)
    ensures r.Ok? <==> SiteHost(siteUrl).Ok?
    ensures r.Ok? ==> (r.value <==> SiteHost(siteUrl).value == normalizedFilter)
  {
    match SiteHost(siteUrl)
    case Err(e) => Err(e)
    case Ok(h) => Ok(h == normalizedFilter)
  }

  /** The sites that match, in their order; the first parse error raises. */
  function FilterSites<T(!new)>(sites: seq<T>, url: T -> string, normalizedFilter: string): (r: Result<seq<T>>)
    ensures r.Ok? <==> forall i :: 0 <= i < |sites| ==> SiteHost(url(sites[i])).Ok?
    ensures r.Ok? ==> forall s :: s in r.value <==> s in sites && MatchesDomain(url(s), normalizedFilter) == Ok(true)
  {
    if sites == [] then Ok([])
    else
      assert forall i :: 1 <= i < |sites| ==> sites[i] == sites[1..][i - 1];
      match MatchesDomain(url(sites[0]), normalizedFilter)
      case Err(e) => Err(e)
      case Ok(keep) =>
        match FilterSites(sites[1..], url, normalizedFilter)
        case Err(e) => Err(e)
        case Ok(rest) =>
          assert forall s :: s in sites <==> s == sites[0] || s in sites[1..];
          Ok(if keep then [sites[0]] + rest else rest)
  }

  /** A lower-case plain host name without a leading "www.". */
  predicate PlainDomain(d: string)
  {
    && d != []
    && (forall j :: 0 <= j < |d| ==> Urls.PlainHostChar(d[j]) && !IsSpace(d[j]) && !('A' <= d[j] <= 'Z'))
    && !StartsWith(d, "www.")
  }

  lemma LowerOfLower(d: string)
    requires forall j :: 0 <= j < |d| ==> !('A' <= d[j] <= 'Z')
    ensures Lower(d) == d
  {
  }

  /** Filters that differ only in case, surrounding blanks and one leading
      "www." select the same sites. */
  lemma FilterForms(d: string)
    requires PlainDomain(d)
    ensures NormalizeFilter(d) == d
    ensures NormalizeFilter("www." + d) == d
  {
    NormalizePlain(d);
    NormalizeWww(d);
  }

  lemma NormalizePlain(d: string)
    requires PlainDomain(d)
    ensures NormalizeFilter(d) == d
  {
    LowerOfLower(d);
    StripClean(d);
  }

  lemma NormalizeWww(d: string)
    requires PlainDomain(d)
    ensures NormalizeFilter("www." + d) == d
  {
    var w := "www." + d;
    WwwPlain(d);
    LowerOfLower(w);
    StripClean(w);
    assert w[..4] == "www." && w[4..] == d;
  }

  lemma WwwPlain(d: string)
    requires PlainDomain(d)
    ensures forall j :: 0 <= j < |"www." + d| ==>
      Urls.PlainHostChar(("www." + d)[j]) && !IsSpace(("www." + d)[j]) && !('A' <= ("www." + d)[j] <= 'Z')
  {
    var w := "www." + d;
    forall j | 0 <= j < |w|
      ensures Urls.PlainHostChar(w[j]) && !IsSpace(w[j]) && !('A' <= w[j] <= 'Z')
    {
      if j >= 4 { assert w[j] == d[j - 4]; }
    }
  }

  /** The Domain property `sc-domain:d`, the URL-prefix properties
      `https://d/` and `https://www.d/` all match the filter `d`. */
  lemma BothPropertyKindsMatch(d: string)
    requires PlainDomain(d)
    ensures MatchesDomain(DomainPropertyPrefix + d, NormalizeFilter(d)) == Ok(true)
    ensures MatchesDomain("https://" + d + "/", NormalizeFilter(d)) == Ok(true)
    ensures MatchesDomain("https://www." + d + "/", NormalizeFilter(d)) == Ok(true)
  {
    NormalizePlain(d);
    DomainPropertyMatches(d);
    HttpsSite(d, d);
    WwwSiteMatches(d);
  }

  lemma WwwSiteMatches(d: string)
    requires PlainDomain(d)
    ensures MatchesDomain("https://www." + d + "/", d) == Ok(true)
  {
    WwwPlain(d);
    HttpsSite("www." + d, d);
    WwwLiteral(d);
  }

  lemma HttpsLiteral()
    ensures "https" + "://" == "https://"
  {
  }

  lemma WwwLiteral(d: string)
    ensures "https://" + ("www." + d) + "/" == "https://www." + d + "/"
  {
    assert "https://" + ("www." + d) == "https://www." + d by {
      assert "https://" + "www." == "https://www.";
    }
  }

  lemma DomainPropertyMatches(d: string)
    requires PlainDomain(d)
    ensures MatchesDomain(DomainPropertyPrefix + d, d) == Ok(true)
  {
    LowerOfLower(d);
    var u := DomainPropertyPrefix + d;
    assert u[..|DomainPropertyPrefix|] == DomainPropertyPrefix;
    assert DomainOfProperty(u) == d;
  }

  /** The URL-prefix property of a plain host (with or without "www.") has the
      host of its domain. */
  lemma HttpsSite(host: string, d: string)
    requires PlainDomain(d)
    requires forall j :: 0 <= j < |host| ==> Urls.PlainHostChar(host[j]) && !('A' <= host[j] <= 'Z')
    requires host == d || host == "www." + d
    ensures MatchesDomain("https://" + host + "/", d) == Ok(true)
  {
    var u := "https://" + host + "/";
    assert host != [];
    Urls.HostnameOfUrl("https", host, "/");
    HttpsLiteral();
    LowerOfLower(host);
    assert u[0] == 'h';
    assert !StartsWith(u, DomainPropertyPrefix) by {
      if |DomainPropertyPrefix| <= |u| { assert u[..|DomainPropertyPrefix|][0] != DomainPropertyPrefix[0]; }
    }
    assert SiteHost(u) == Ok(DropWww(host));
    if host != d {
      assert host[..4] == "www." && host[4..] == d;
    }
  }
}
