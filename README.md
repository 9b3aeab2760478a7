# A verified model of the GA4 / Search Console query core

This project is a Dafny model of the core of a toolkit for querying Google
Analytics 4 (GA4) and Google Search Console (GSC). It covers:

- the caches: the disk-backed memoising decorators and the fault-tolerant
  helpers around them, the per-account domain cache, and the web dashboard's
  SQLite query cache;
- Search Console site discovery, domain filtering, and the per-site fetch
  with retries, key splitting and progress events;
- the GA4 helpers: monthly date ranges, splitting of metric, dimension and
  filter text, report frames, and the paged property listing;
- the web backend: the life of a query (queued, running, then completed,
  failed or cancelled), pagination, multi-key sorting and limits, the
  provider registry, the two providers and the merging of Search Console
  domain variants;
- the request front ends: API-key extraction for the MCP server, the MCP
  tools, and the simplified REST API.

Each source module is one Dafny module. Pure computations are functions with
lemmas about them. Code that changes state is a class whose methods state
the whole new state: `DiskStore.Store`, `DomainCaching.DomainCache`,
`UnifiedCaching.UnifiedCache`, `QueryRoutes.QueryManager` and
`McpAuth.Scope`. Loops are methods proved against the function that
specifies them.

Calls to Google, OAuth, SHA-256, `json.dumps`, Python's `hash()`, `str()`
of arbitrary objects, float parsing and the clock are parameters of the
operations that use them. The clock is `time.time()`, a real number of
seconds, everywhere; only the health probe's key truncates it with `int()`. A call that may raise returns a `Result`, whose
`Err` carries the exception's text.

## Model

| member | source | states |
|---|---|---|
| `Base.FlattenAppend` | NewDownloads.py:418-426 | extending the combined frame with one more piece appends that piece's rows after the ones already there |
| `Strings.Strip` | NewDownloads.py:369 | `str.strip()` gives a piece of the text that has no whitespace at either end and is no longer than the text |
| `Strings.StripClean` | NewDownloads.py:369 | stripping text that has no whitespace at its ends leaves it unchanged |
| `Strings.Lower` | NewDownloads.py:369 | `str.lower()` keeps the length and lower-cases each character on its own |
| `Strings.LowerAppend` | NewDownloads.py:377 | lower-casing distributes over concatenation |
| `Strings.Split` | GA4query3.py:185-186 | `split(sep)` gives at least one part, and no part contains the separator |
| `Strings.SplitJoin` | mcp_auth.py:73-74 | splitting the joined parts on the separator gives back the parts when none of them contains it |
| `Strings.NatToString` | cache_utils.py:155 | `str(n)` of a natural number is a non-empty run of decimal digits |
| `Strings.IntToString` | NewDownloads.py:54 | `str(i)` of an integer is non-empty and never contains ':' |
| `Strings.NamespacesDisjoint` | NewDownloads.py:79 | a key in the `g:` namespace never starts with `f:` for a different colon-free name `f` |
| `Strings.OutsideOtherNamespace` | NewDownloads.py:656 | a key that begins with `g:` does not begin with `f:` for any other colon-free function name |
| `Ordering.LessTransitive` | cache_utils.py:40 | Python's `<` on strings, which `sorted(kwargs.items())` uses, is transitive |
| `Ordering.LessTotal` | cache_utils.py:40 | any two different strings are ordered one way or the other |
| `Ordering.SortSpec` | cache_utils.py:40 | sorting keyword pairs with distinct names gives the same pairs, in strictly increasing name order |
| `Ordering.SortedUnique` | cache_utils.py:40 | two name-sorted sequences holding the same pairs are equal |
| `Ordering.SortForgetsOrder` | NewDownloads.py:54 | `sorted(kwargs.items())` gives the same list whatever order the keyword arguments were passed in |
| `CacheKeys.TypeNames` | cache_utils.py:43-44 | one type name per argument, in argument order |
| `CacheKeys.SerializableArgs` | cache_utils.py:30-35 | one serialisable value per argument, with an object that has a `__dict__` replaced by its `str()` |
| `CacheKeys.GenerateCacheKey` | cache_utils.py:28-57 | the key begins with prefix + function name + ':'; it is None exactly when both the JSON serialisation and the `str()` fallback fail |
| `CacheKeys.KwargsOrderIrrelevant` | cache_utils.py:37-53 | reordering the keyword arguments never changes the key, on the JSON path and on the fallback path alike |
| `CacheKeys.ObjectsKeyedByText` | cache_utils.py:30-35 | arguments whose `str()` texts agree get the same key, whatever objects they are |
| `CacheKeys.TypedPayloadCarriesTypes` | cache_utils.py:43-44 | the serialised payload carries the argument type names exactly when `typed` is set |
| `CacheKeys.PersistentKey` | NewDownloads.py:54-56 | the key is built exactly when every positional and keyword value is hashable (otherwise the TypeError propagates), and begins with the function name + ':' |
| `CacheKeys.HashableSorted` | NewDownloads.py:54 | sorting the keyword arguments neither adds nor removes an unhashable value |
| `CacheKeys.PersistentKeyKwargsOrder` | GA4query3.py:41-43 | reordering keyword arguments does not change the `persistent_cache` key, or whether it raises |
| `DiskStore.MatchingIsRemove` | cache_utils.py:131-136 | deleting the listed matching keys one by one, with failing deletes skipped, gives exactly the matching-key removal |
| `DiskStore.Store.constructor` | cache_utils.py:127 | a store starts empty, with or without tag eviction |
| `DiskStore.Store.Read` | cache_utils.py:77 | a non-None read is the value of a live entry under that key; an absent key reads as None |
| `DiskStore.Store.SafeGet` | cache_utils.py:73-80 | an empty key or a raising store gives None without a read; otherwise the result is what the store holds for the key |
| `DiskStore.Store.SafeSet` | cache_utils.py:100-111 | it writes and returns True exactly when the key is non-empty, the value is not None and the store does not raise; otherwise nothing changes and it returns False |
| `DiskStore.Store.SafeClear` | cache_utils.py:126-140 | with tag eviction it evicts the tag; otherwise it deletes every key containing the function name, ignoring failed deletes; it is True unless eviction or listing raised, in which case nothing changes |
| `DiskStore.Store.DeleteEach` | cache_utils.py:132-136 | the store loses exactly the given keys whose delete does not raise |
| `DiskStore.Store.ValidateOperations` | cache_utils.py:154-169 | the probe is True iff set, get and delete all succeed; the probe key is gone afterwards unless a step after the set raised |
| `DiskStore.Store.GetCacheStats` | cache_utils.py:183-216 | the size is counted before probing, health equals the probe's verdict, and a raising size count gives size 0, unhealthy and an error; the store afterwards is as the `{name}_health` probe leaves it (unchanged when the set raises, the probe entry left behind when the get or delete raises, the probe key gone otherwise) |
| `DiskStore.Store.Cached` | NewDownloads.py:59-61 | a hit is a live entry holding a value other than None, so a stored None reads as a miss |
| `DiskStore.Store.CallMemoized` | NewDownloads.py:52-66 | the function is called exactly when the key builds and there is no hit; a fresh result is stored under the key; key, read and write errors propagate |
| `DiskStore.Store.ClearFunction` | NewDownloads.py:654-659 | exactly the keys that begin with `name:` are deleted, and their number is returned |
| `DiskStore.ClearSparesOtherFunctions` | NewDownloads.py:77-81 | clearing one function's entries leaves every entry of every other colon-free function name in place |
| `DiskStore.ClearRemovesEveryHit` | GA4query3.py:64-68 | after clearing, no key of the cleared function remains |
| `DiskStore.SubstringClearReachesOtherFunctions` | cache_utils.py:131 | without tag eviction, a key of another function whose name merely contains the cleared name is deleted as well |
| `DomainCaching.Lookup` | NewDownloads.py:145-151 | an account is answered iff it has an entry that is strictly younger than the time-to-live, and the answer is that entry's list |
| `DomainCaching.SetThenLookup` | NewDownloads.py:153-160 | a stored list is served exactly while it is younger than the time-to-live, and no other account's answer changes |
| `DomainCaching.ExpiryIsFinal` | NewDownloads.py:149 | once an entry is no longer served, it stays unserved at every later time |
| `DomainCaching.DomainCache.constructor` | NewDownloads.py:140-143 | a new cache is empty and keeps the given time-to-live |
| `DomainCaching.DomainCache.Get` | NewDownloads.py:145-151 | the cached list iff an entry exists and now − timestamp < ttl, with the clock and the timestamps real seconds; a returned list is the entry filed under the account asked for |
| `DomainCaching.DomainCache.Set` | NewDownloads.py:153-160 | the entry is replaced and stamped with now, and it is served at once when ttl > 0 |
| `DomainCaching.DomainCache.Invalidate` | NewDownloads.py:162-168 | a non-empty account loses only its own entry; None or "" clears every entry |
| `DomainCaching.DomainCache.GetStats` | NewDownloads.py:170-183 | total counts every entry, valid counts those still served, and valid + expired = total |
| `PropertyFanout.Contribution` | mcp_server.py:312-327 | a property adds exactly the rows of its report, each tagged with that property's id and name, or fails exactly when its report raised |
| `PropertyFanout.CombineProperties` | mcp_server.py:307-329 | the loop over properties returns the concatenation the fan-out definition describes, stopping at the first report that raises |
| `PropertyFanout.CombinedStaysFailed` | mcp_server.py:307-327 | once a report has raised, the rest of the loop does not change the outcome |
| `PropertyFanout.CombinedFails` | mcp_server.py:307-327 | the fan-out fails exactly when some listed property's report raises |
| `PropertyFanout.CombinedRowsTagged` | simplified_api.py:134-156 | every combined row is tagged with the id and name of one of the listed properties |
| `PropertyFanout.CombinedAppend` | simplified_api.py:134-156 | the fan-out over two runs of properties is the fan-out over each, combined in order |
| `PropertyFanout.EmptyPropertySkipped` | simplified_api.py:151-154 | a property whose report is empty leaves the result as it would be without that property |
| `SimplifiedApi.DataReply` | simplified_api.py:158-170 | a reply succeeds exactly when rows were fetched, carrying all of them, their count and the source; every failure, the 404s raised inside the try included, surfaces as a 500 |
| `SimplifiedApi.Ga4StatusMapping` | simplified_api.py:104-170 | an invalid range is a 400 before any Google call, whatever the services would answer; any other failure is a 500; success means rows were fetched |
| `SimplifiedApi.ReportExceptionIs500` | simplified_api.py:114-127 | an exception from the single-property report is a 500 carrying its text after "GA4 query failed: " |
| `SimplifiedApi.HandleQueryGa4` | simplified_api.py:104-170 | the endpoint with its loop over properties gives the reply the definition describes |
| `SimplifiedApi.QueryGsc` | simplified_api.py:172-206 | the endpoint fails only with 400 or 500, and with 400 exactly when the date range is invalid |
| `SimplifiedApi.UnifiedQueryStatus` | simplified_api.py:208-261 | the unified endpoint fails with a 500 of the joined errors exactly when no source answered and some failed; otherwise it returns the answers, GA4 before Search Console; each requested source gives one answer or one error |
| `SimplifiedApi.HandleUnifiedQuery` | simplified_api.py:208-261 | the endpoint, accumulating results and errors, gives the reply the definition describes |
| `SimplifiedApi.QuickNeverInvalidRange` | simplified_api.py:301-348 | the quick endpoints' window always passes the date check, so they never answer 400; only days outside 1..365 is refused with 422; the GA4 one asks for hostname,pagePath exactly when a domain is given |
| `Urls.Hostname` | NewDownloads.py:285 | `urlparse(url).hostname` is None or a non-empty host; a malformed bracketed location raises |
| `Urls.HostnameOfUrl` | NewDownloads.py:379-380 | the hostname of `scheme://host` followed by a path, query or fragment is the host lower-cased |
| `Urls.RestNetloc` | NewDownloads_clean.py:115-116 | the network location after `//` is the host up to the first '/', '?' or '#', and its hostname is the lower-cased host |
| `Urls.NoSlashNoHostname` | NewDownloads_clean.py:102-104 | text with no '/' has no hostname, so a bare domain filter is kept as typed |
| `GscSites.AccountLabel` | NewDownloads.py:293 | the default account "" is recorded as 'default'; any other account keeps its name |
| `GscSites.Lines` | NewDownloads.py:235 | `splitlines()` of the account file gives at least one line |
| `GscSites.NonBlankLinesTrimmed` | NewDownloads.py:237 | every kept account line is stripped and non-blank |
| `GscSites.AccountList` | NewDownloads.py:230-239 | no account or a blank one means only the default account; an unreadable file means the given text itself; otherwise the stripped non-blank lines of the file |
| `GscSites.RootDomain` | NewDownloads.py:279-290 | a Domain property's domain is the text after `sc-domain:`, 'Unknown' when that is empty; the domain is never empty |
| `GscSites.ClassifyEntry` | NewDownloads.py:274-296 | an unverified entry is skipped; a missing permission raises; a kept row carries the entry's URL and permission, the account label, and 'Domain Property' exactly for `sc-domain:` URLs, 'URL-prefix Property' otherwise |
| `GscSites.ClassifyEntryClean` | NewDownloads_clean.py:52-64 | only an explicit unverified permission skips an entry; a missing URL raises; a kept site carries the entry's URL and the account label |
| `GscSites.EntrySites` | NewDownloads_clean.py:52-64 | an account lists at most one site per entry |
| `GscSites.EntrySitesComplete` | NewDownloads.py:274-307 | an account's listing finishes iff no entry raises |
| `GscSites.EntrySiteOrigin` | NewDownloads.py:274-296 | every listed site is the classification of one of the account's entries |
| `GscSites.CollectEntries` | NewDownloads.py:274-296 | the entry loop appends what the specification of one account's listing says, and reports whether it finished |
| `GscSites.AccountStepCache` | NewDownloads.py:246-307 | with caching on, a fresh non-empty cached list is served without a call; the cache changes only by storing a non-empty list for this account; a failed or empty reply leaves it as it was |
| `GscSites.ListLast` | NewDownloads.py:246-307 | the accounts are listed in order: one more account appends its sites to those listed before it and lists over the cache they left |
| `GscSites.ClassifiedWellFormed` | NewDownloads.py:274-296 | every row built for an account is labelled with that account and typed by its URL's kind |
| `GscSites.ListedSitesWellFormed` | NewDownloads.py:244-311 | the listing keeps every cached list well formed, and each listed site was built for one of the accounts asked |
| `GscSites.SecondListingServedFromCache` | NewDownloads.py:248-254 | once an account's sites were stored, a second listing within the time-to-live is served from the cache without calling Google again |
| `GscSites.ListSites` | NewDownloads.py:244-315 | the account loop leaves the cache as the specification says, and returns the sites, or None when there are none |
| `GscSites.ListAccount` | NewDownloads.py:247-307 | the loop body for one account appends the account's sites and updates the cache as the specification says |
| `GscSites.CleanStep` | NewDownloads_clean.py:47-68 | the uncached listing is one account's sites followed by the rest |
| `GscSites.CleanSitesFromAccounts` | NewDownloads_clean.py:47-68 | every site the uncached listing returns is labelled with one of the accounts asked |
| `GscSites.ListSitesClean` | NewDownloads_clean.py:46-70 | the loop returns every account's sites in order, or None when there are none |
| `GscSites.ListAccountClean` | NewDownloads_clean.py:48-68 | the loop body for one account appends that account's sites |
| `GscSites.DropWww` | NewDownloads.py:370-371 | one leading "www." is removed, and text without it is kept |
| `GscSites.SiteHost` | NewDownloads.py:375-383 | a Domain property is matched by the lower-cased text after `sc-domain:` with one "www." removed |
| `GscSites.MatchesDomain` | NewDownloads.py:374-385 | a site matches iff its host equals the normalised filter; a site URL that fails to parse raises |
| `GscSites.FilterSites` | NewDownloads.py:387 | the kept sites are exactly the matching ones; any unparsable site URL raises |
| `GscSites.FilterForms` | NewDownloads.py:368-371 | a plain domain and its "www." form normalise to the same filter |
| `GscSites.BothPropertyKindsMatch` | NewDownloads.py:368-385 | the filter `d` selects the Domain property `sc-domain:d` and the URL-prefix properties `https://d/` and `https://www.d/` |
| `GscSites.DomainPropertyMatches` | NewDownloads_clean.py:112-119 | the Domain property of a plain domain matches that domain |
| `GscSites.HttpsSite` | NewDownloads_clean.py:114-119 | the URL-prefix property of a plain host, with or without "www.", matches its domain |
| `GscFetch.ContainsLowerMeaning` | NewDownloads.py:557-561 | the scan for a word in the message without building a lower-cased copy agrees with `word in s.lower()` |
| `GscFetch.ContainsAnyLowerMeaning` | NewDownloads_clean.py:177 | the message is retryable for a word list iff its lower-cased text contains one of the words |
| `GscFetch.RetryableMeaning` | NewDownloads.py:558-561 | an error is retried iff its lower-cased text contains rate, quota, timeout, internal error, 500, 503 or 429 |
| `GscFetch.Pow2` | NewDownloads.py:505 | `2 ** n` is at least 1 |
| `GscFetch.TagRows` | NewDownloads.py:545-546 | tagging puts rootDomain then siteUrl in front of the columns and sets both in every row; it raises, keeping the frame, exactly when a column of that name already exists |
| `GscFetch.DigitsValueOfNat` | NewDownloads.py:536 | the number in a `key-n` column name reads back as n |
| `GscFetch.KeyColumnInjective` | NewDownloads.py:536 | different positions give different `key-j` column names |
| `GscFetch.AddColumns` | NewDownloads.py:538-539 | assigning columns keeps the existing ones in place and appends the new ones |
| `GscFetch.KeyColumns` | NewDownloads.py:536 | n key columns named `key-1` .. `key-n` |
| `GscFetch.WithKeys` | NewDownloads.py:537-539 | a row gets key j in column `key-j` (None when its list is shorter) and keeps its other fields |
| `GscFetch.SplitKeys` | NewDownloads.py:526-542 | splitting keys keeps every row and the existing columns in front |
| `GscFetch.SplitKeysSpec` | NewDownloads.py:529-539 | when every key list fits, key j of each row lands in `key-j`, shorter lists are padded with None, and other fields are kept |
| `GscFetch.KeyCountOfFirstRow` | NewDownloads.py:532-533 | the number of key columns is the length of the first row's key list |
| `GscFetch.LongerKeysLeaveFrame` | NewDownloads.py:537-542 | a row with more keys than the first row makes splitting raise, and the error is swallowed with the frame unchanged |
| `GscFetch.AttemptOutcome` | NewDownloads.py:511-553 | an attempt yields a frame only from a reply with rows; a raised error is a failure with that message |
| `GscFetch.AttemptsBounds` | NewDownloads.py:501-508 | at most max_retries + 1 calls, and the sleep before retry m is retry_delay · 2^(m−1) |
| `GscFetch.RetriedOnlyOnRetryable` | NewDownloads.py:555-569 | every attempt before the last one raised a retryable error |
| `GscFetch.LastAttemptStops` | NewDownloads_clean.py:158-181 | the run stops when an attempt ends the loop, raises a non-retryable error, or uses up the retries |
| `GscFetch.FrameFromLastReply` | NewDownloads.py:523-548 | a frame comes only from the last attempt, whose reply had rows, and it starts with rootDomain and siteUrl |
| `GscFetch.ProcessSingleSite` | NewDownloads.py:484-571 | the optional initial wait, then the attempt loop; the frame, sleeps and number of calls are those of the specification |
| `GscFetch.PlainAttempt` | NewDownloads.py:510-569 | one pass of the attempt loop ends with the reply's frame, or retries exactly when the specified run makes another attempt, or ends with no frame |
| `GscFetch.RunSiteSleeps` | NewDownloads.py:504-508 | the backoff sleeps of as many retries as the run made are exactly the run's sleeps: `retry_delay * 2^(k-1)` before retry k |
| `GscFetch.CleanAttempt` | NewDownloads_clean.py:159-181 | one pass of the attempt loop keeps the frame, or the partial frame tagging left, and retries exactly when the specified run makes another attempt |
| `GscFetch.QuerySiteClean` | NewDownloads_clean.py:155-181 | the attempt loop keeps the frame the specification says (a partial one when tagging raised), with the backoff sleeps and the number of calls |
| `GscFetch.MultiDimension` | NewDownloads.py:351-352 | keys are split exactly when the dimension text contains a comma |
| `GscFetch.SplitCount` | NewDownloads.py:351-352 | splitting on ',' gives more than one part iff the text contains a comma |
| `GscFetch.StrippedNonBlank` | NewDownloads_clean.py:155 | there are no more kept dimensions than parts |
| `GscFetch.StrippedNonBlankTrimmed` | NewDownloads_clean.py:155 | every kept dimension is stripped and non-blank |
| `GscFetch.DimensionsRoundTrip` | NewDownloads_clean.py:155 | joining clean dimension names with commas and parsing them back gives the names again, in order |
| `GscFetch.AccountsSpec` | NewDownloads_clean.py:139 | the accounts of the sites are distinct and are exactly the accounts that occur |
| `GscFetch.SortedAccountsSpec` | NewDownloads_clean.py:139 | `groupby('account')` visits the accounts in strictly ascending order, one group per account that occurs |
| `GscFetch.GroupsPartition` | NewDownloads_clean.py:139-143 | grouping by account visits every site exactly once |
| `GscFetch.ProcessingOrderPermutes` | NewDownloads_clean.py:139-143 | the order in which the fetch visits the sites is a permutation of them |
| `GscFetch.ThenAssociative` | NewDownloads_clean.py:184 | accumulating rows, events and sleeps is associative |
| `GscFetch.ServiceAccount` | NewDownloads_clean.py:141 | the label 'default' maps back to the default account "", other labels are kept |
| `GscFetch.ServiceAccountOfLabel` | NewDownloads_clean.py:141 | mapping the label back recovers every account except one literally named 'default' |
| `GscFetch.RunSitesAppend` | NewDownloads_clean.py:143-192 | the per-site loop over two runs of sites is the first run followed by the second, numbered on |
| `GscFetch.RunGroupsFlat` | NewDownloads_clean.py:139-192 | when every service is available, the fetch is the per-site loop over the sites in group order |
| `GscFetch.RunGroupsFails` | NewDownloads_clean.py:140-141 | the fetch raises exactly when some group's service cannot be built |
| `GscFetch.RunGroupsStaysFailed` | NewDownloads_clean.py:139-141 | once a group's service cannot be built, the groups after it add nothing: the run is the run up to that group |
| `GscFetch.RunSitesEvents` | NewDownloads_clean.py:146-192 | per site one site_start then one site_done, with current counting up by one |
| `GscFetch.EventSequence` | NewDownloads_clean.py:130-192 | between start and finish the events are site_start, site_done for each site in processing order, with current 1 .. total |
| `GscFetch.FetchOutcomes` | NewDownloads_clean.py:90-128 | no sites, or no matching sites, give an empty result and a single finish event with total 0; the fetch raises only on an unparsable site URL or a service that cannot be built |
| `GscFetch.FetchSite` | NewDownloads_clean.py:143-192 | the inner loop body for one site gives its two events, its sleeps and the rows it keeps |
| `GscFetch.FetchOfSelection` | NewDownloads_clean.py:130-201 | with a non-empty selection: start with total = number of sites, the per-site events, and finish with current = total and rows = the result's length; a failing service raises instead |
| `GscFetch.FetchGroup` | NewDownloads_clean.py:143-192 | the loop over one account's sites gives the specification's progress |
| `GscFetch.FetchGroups` | NewDownloads_clean.py:139-192 | the loop over the groups gives the specification's progress, and the first failing service's error |
| `GscFetch.FetchClean` | NewDownloads_clean.py:73-201 | `fetch_search_console_data` returns the rows, events and sleeps of the specification |
| `Dates.MonthText` | GA4query3.py:84 | the `%m` field reads as a month 1 .. 12 |
| `Dates.DayText` | GA4query3.py:84 | the `%d` field reads as a day 1 .. 31 |
| `Dates.ParseDate` | GA4query3.py:83-88 | on ASCII digits, `strptime(s, '%Y-%m-%d')` succeeds only on a date that exists |
| `Dates.ValidateDateRange` | mcp_server.py:39-46 | both dates must parse, and the start must not be after the end |
| `Dates.FormatDate` | mcp_server.py:52-54 | `strftime('%Y-%m-%d')` is ten characters long |
| `Dates.FormatFields` | mcp_server.py:52-54 | the formatted date is four year digits, two month digits and two day digits, joined by '-' |
| `Dates.ParseFormat` | simplified_api.py:77-84 | reading back a formatted date gives the date |
| `Dates.FormattedRangeValidates` | simplified_api.py:68-75 | two formatted dates validate iff the first is not after the second |
| `Dates.OneDigitFieldsAccepted` | simplified_api.py:71-72 | `strptime` accepts one-digit months and days, so "2024-1-1" is a valid date |
| `Dates.MonthEndsChecked` | mcp_server.py:42-43 | a day past the end of its month is rejected, and leap days only in leap years |
| `Dates.PrevDay` | mcp_server.py:51 | the day before a date is a valid earlier date |
| `Dates.DaysBack` | mcp_server.py:51 | `d - timedelta(days=n)` is a valid date no later than `d` |
| `Dates.DateOrderTransitive` | mcp_server.py:44 | date order is transitive |
| `Dates.DefaultDateRange` | mcp_server.py:48-55 | the default range ends today |
| `Dates.DefaultRangeValidates` | mcp_server.py:48-55 | the default range always passes the date-range check |
| `Dates.MonthAt` | GA4query3.py:411-419 | a month index names a valid first of a month |
| `Dates.MonthRanges` | GA4query3.py:414-419 | one range per month from the first to the last month, in order, and none when the start is after the end |
| `Dates.MonthRangeSpec` | GA4query3.py:415-417 | a month's range runs from its 1st to its 28th, both valid dates |
| `Dates.MonthOrder` | GA4query3.py:419 | a later month index is a strictly later month, so successive monthly ranges start on ascending dates |
| `Dates.RangesBetween` | GA4query3.py:414-419 | stepping past December 9999 raises, and only then |
| `Dates.DateRanges` | GA4query3.py:405-420 | a month that does not parse as YYYY-MM raises |
| `Dates.GenerateDateRanges` | GA4query3.py:405-420 | `generate_date_ranges` returns the ranges of the specification |
| `Dates.AppendMonths` | GA4query3.py:414-419 | the month loop appends one range per month up to the end month |
| `Ga4Report.Names` | GA4query3.py:185-186 | one trimmed name per comma-separated part, blanks kept |
| `Ga4Report.NamesRoundTrip` | GA4query3.py:185-186 | names joined with ',' split back into the same names, in order |
| `Ga4Report.ParseFilter` | GA4query3.py:196-197 | a filter parses iff it contains '='; without one the index raises |
| `Ga4Report.ParseFieldValue` | GA4query3.py:197 | `field=value` reads as that field and that value |
| `Ga4Report.DoubleEqualsGivesEmptyValue` | GA4query3.py:197 | 'field==value' reads as the field and an empty value |
| `Ga4Report.BuildRequest` | GA4query3.py:185-198 | the request names `properties/{id}`, the split dimensions and metrics, and a filter exactly when the expression is non-empty; a non-empty expression without '=' raises |
| `Ga4Report.Zip` | GA4query3.py:218 | a frame row has exactly the column names as fields |
| `Ga4Report.ZipLookup` | GA4query3.py:216-218 | with distinct column names each name reads back its own value |
| `Ga4Report.ReportFrame` | GA4query3.py:208-218 | the columns are the dimension names then the metric names, one row per response row; a row of the wrong length raises |
| `Ga4Report.ReportCells` | GA4query3.py:213-218 | each cell holds the dimension or metric value at its position in the response row |
| `Ga4Report.ProduceReport` | GA4query3.py:82-88 | the report is None for invalid dates, and only then |
| `Ga4Report.ApiErrorTextSpec` | GA4query3.py:222-244 | the raised text is "GA4 API Error for property NAME (ID): " and the API's message whole, followed by at most one of the four suggestions; an invalid metric (no invalid dimension) gets the metrics hint, and a message with no invalid field and no "400" gets none |
| `Ga4Report.BadDatesNeverCallApi` | GA4query3.py:82-88 | a bad date returns before the API is asked anything |
| `Ga4Report.LastSegment` | GA4query3.py:384 | `name.split('/')[-1]` contains no '/' |
| `Ga4Report.ResourceId` | GA4query3.py:365 | the last segment of `collection/id` is the id |
| `Ga4Report.RowsOf` | GA4query3.py:383-386 | one row per property, with the id from its resource name and its display name |
| `Ga4Report.PrefixedAssociative` | GA4query3.py:386 | appending properties in two steps is appending them in one |
| `Ga4Report.ListAccountProperties` | GA4query3.py:370-392 | the property paging loop returns the rows the specification gives |
| `Ga4Report.ListProperties` | GA4query3.py:349-399 | the account paging loop returns the rows the specification gives |
| `Ga4Report.AccountsFailLater` | GA4query3.py:401-403 | an account whose listing raises makes the whole listing fail |
| `Ga4Report.PagesAfterStopIgnored` | GA4query3.py:380-392 | pages after an empty page or a page without a next token are never read |
| `Ga4Report.FullChainListsAll` | GA4query3.py:371-392 | a chain of full pages ending in one without a token lists every property, in page order |
| `UnifiedCaching.Field` | webapp/backend/core/cache.py:109 | `query_data.get(name)` finds a value iff the request has a field of that name |
| `UnifiedCaching.KeyIgnoresFieldOrder` | webapp/backend/core/cache.py:61-65 | requests that differ only in the order of their fields share a key, because the JSON is written with sorted keys |
| `UnifiedCaching.SourcesText` | webapp/backend/core/cache.py:109 | a missing `sources` field records the empty text; a list of strings always joins |
| `UnifiedCaching.SourcesRecoverable` | webapp/backend/core/cache.py:134 | source names without commas are recorded so that splitting on ',' gives them back |
| `UnifiedCaching.Served` | webapp/backend/core/cache.py:79-82 | a read answers iff the row exists and now − timestamp < the stored time-to-live, and the answer is the stored response |
| `UnifiedCaching.AfterRead` | webapp/backend/core/cache.py:83-86 | a read deletes the row it found expired and changes nothing else |
| `UnifiedCaching.Recent` | webapp/backend/core/cache.py:148-154 | the statistics see only log rows stamped in the last 24 hours, in order |
| `UnifiedCaching.RecentAppend` | webapp/backend/core/cache.py:148-154 | logging one more row adds it to the recent rows iff it is within the last 24 hours |
| `UnifiedCaching.Hits` | webapp/backend/core/cache.py:151 | the hit count is at most the number of rows counted |
| `UnifiedCaching.HitsAppend` | webapp/backend/core/cache.py:151 | one more logged row adds one hit iff it was a cache hit |
| `UnifiedCaching.KeptSince` | webapp/backend/core/cache.py:186-188 | a clear with a cutoff keeps a subset of the rows, unchanged |
| `UnifiedCaching.ClearedCount` | webapp/backend/core/cache.py:186-192 | the count a clear with a cutoff returns is the number of rows stamped before the cutoff |
| `UnifiedCaching.UnifiedCache.constructor` | webapp/backend/core/cache.py:30-58 | a new cache has an empty query table and an empty log |
| `UnifiedCaching.UnifiedCache.GetCachedQuery` | webapp/backend/core/cache.py:67-90 | the stored response iff the row is younger than its stored time-to-live (the `ttl_seconds` argument plays no part); an expired row found is deleted; storage errors give None and change nothing |
| `UnifiedCaching.UnifiedCache.CacheQueryResult` | webapp/backend/core/cache.py:92-116 | insert or replace the one row under the request's key, with the response, now, the time-to-live, the sources and the row count; storage errors and unjoinable sources change nothing |
| `UnifiedCaching.UnifiedCache.LogQuery` | webapp/backend/core/cache.py:118-141 | exactly one log row is appended per call, unless storage fails |
| `UnifiedCaching.UnifiedCache.StoredTouchesOnlyKey` | webapp/backend/core/cache.py:92-116 | storing a response writes the row of the request's key, with that response, time-to-live and timestamp (when storage does not fail and the sources can be joined), and always leaves every other key's row, or its absence, as it was |
| `UnifiedCaching.UnifiedCache.LoggedAppendsOne` | webapp/backend/core/cache.py:118-141 | logging appends exactly one row, recording the request's key, whether it was a hit and the row count, unless storage fails or the sources cannot be joined, and then the log is unchanged |
| `UnifiedCaching.UnifiedCache.GetCacheStats` | webapp/backend/core/cache.py:143-180 | the query and hit counts of the last 24 hours (hits NULL over no rows) and the number of cached rows; storage errors give the empty dict |
| `UnifiedCaching.UnifiedCache.ClearCache` | webapp/backend/core/cache.py:182-197 | a falsy `older_than_hours` deletes every row; otherwise exactly the rows older than now − hours·3600; the count deleted is returned, and 0 on storage errors |
| `UnifiedCaching.StoreThenRead` | webapp/backend/core/cache.py:79-113 | a stored response is served until its time-to-live has passed, and storing leaves every other request's answer as it was |
| `UnifiedCaching.ReadKeepsAnswers` | webapp/backend/core/cache.py:79-86 | deleting an expired row on read never changes what any key serves at that moment |
| `UnifiedCaching.ExpiredReadForgets` | webapp/backend/core/cache.py:83-86 | a row found expired is gone after the read |
| `UnifiedCaching.ClearKeepsNewer` | webapp/backend/core/cache.py:187-188 | a clear with a cutoff keeps a row iff it is stamped at or after the cutoff |
| `ResultSort.KeyLessTransitive` | webapp/backend/routes/query.py:156 | the order of sort keys is transitive |
| `ResultSort.KeyLessTotal` | webapp/backend/routes/query.py:156 | any two different sort keys are ordered one way or the other |
| `ResultSort.InOrderTransitive` | webapp/backend/routes/query.py:156 | ascending and descending order are both transitive |
| `ResultSort.Insert` | webapp/backend/routes/query.py:156 | inserting a row keeps every row, and adds only that one |
| `ResultSort.StableSort` | webapp/backend/routes/query.py:156 | `list.sort` is a permutation of the rows |
| `ResultSort.InsertSorted` | webapp/backend/routes/query.py:156 | inserting into a sorted list keeps it sorted |
| `ResultSort.StableSortSorted` | webapp/backend/routes/query.py:156 | the sort orders the rows by their key, ascending or, with `reverse`, descending |
| `ResultSort.StableSortKeepsTies` | webapp/backend/routes/query.py:151-159 | the sort is stable: rows of equal key keep the order they came in |
| `ResultSort.ModeIgnoresOrder` | webapp/backend/routes/query.py:155-159 | whether a field sorts numerically or by `str()` depends only on which rows there are, not on their order |
| `ResultSort.SortBy` | webapp/backend/routes/query.py:152-159 | one sort spec with a field permutes the rows |
| `ResultSort.SortAll` | webapp/backend/routes/query.py:151-159 | the specs applied last to first permute the rows |
| `ResultSort.Modes` | webapp/backend/routes/query.py:155-159 | one mode per spec |
| `ResultSort.SortAllLexicographic` | webapp/backend/routes/query.py:149-159 | the first spec is the primary key: the rows come out in lexicographic order of the specs' keys, later specs breaking the ties of earlier ones |
| `ResultSort.ApplySorting` | webapp/backend/routes/query.py:149-159 | the loop over `reversed(sort)` gives the rows of the specification |
| `ResultSort.Limit` | webapp/backend/routes/query.py:161-164 | a positive limit keeps the first min(limit, n) rows; no limit or a limit ≤ 0 keeps them all; the result is always a prefix |
| `QueryRoutes.Slice` | webapp/backend/routes/query.py:436 | `data[a:b]` holds the rows from a up to b that exist, in order |
| `QueryRoutes.Paginate` | webapp/backend/routes/query.py:422-450 | the page is clamped to ≥ 1 and the size to 1 .. 1000 (below 1 becomes 100); total_rows is the row count; a page holds at most page_size rows; has_prev iff page > 1 |
| `QueryRoutes.CeilingDivision` | webapp/backend/routes/query.py:438 | `(total + size - 1) // size` is the ceiling of total / size |
| `QueryRoutes.TotalPagesIsCeiling` | webapp/backend/routes/query.py:438 | total_pages is the least number of pages of page_size rows that hold every row |
| `QueryRoutes.PageContents` | webapp/backend/routes/query.py:434-436 | a page holds exactly the rows from (page − 1)·size on, as many as the size allows and as exist |
| `QueryRoutes.HasNextIffRowsRemain` | webapp/backend/routes/query.py:438-439 | has_next holds exactly when rows remain after this page |
| `QueryRoutes.EveryRowOnItsPage` | webapp/backend/routes/query.py:434-436 | row k is shown on page k / size + 1, at position k % size |
| `QueryRoutes.Rows` | webapp/backend/routes/query.py:176 | the stored data is one dict per result row, in order |
| `QueryRoutes.DropAfterSet` | webapp/backend/routes/query.py:401-404 | popping a cancel flag after setting it leaves what popping alone leaves |
| `QueryRoutes.QueryManager.constructor` | webapp/backend/routes/query.py:29-31 | no queries and no cancel flags at start |
| `QueryRoutes.QueryManager.CreateQuery` | webapp/backend/routes/query.py:230-252 | a new entry under a fresh id, status queued, holding the request; the cancel flags are untouched |
| `QueryRoutes.QueryManager.CancelQuery` | webapp/backend/routes/query.py:390-409 | 404 for an unknown id and 400 unless queued or running, both changing nothing; otherwise the flag is set and the entry becomes cancelled and not cancellable |
| `QueryRoutes.QueryManager.DeleteQuery` | webapp/backend/routes/query.py:453-463 | 404 for an unknown id, changing nothing; otherwise the entry and any cancel flag are removed |
| `QueryRoutes.QueryManager.PaginatedResults` | webapp/backend/routes/query.py:412-420 | 404 iff the id is unknown, 400 iff the query is not completed, and otherwise a page over all of its rows |
| `QueryRoutes.QueryManager.ExportRows` | webapp/backend/routes/query.py:279-291 | 404 for an unknown id or a completed query without rows, 400 iff not completed, otherwise the non-empty rows |
| `QueryRoutes.QueryManager.MarkCancelled` | webapp/backend/routes/query.py:137-141 | the entry becomes cancelled and the cancel flag is cleared |
| `QueryRoutes.QueryManager.MarkFailed` | webapp/backend/routes/query.py:191-204 | the entry becomes failed with the message and progress 3/3 "Failed: …", and the cancel flag is cleared |
| `QueryRoutes.QueryManager.ServeCached` | webapp/backend/routes/query.py:80-96 | the entry completes from the cached rows with cache_hit set and progress "Completed (cache hit)"; the query table is untouched, and one hit row with the row count is logged |
| `QueryRoutes.ProcessResults` | webapp/backend/routes/query.py:148-167 | the fresh rows are sorted by the specs when there are specs and rows, then cut to a positive limit |
| `QueryRoutes.QueryManager.ServeFresh` | webapp/backend/routes/query.py:148-190 | the entry completes with the sorted, limited rows and cache_hit unset; the rows are stored under the request's key for 3600 s unless storing fails, and no other key of the table changes; one miss row with the row count is logged |
| `QueryRoutes.QueryManager.RunProviders` | webapp/backend/routes/query.py:105-204 | with the registry called as intended (without `progress_callback`): a provider exception fails the query with its message; a cancel after retrieval cancels it; both leave the cache table and log as they were; otherwise it completes with the final rows, stored for an hour under the request's key alone, and one miss row is logged |
| `QueryRoutes.QueryManager.ReadCache` | webapp/backend/routes/query.py:73-78 | the cache read returns what the cache serves for the request at that time (nothing when the store fails); the table loses the request's row if it was found expired, and the log is unchanged; a cancel arriving meanwhile sets the query's flag; no other query changes |
| `QueryRoutes.QueryManager.RunStarted` | webapp/backend/routes/query.py:73-204 | with the registry called as intended (without `progress_callback`): for a running query with no cancel yet, a non-debug cache hit completes from the cache and logs the hit, or fails with "'data'" when the cached response has no list of rows; otherwise a cancel during the cache read cancels it, and the provider outcome fails, cancels or completes it with the final rows stored for an hour and a miss logged; the table is always the one the read left, plus that stored row; no other query changes |
| `QueryRoutes.QueryManager.ExecuteQueryBackground` | webapp/backend/routes/query.py:44-204 | with the registry called as intended (without `progress_callback`): a cancel before the start cancels without touching the cache; a non-debug cache hit completes from the cache and logs the hit, or fails with "'data'" when the cached response has no list of rows; otherwise the outcome is cancelled, failed or completed as the checkpoints and the provider say, and only a completed query stores its rows and logs a miss; the cancel flag is always cleared and no other query changes |
| `QueryRoutes.QueryManager.ExecuteQueryAsWritten` | webapp/backend/routes/query.py:121-132 | as written, the registry call raises the `progress_callback` TypeError, so a query neither served from the cache nor cancelled during the read ends failed with that text; nothing is logged and no row is added or changed in the table |
| `AggregateDomains.UpToSlash` | webapp/backend/data_providers/aggregate_domains.py:13 | the greedy `[^/]` run is a prefix without '/', and it stops only at a '/' |
| `AggregateDomains.HostAt` | webapp/backend/data_providers/aggregate_domains.py:13 | `([^/]+)` matches exactly when the text is non-empty and does not start with '/', and then gives a non-empty host without '/' |
| `AggregateDomains.BaseDomainMatches` | webapp/backend/data_providers/aggregate_domains.py:13-22 | the domain pattern matches exactly the texts that do not start with '/', and the domain it captures is non-empty and has no '/' |
| `AggregateDomains.BareHost` | webapp/backend/data_providers/aggregate_domains.py:13-22 | a host with no scheme and no "www." is its own domain, cut at the first '/' |
| `AggregateDomains.VariantsShareDomain` | webapp/backend/data_providers/aggregate_domains.py:9-22 | https/http, with or without "www.", all give the domain of the bare host, so the variants of one site fall in one group |
| `AggregateDomains.DomainFromFirstMatch` | webapp/backend/data_providers/aggregate_domains.py:16-23 | the domain comes from the earliest candidate field that is present and matches; there is none exactly when no candidate field matches |
| `AggregateDomains.FindDomain` | webapp/backend/data_providers/aggregate_domains.py:16-25 | the search loop over the candidate fields returns the row's domain as the first-match definition gives it |
| `AggregateDomains.OrderSpec` | webapp/backend/data_providers/aggregate_domains.py:12-29 | the grouped domains are distinct, a domain is listed exactly when some row has it, and exactly those domains have a non-empty group |
| `AggregateDomains.GroupSpec` | webapp/backend/data_providers/aggregate_domains.py:24-26 | every row with a domain lands in that domain's group, and a group holds only rows of its own domain |
| `AggregateDomains.Relabelled` | webapp/backend/data_providers/aggregate_domains.py:30-34 | relabelling keeps the first row's set of fields |
| `AggregateDomains.AggRowFields` | webapp/backend/data_providers/aggregate_domains.py:30-43 | the merged row has the first row's fields; candidate domain fields read the base domain; non-numeric fields are copied; numeric fields are the group's sum, or for position and ctr the mean over the rows that have them |
| `AggregateDomains.SumOfInts` | webapp/backend/data_providers/aggregate_domains.py:42-43 | summing an integer field gives the group's integer total, a missing field counting as 0 |
| `AggregateDomains.MeanOfInts` | webapp/backend/data_providers/aggregate_domains.py:38-41 | averaging an integer field divides the total by the number of rows where the field is present and not None |
| `AggregateDomains.AggregateFromSpec` | webapp/backend/data_providers/aggregate_domains.py:28-45 | one merged row per domain, in domain order, each the merge of that domain's group |
| `AggregateDomains.AggregateFromFails` | webapp/backend/data_providers/aggregate_domains.py:36-44 | once a merged row raises, the whole aggregation raises with that error |
| `AggregateDomains.AggregateOnePerDomain` | webapp/backend/data_providers/aggregate_domains.py:7-45 | the result has exactly one row per distinct domain, in order of first appearance, and every row with a domain is merged into its domain's row |
| `AggregateDomains.GroupByDomain` | webapp/backend/data_providers/aggregate_domains.py:12-26 | the grouping loop builds the groups and the first-seen domain order of the definition; rows without a domain are skipped |
| `AggregateDomains.AggregateGscDomainVariants` | webapp/backend/data_providers/aggregate_domains.py:7-45 | the grouping and merging loops return the aggregation the definitions describe |
| `Providers.TaggedFields` | webapp/backend/data_providers/ga4_provider.py:176-186 | tagging adds `_source` and `_source_name` with the given values, leaves every other field unchanged, and is idempotent |
| `Providers.NormalizeData` | webapp/backend/data_providers/ga4_provider.py:176-186 | every record of the frame gains its source fields, one output per input, in order |
| `Providers.PropertyOptions` | webapp/backend/data_providers/ga4_provider.py:77-97 | one picker option per listed property; a failed listing gives none |
| `Providers.PropertyOptionsRoundTrip` | webapp/backend/data_providers/ga4_provider.py:85-93 | each option's id and name read back as the property it was made from |
| `Providers.TagRows` | webapp/backend/data_providers/ga4_provider.py:127-129 | tagging a frame keeps its length and tags each row on its own |
| `Providers.JobsFor` | webapp/backend/data_providers/ga4_provider.py:110-160 | with property ids, one report per id named "Property_<id>" and untagged by name; without, one report per listed property under its own name, tagged with it; none when the listing failed |
| `Providers.ReportSeesSameNames` | webapp/backend/data_providers/ga4_provider.py:122-123 | joining the dimension and metric lists with ',' and splitting them in the report gives the same lists back |
| `Providers.ReportsFail` | webapp/backend/data_providers/ga4_provider.py:109-164 | once a report raises, the whole batch fails with that error |
| `Providers.AnyRaiseLosesAll` | webapp/backend/data_providers/ga4_provider.py:162-164 | a single report that raises discards the rows of every property, including the ones before it |
| `Providers.ReportsTagged` | webapp/backend/data_providers/ga4_provider.py:127-158 | every row of a successful batch carries the id of the property it came from, and that property's name when the job asks for it |
| `Providers.RunReports` | webapp/backend/data_providers/ga4_provider.py:114-131 | the batch loop returns the concatenated frames of the batch, or no rows when a report raised |
| `Providers.ExecuteGa4` | webapp/backend/data_providers/ga4_provider.py:99-174 | the provider's query returns the rows of the requested properties, or of every listed property, as the job definitions say |
| `Providers.DomainFilterArg` | webapp/backend/data_providers/gsc_provider.py:107 | a domain filter is passed exactly when exactly one domain is given, and it is that domain |
| `Providers.SeveralDomainsMeanAll` | webapp/backend/data_providers/gsc_provider.py:95-116 | two or more domains are fetched exactly like no domain filter at all |
| `Providers.SiteOptions` | webapp/backend/data_providers/gsc_provider.py:62-69 | each site entry becomes one option whose id, name and display name are its site URL |
| `Providers.SiteOptionsTotal` | webapp/backend/data_providers/gsc_provider.py:62-69 | entries that all carry a site URL always give options |
| `Providers.ListDomainsAlwaysEmpty` | webapp/backend/data_providers/gsc_provider.py:54-85 | as written, the domain listing is empty whatever the account holds |
| `Providers.ListDomainsListsSites` | webapp/backend/data_providers/gsc_provider.py:54-85 | with get_service given all its arguments, every site entry becomes one option keyed by its URL, and an account with a site tells the two versions apart |
| `Registry.GetProvider` | webapp/backend/data_providers/registry.py:16-28 | a provider is found exactly for the registered names "ga4" and "gsc", and each name gives its own provider |
| `Registry.KeepValidSpec` | webapp/backend/data_providers/registry.py:76-78 | the kept dimensions are exactly the requested ones that are valid, and an all-valid request is kept whole |
| `Registry.GscDimensionsSpec` | webapp/backend/data_providers/registry.py:76-81 | Search Console is asked only for dimensions it knows, never for none, with every valid requested dimension kept, and falls back to page when none is valid |
| `Registry.Normalized` | webapp/backend/data_providers/registry.py:72-92 | normalising keeps one record per input |
| `Registry.CollectAppend` | webapp/backend/data_providers/registry.py:52-98 | sources contribute independently: the lists for two runs of sources are the lists of each, appended |
| `Registry.CollectOne` | webapp/backend/data_providers/registry.py:52-98 | a one-source query collects exactly that source's rows |
| `Registry.SilentSourceSkipped` | webapp/backend/data_providers/registry.py:53-56 | an unknown source, or one whose call raised, leaves the collected rows as if it had not been asked for |
| `Registry.WithoutGscNoMerge` | webapp/backend/data_providers/registry.py:74-92 | a query without "gsc" collects no Search Console rows, so nothing is merged |
| `Registry.ExecuteUnifiedQuery` | webapp/backend/data_providers/registry.py:42-105 | the loop and the merge return the GA4 records followed by the Search Console ones merged by domain, as the definition says |
| `McpAuth.LookupSpec` | mcp_auth.py:12-18 | a header or query lookup finds a value exactly when some pair has that name, and then it is the value of the last such pair, as building a dict keeps it |
| `McpAuth.LowerNames` | mcp_auth.py:12 | the case-insensitive header table keeps every header, in order, with its name lower-cased and its value untouched |
| `McpAuth.HeaderCaseInsensitive` | mcp_auth.py:10-18 | two header lists that differ only in the case of their names give the same lookups |
| `McpAuth.RawHeader` | mcp_auth.py:17-18 | the raw header is Authorization when non-empty, else X-API-Key when non-empty, else X-Auth-Token; it is non-empty exactly when one of the three is |
| `McpAuth.HeaderKeySpec` | mcp_auth.py:20-27 | a non-empty raw header gives a key: what follows "Bearer " (any case) when it starts so, otherwise the whole header |
| `McpAuth.BearerAloneIsEmpty` | mcp_auth.py:24-27 | a header that is just "Bearer " gives the empty key |
| `McpAuth.ExtractKeys` | mcp_auth.py:5-37 | the raw header is the preferred header; a header key exists exactly when that header is non-empty; the query key is the 'key' parameter |
| `McpAuth.TokenPrecedence` | mcp_auth.py:40-49 | a non-empty header key wins with method "header"; otherwise a non-empty query key gives "url_param"; a method is reported exactly when the token is non-empty |
| `McpAuth.EmptyBearerFallsBackToQuery` | mcp_auth.py:20-49 | a bare "Bearer " header yields an empty header key, so a non-empty query key is used instead |
| `McpAuth.KeptParts` | mcp_auth.py:73 | the kept parameters are exactly the original ones that are non-empty and do not start with 'key=', and there are no more of them |
| `McpAuth.KeptPartsKeepsKept` | mcp_auth.py:73 | filtering parameters that are all kept already changes nothing |
| `McpAuth.StripKeySpec` | mcp_auth.py:72-74 | no parameter of the stripped query string is empty or a 'key=' one, and every other parameter of the original is still there |
| `McpAuth.StripKeyIdempotent` | mcp_auth.py:72-74 | stripping a stripped query string gives it back unchanged |
| `McpAuth.Stripped` | mcp_auth.py:61-75 | the new query string is always bytes |
| `McpAuth.StrippedIdempotent` | mcp_auth.py:61-75 | with UTF-8 decoding inverting encoding, stripping the scope twice gives what stripping once gives |
| `McpAuth.Scope.constructor` | mcp_auth.py:58 | a scope starts with the given query string, or none |
| `McpAuth.StripKeyParamFromScope` | mcp_auth.py:52-75 | a scope with a query string gets the stripped bytes in its place; a scope without one, or no scope, is left as it was |
| `McpServer.ResolveDatesSpec` | mcp_server.py:264-271 | each missing date comes from the default 30-day window, a given date is used as given, and with both missing the range passes the date check |
| `McpServer.DomainFilterAsWrittenMatchesEmpty` | mcp_server.py:282-285 | the filter written as 'hostname==domain' is read by the report as a hostname equal to the empty string, whatever the domain |
| `McpServer.DomainFilterSelectsDomain` | mcp_server.py:282-285 | the corrected 'hostname=domain' filter selects the hostname equal to the domain |
| `McpServer.RowValues` | mcp_server.py:336 | the records of the frame become one JSON object per row |
| `McpServer.DataPayloadCounts` | mcp_server.py:331-339 | a success reply has status "success", carries every row in order and counts them in row_count |
| `McpServer.Ga4Reply` | mcp_server.py:331-345 | the GA4 reply fails exactly when the fetch raised, with INTERNAL_ERROR and its message; no rows give the plain sentence; rows give one success dict with all of them and their count |
| `McpServer.QueryGa4Data` | mcp_server.py:258-345 | with the corrected 'hostname=' domain filter: no auth identifier or a bad range fails with INVALID_PARAMS; a given property id gives the reply for its single "MCP_Property" report; otherwise a raising listing fails with INTERNAL_ERROR "GA4 query failed: " and its message, no properties give the plain sentence, and else the reply is that of the tagged fan-out over every listed property; a reply is always a single content |
| `McpServer.Ga4RejectsBeforeFetch` | mcp_server.py:258-274 | a missing auth identifier or a bad date range fails with INVALID_PARAMS before any service is asked, whatever the services would answer |
| `McpServer.Ga4RowsTagged` | mcp_server.py:302-329 | with no property id, every returned row is tagged with one of the listed properties |
| `McpServer.HandleQueryGa4Data` | mcp_server.py:258-345 | with the corrected 'hostname=' domain filter, the tool with its loop over properties gives the reply the definition describes |
| `McpServer.QueryGscData` | mcp_server.py:347-395 | a bad range fails with INVALID_PARAMS before any fetch; a fetch that raises fails with INTERNAL_ERROR and its message; no rows give the plain sentence; rows give a success dict with all of them, their count and the domain |
| `McpServer.GatherAccounts` | mcp_server.py:421-457 | each requested source adds exactly one content or one error |
| `McpServer.LoadAllAsWritten` | mcp_server.py:468-474 | decoding the collected replies succeeds exactly when every one of them is a JSON document |
| `McpServer.UnifiedStatus` | mcp_server.py:459-477 | the unified tool fails exactly when no source answered and some failed, with the errors joined by "; "; otherwise the status is partial_success exactly when some source failed, and there is one result per answering source |
| `McpServer.NoPropertiesBreakUnifiedAsWritten` | mcp_server.py:424-477 | as written, an account with no GA4 properties makes the default unified query fail on decoding the plain sentence, while the corrected version answers |
| `McpServer.HandleQueryUnifiedData` | mcp_server.py:397-477 | the unified tool, accumulating results and errors, gives the reply the corrected definition describes |
| `McpServer.ListGa4Properties` | mcp_server.py:479-499 | no auth identifier fails with INVALID_PARAMS; otherwise it fails exactly when the listing raised, with INTERNAL_ERROR, and an empty listing gives the plain sentence |
| `McpServer.ListedPropertiesRoundTrip` | mcp_server.py:488-495 | every listed property comes back, in order, as a record naming its id and name |
| `McpServer.ListGscDomains` | mcp_server.py:501-518 | it fails exactly when the site listing raised, with INTERNAL_ERROR; no sites give the plain sentence; otherwise every site comes back, in order |
| `McpServer.HandleCallTool` | mcp_server.py:238-256 | with the GA4 tool's corrected domain filter and `JSONRPCError` taken as an exception of (code, message): every failure is re-raised as INTERNAL_ERROR with "Tool execution failed: " before the handler's message; a success is the selected handler's reply |
| `McpServer.UnknownToolIsInternalError` | mcp_server.py:252-256 | an unknown tool name fails with INTERNAL_ERROR, not METHOD_NOT_FOUND |
| `McpServer.KnownToolDispatched` | mcp_server.py:242-251 | a known tool name always reaches its handler, never the unknown-tool error |

## Left out

- Google APIs, OAuth and credential files, and `get_service` are parameters. So are SHA-256, `json.dumps`, `hash()`, `str()` of non-string values, and float parsing. Nothing is claimed about their results beyond what the callers rely on.
- `hash()` of strings is salted per process. The persistent-cache keys are therefore only compared within one run.
- Concurrency is modelled as sequential loops in source order: `asyncio.gather`, the `Semaphore(3)` fan-out, thread pools and their five-minute timeouts, and locks. A timeout counts as one more way of getting the empty result.
- Cancels are not modelled as racing with completion. A cancel that arrives while the background task is suspended is read from a `cancelAt` parameter at each checkpoint.
- WebSocket broadcasts, FastAPI and uvicorn wiring, the MCP tool schemas, the UI modules and the CLI `__main__` blocks are left out. They are wiring or I/O.
- File I/O is left out: Excel and CSV export, `save_search_console_data`, and the preset routes.
- Floating point is left out: the `hit_rate` percentage and the averages in the cache statistics, `execution_time_ms`, and NaN-filling when frames with different columns are concatenated. The `position`/`ctr` mean of the domain merge is computed over reals.
- An empty frame and `None` are both modelled as "no rows". The two are told apart only where the code does so.
- The JSON round trip through `json.dumps`/`json.loads` of a reply is taken as the identity. `str()` of a `JSONRPCError` is taken as its message, and `str()` of an `HTTPException` as "code: detail".
- Debug flags and logging do not change any result and are ignored.
- The progress messages of the background query are modelled as short fixed texts.
- The FastAPI 422 response body for a quick endpoint's `days` outside 1..365 is not modelled. Only the status code is.
- The simplified API's two listing endpoints (`/ga4/properties`, `/gsc/domains`) are not modelled. They repeat the MCP listing tools with HTTP status codes.
- The providers' `get_metadata` is reduced to the constant list of Search Console dimension ids that the registry filters against.
- UTF-8 decoding and encoding of the query string are parameters. `str.lower()` is modelled for ASCII letters only.
- `Dates.ParseDate`: the date text is read as `strptime('%Y-%m-%d')` reads ASCII digits, so one-digit months and days such as "2024-1-1" are accepted. The code is followed here over the expectation in test_simplified_api.py:60.
- `Dates.ParseDate`, `Dates.ValidateDateRange`, `Dates.DateRanges`: non-ASCII decimal digits are not modelled. `strptime` reads its fields with `\d`, which matches any Unicode decimal digit, and `int()` converts them, so Python accepts "٢٠٢٤-01-01" as 2024-01-01. The model accepts only '0' to '9' and rejects that text.
- `Dates.FormatDate`: the year is always zero-padded to four digits, as CPython does on every platform since the gh-120713 fix. Earlier CPython versions on glibc write a year below 1000 without padding; a "0999-01" month given to `generate_date_ranges` would show the difference.
- `GscSites.ListSites`, `Ga4Report.ListProperties`: both are wrapped by a `persistent_cache` of seven days (NewDownloads.py:214, GA4query3.py:247). That wrapper is the one `DiskStore.Store.CallMemoized` models, with these functions as its called function and 604800 s as its expiry. The two methods model one uncached call.
- `DiskStore.Store.CallMemoized`: an unhashable argument, or a store read or write that raises, raises out of the `persistent_cache` wrapper, as the code has it. None of these faults degrades to a plain recomputation.
- `Registry.ExecuteUnifiedQuery`: the background task passes a `progress_callback` that is not part of the registry's signature, so as written every registry call from the task raises a TypeError (see Findings and `QueryRoutes.QueryManager.ExecuteQueryAsWritten`). `QueryRoutes.QueryManager.RunProviders`, `RunStarted` and `ExecuteQueryBackground` model the call as intended, with its outcome as the `provider` parameter. The sub-progress messages the callback would post are not modelled.
- `McpServer.HandleQueryGa4Data`: the GA4 tool is modelled with the corrected 'hostname=' domain filter of `McpServer.DomainFilter`. As written it sends 'hostname==' (see Findings). `McpServer.QueryGa4Data` and the dispatcher use the same corrected filter.
- `McpServer.HandleQueryUnifiedData`, `McpServer.UnifiedStatus`: the unified tool is modelled as intended. A source that answers with its plain "No ... found" sentence counts as answered. As written, `json.loads` of that sentence raises and fails the whole tool; that is the Findings row for mcp_server.py:459-475, modelled by `McpServer.NoPropertiesBreakUnifiedAsWritten`.
- `McpServer.HandleCallTool`: `JSONRPCError` is treated as an exception that carries (code, message), and its `str()` as the message. In the MCP SDK it is a response model, not an exception, and the SDK is not part of this model. The behaviour of `raise JSONRPCError(code, message)` as the SDK would execute it is therefore not captured.
- `Urls.CheckBrackets`: the bracketed-host validation of Python 3.11.4 and later is not modelled. That validation rejects a bracketed host that is not an IPv6 or IPvFuture address, such as "https://[abc]/". The model accepts any well-bracketed host, as earlier Python versions do.
- `CacheKeys.PersistentKey`: the typed key hashes the `type` objects of the arguments, and the model hashes their names. Two distinct classes with the same `__name__` share a typed key in the model, but not in Python.
- `DiskStore.Store.SafeSet`, `DiskStore.Store.ValidateOperations`, `DiskStore.Store.GetCacheStats`, `DiskStore.Store.CallMemoized`: the store's culling and eviction are not modelled. A diskcache `set` also removes up to ten expired entries, and, with the 500 MB `size_limit` of NewDownloads.py:37 and GA4query3.py:24, evicts the least recently stored live entries once that limit is exceeded. In the model a write changes only its own key, expired entries stay counted until deleted, and the size reported by `len(cache)` is the number of entries the model keeps.
- `DiskStore.Store.GetCacheStats`: the optional `volume_info` and `detailed_stats` keys of cache_utils.py:191-201 are not modelled. They report diskcache's own disk usage and hit counters, which the model does not keep.
- `DiskStore.Store.ClearFunction`: `del cache[key]` is unguarded. A listed key that has already expired, or expires before it is deleted, makes the store raise KeyError out of the clear. The model deletes every listed key.
- `QueryRoutes.QueryManager.RunStarted`, `QueryRoutes.QueryManager.ExecuteQueryBackground`: a cached response whose 'data' is not a list is modelled as the KeyError "'data'", which fails the query. Python's `len()` would also accept a string or dict there and complete the query. The query routes only ever store responses whose 'data' is a list of rows, so their own entries never reach that case.
- `QueryRoutes.QueryManager.ExecuteQueryBackground`: one `now` and one `storeFails` stand for the cache read, the store and the log of a run. The model does not capture a clock that advances between them, or a database that fails for one of these calls and not another.
- `Ga4Report.ReportFrame`: the pandas ValueError for a row of the wrong length is modelled as one fixed text. pandas includes the column counts in its message.
- `Urls.Hostname`: the NFKC check of `urlsplit` on a non-ASCII netloc is not modelled. Python raises ValueError when normalising such a netloc introduces one of '/', '?', '#', '@' or ':'. The model reads such a netloc as is.
- `ResultSort.SortAll`: when the numeric sort raises part-way, CPython may leave the list partly reordered, and the `str()` fallback then breaks ties from that order. The model breaks ties from the input order. A field whose values are all lists is modelled as the text sort.

## Findings

| source | as written | input that shows it | evidently intended | confidence | as-written member | corrected member |
|---|---|---|---|---|---|---|
| webapp/backend/data_providers/gsc_provider.py:74-85 | `_get_domains_sync` calls `get_service` with three arguments where four are required; the resulting TypeError is caught and the listing is always empty | any account with at least one site entry | every site entry becomes an option keyed by its site URL | not executed | `Providers.ListDomainsAlwaysEmpty` | `Providers.ListDomainsListsSites` |
| mcp_server.py:283-285 | the domain filter is written `hostname=={domain}`, and `produce_report` splits on '=' and so reads the value as the empty string | `domain_filter` = "example.com" | a filter on the hostname equal to the domain (`hostname=example.com`) | not executed | `McpServer.DomainFilterAsWrittenMatchesEmpty` | `McpServer.DomainFilterSelectsDomain` |
| webapp/backend/routes/query.py:121-132 | the background task calls `execute_unified_query` with `progress_callback=...`, a keyword the registry method (webapp/backend/data_providers/registry.py:42-46) does not accept; the TypeError is caught and the query fails | any query that is not a non-debug cache hit and is not cancelled while the cache is read | the registry is called with the request's fields only, and the query completes with the final rows, which are cached and logged | not executed | `QueryRoutes.QueryManager.ExecuteQueryAsWritten` | `QueryRoutes.QueryManager.ExecuteQueryBackground` |
| mcp_server.py:459-475 | every collected reply is passed to `json.loads`, including the plain-text "No ... found" sentences, which are not JSON | a default unified query for an account with no GA4 properties | a source that found nothing is reported by its sentence and the reply still succeeds | not executed | `McpServer.NoPropertiesBreakUnifiedAsWritten` | `McpServer.UnifiedStatus` |
