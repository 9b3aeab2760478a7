/** Fetching Search Console rows site by site: the retry loop with exponential
    backoff, tagging of the returned rows with their site, splitting of
    multi-dimension keys (NewDownloads.py), and the serial fetch with its
    progress events (NewDownloads_clean.py). The query call itself is an
    oracle `reply(site, attempt)`. */
module GscFetch {
  import opened Base
  import opened Strings
  import Ordering
  import GscSites

  // ---------------------------------------------------------------------------
  // Retry classification and backoff

  /** The words whose presence in an error message makes it worth retrying. */
  const RetryWords: seq<string> := ["rate", "quota", "timeout", "internal error", "500", "503", "429"]

  /** `word` occurs at the start of `s` once `s` is lower-cased. */
  predicate StartsWithLower(s: string, word: string)
  {
    |word| <= |s| && forall i :: 0 <= i < |word| ==> LowerChar(s[i]) == word[i]
  }

  /** `word in s.lower()`, scanning `s` without building the lower-cased copy. */
  predicate ContainsLower(s: string, word: string)
    decreases |s|
  {
    StartsWithLower(s, word) || (s != [] && ContainsLower(s[1..], word))
  }

  /** Whether `s.lower()` contains one of `words`. */
  predicate ContainsAnyLower(s: string, words: seq<string>)
  {
    words != [] && (ContainsLower(s, words[0]) || ContainsAnyLower(s, words[1..]))
  }

  /** An error is retried iff its lower-cased text contains one of the words. */
  predicate Retryable(error: string)
  {
    ContainsAnyLower(error, RetryWords)
  }

  lemma {:induction false} ContainsLowerMeaning(s: string, word: string)
    ensures ContainsLower(s, word) <==> Contains(Lower(s), word)
    decreases |s|
  {
    assert StartsWithLower(s, word) <==> StartsWith(Lower(s), word) by {
      if |word| <= |s| {
        if StartsWithLower(s, word) {
          assert Lower(s)[..|word|] == word;
        }
        if StartsWith(Lower(s), word) {
          forall i | 0 <= i < |word| ensures LowerChar(s[i]) == word[i] {
            assert Lower(s)[..|word|][i] == word[i];
          }
        }
      }
    }
    if s != [] {
      ContainsLowerMeaning(s[1..], word);
      assert Lower(s)[1..] == Lower(s[1..]);
    }
  }

  lemma {:induction false} ContainsAnyLowerMeaning(s: string, words: seq<string>)
    ensures ContainsAnyLower(s, words) <==> exists i :: 0 <= i < |words| && Contains(Lower(s), words[i])
  {
    if words != [] {
      ContainsLowerMeaning(s, words[0]);
      ContainsAnyLowerMeaning(s, words[1..]);
      if exists i :: 0 <= i < |words| && Contains(Lower(s), words[i]) {
        var i :| 0 <= i < |words| && Contains(Lower(s), words[i]);
        if i > 0 { assert words[1..][i - 1] == words[i]; }
      }
    }
  }

  /** The retry test is a keyword search in the lower-cased message. */
  lemma RetryableMeaning(error: string)
    ensures Retryable(error) <==> exists i :: 0 <= i < |RetryWords| && Contains(Lower(error), RetryWords[i])
  {
    ContainsAnyLowerMeaning(error, RetryWords);
  }

  function Pow2(n: nat): (p: nat)
    ensures p >= 1
  {
    if n == 0 then 1 else 2 * Pow2(n - 1)
  }

  /** The wait before retry number `retry` (1 for the first retry). */
  function Backoff(retryDelay: nat, retry: nat): nat
    requires retry >= 1
  {
    retryDelay * Pow2(retry - 1)
  }

  // ---------------------------------------------------------------------------
  // Data frames


  /** `df.insert(0, name, value)`: a new first column holding `value` in every
      row; pandas refuses a column that already exists. */
  function InsertColumn(t: Table, name: string, v: Value): Result<Table>
  {
    if name in t.columns then Err(InsertError(name))
    else Ok(Table([name] + t.columns, seq(|t.rows|, i requires 0 <= i < |t.rows| => t.rows[i][name := v])))
  }

  /** The text of pandas' error for a duplicate column. */
  function InsertError(name: string): string
  {
    "cannot insert " + name + ", already exists"
  }

  /** Result of tagging: the tagged frame, or the error with the frame as far
      as it got (the clean fetch keeps that partial frame). */
  datatype Build = Built(frame: Table) | BuildFailed(error: string, partial: Table)

  /** Insert `siteUrl`, then `rootDomain`, both at position 0. */
  function TagRows(t: Table, siteUrl: string, rootDomain: string): (b: Build)
    ensures b.Built? <==> "siteUrl" !in t.columns && "rootDomain" !in t.columns
    ensures b.Built? ==>
      && b.frame.columns == ["rootDomain", "siteUrl"] + t.columns
      && |b.frame.rows| == |t.rows|
      && forall i :: 0 <= i < |t.rows| ==>
           b.frame.rows[i] == t.rows[i]["siteUrl" := VStr(siteUrl)]["rootDomain" := VStr(rootDomain)]
    ensures "siteUrl" in t.columns ==> b == BuildFailed(InsertError("siteUrl"), t)
    ensures b.BuildFailed? ==> |b.partial.rows| == |t.rows|
  {
    match InsertColumn(t, "siteUrl", VStr(siteUrl))
    case Err(e) => BuildFailed(e, t)
    case Ok(t1) =>
      match InsertColumn(t1, "rootDomain", VStr(rootDomain))
      case Err(e) => BuildFailed(e, t1)
      case Ok(t2) => Built(t2)
  }

  // ---------------------------------------------------------------------------
  // Multi-dimension keys (NewDownloads.py)

  /** The value of a decimal text, the inverse of `NatToString`. */
  function DigitsValue(s: string): int
  {
    if s == [] then 0 else DigitsValue(s[..|s| - 1]) * 10 + (s[|s| - 1] as int - '0' as int)
  }

  lemma {:induction false} DigitsValueOfNat(n: nat)
    ensures DigitsValue(NatToString(n)) == n
  {
    if n >= 10 {
      DigitsValueOfNat(n / 10);
      var s := NatToString(n);
      assert s[..|s| - 1] == NatToString(n / 10);
    }
  }

  /** The name of the j-th key column, `key-j`. */
  function KeyColumn(j: nat): string
  {
    "key-" + NatToString(j)
  }

  /** Distinct positions give distinct column names. */
  lemma KeyColumnInjective(i: nat, j: nat)
    requires KeyColumn(i) == KeyColumn(j)
    ensures i == j
  {
    assert NatToString(i) == KeyColumn(i)[4..] == KeyColumn(j)[4..] == NatToString(j);
    DigitsValueOfNat(i);
    DigitsValueOfNat(j);
  }

  predicate IsKeyColumn(c: string, n: nat)
  {
    exists j :: 1 <= j <= n && c == KeyColumn(j)
  }

  /** Column names after assigning `df[c] = ...` for each `c` of `extra`: an
      existing column keeps its place, a new one is appended. */
  function AddColumns(cols: seq<string>, extra: seq<string>): (r: seq<string>)
    ensures |cols| <= |r| && r[..|cols|] == cols
    ensures forall c :: c in r <==> c in cols || c in extra
    decreases |extra|
  {
    if extra == [] then cols
    else
      var next := if extra[0] in cols then cols else cols + [extra[0]];
      var r := AddColumns(next, extra[1..]);
      assert r[..|cols|] == r[..|next|][..|cols|];
      assert forall c :: c in extra <==> c == extra[0] || c in extra[1..];
      r
  }

  function KeyColumns(n: nat): (cs: seq<string>)
    ensures |cs| == n
    ensures forall j :: 1 <= j <= n ==> cs[j - 1] == KeyColumn(j)
  {
    if n == 0 then [] else KeyColumns(n - 1) + [KeyColumn(n)]
  }

  /** Key j of a row, or None (NaN) for a row with fewer keys. */
  function KeyValue(keys: seq<Value>, j: nat): Value
  {
    if j < |keys| then keys[j] else VNone
  }

  /** A row with `key-1` .. `key-n` set from its key list. */
  function WithKeys(r: Record, keys: seq<Value>, n: nat): (r': Record)
    ensures forall j :: 1 <= j <= n ==> KeyColumn(j) in r' && r'[KeyColumn(j)] == KeyValue(keys, j - 1)
    ensures forall c :: c in r' <==> c in r || IsKeyColumn(c, n)
    ensures forall c :: c in r && !IsKeyColumn(c, n) ==> r'[c] == r[c]
  {
    if n == 0 then r
    else
      var inner := WithKeys(r, keys, n - 1);
      forall j | 1 <= j < n ensures KeyColumn(j) != KeyColumn(n) {
        if KeyColumn(j) == KeyColumn(n) { KeyColumnInjective(j, n); }
      }
      inner[KeyColumn(n) := KeyValue(keys, n - 1)]
  }

  /** The number of key columns: the length of the first row's key list. */
  function KeyCount(t: Table): nat
  {
    if t.rows == [] || "keys" !in t.columns then 0
    else
      match GetOr(t.rows[0], "keys", VNone)
      case VList(ks) => |ks|
      case _ => 0
  }

  /** Every row holds a key list no longer than `n`; otherwise building the key
      frame raises. */
  predicate KeysFit(t: Table, n: nat)
  {
    forall i :: 0 <= i < |t.rows| ==>
      "keys" in t.rows[i] && t.rows[i]["keys"].VList? && |t.rows[i]["keys"].items| <= n
  }

  /** The multi-dimension fix of `_process_single_site_async`: a frame whose
      key lists can be split gains `key-1` .. `key-n`; when splitting raises,
      the error is swallowed and the frame is kept as it was. */
  function SplitKeys(t: Table): (r: Table)
    ensures |r.rows| == |t.rows|
    ensures |t.columns| <= |r.columns| && r.columns[..|t.columns|] == t.columns
  {
    var n := KeyCount(t);
    if n == 0 || !KeysFit(t, n) then t
    else Table(AddColumns(t.columns, KeyColumns(n)),
               seq(|t.rows|, i requires 0 <= i < |t.rows| && KeysFit(t, n) =>
                     WithKeys(t.rows[i], t.rows[i]["keys"].items, n)))
  }

  /** When every key list fits, key j of each row lands in column `key-j`,
      shorter lists are padded with None, and the other fields are kept. */
  lemma SplitKeysSpec(t: Table, i: nat, j: nat)
    requires KeyCount(t) > 0 && KeysFit(t, KeyCount(t))
    requires i < |t.rows| && 1 <= j <= KeyCount(t)
    ensures KeyColumn(j) in SplitKeys(t).columns
    ensures SplitKeys(t).rows[i][KeyColumn(j)] == KeyValue(t.rows[i]["keys"].items, j - 1)
    ensures forall c :: c in t.rows[i] && !IsKeyColumn(c, KeyCount(t)) ==> SplitKeys(t).rows[i][c] == t.rows[i][c]
  {
    assert KeyColumns(KeyCount(t))[j - 1] == KeyColumn(j);
  }

  /** A first row with n keys makes n key columns. */
  lemma KeyCountOfFirstRow(t: Table, keys: seq<Value>)
    requires t.rows != [] && "keys" in t.columns
    requires "keys" in t.rows[0] && t.rows[0]["keys"] == VList(keys)
    ensures KeyCount(t) == |keys|
  {
  }

  /** A row whose key list is longer than the first row's makes splitting fail,
      and the frame is returned unchanged. */
  lemma LongerKeysLeaveFrame(t: Table, i: nat)
    requires i < |t.rows| && KeyCount(t) > 0
    requires "keys" in t.rows[i] && t.rows[i]["keys"].VList?
    requires |t.rows[i]["keys"].items| > KeyCount(t)
    ensures SplitKeys(t) == t
  {
  }

  // ---------------------------------------------------------------------------
  // One site: attempts and retries

  /** What one query attempt gives: an exception, or a reply whose `rows`
      entry is absent (None) or a frame. */
  datatype Reply = Raised(error: string) | Answered(rows: Option<Table>)

  /** The fixed inputs of one site's query: its position in the fetch (the
      oracle's first argument), its URL and root domain, whether keys are
      split, and the retry settings. */
  datatype Query = Query(site: nat, siteUrl: string, rootDomain: string, splitKeys: bool,
                         maxRetries: int, retryDelay: nat)

  /** How one attempt ends: the loop stops with a frame (or with none, when
      the reply had no rows), or the attempt raised; `partial` is the frame as
      far as tagging got when the exception came from tagging. */
  datatype Outcome = Done(frame: Option<Table>) | Failed(error: string, partial: Option<Table>)

  function AttemptOutcome(reply: Reply, q: Query): (o: Outcome)
    ensures o.Done? && o.frame.Some? ==> reply.Answered? && reply.rows.Some? && reply.rows.value.rows != []
    ensures reply.Raised? ==> o == Failed(reply.error, None)
  {
    match reply
    case Raised(e) => Failed(e, None)
    case Answered(rows) =>
      if rows.None? || rows.value.rows == [] then Done(None)
      else
        var t := if q.splitKeys then SplitKeys(rows.value) else rows.value;
        match TagRows(t, q.siteUrl, q.rootDomain)
        case Built(f) => Done(Some(f))
        case BuildFailed(e, p) => Failed(e, Some(p))
  }

  /** The run of attempts from attempt `k` on: the frame it ends with, the last
      partial frame, the backoff sleeps between attempts and the number of
      calls made so far (attempts 0 .. calls - 1). */
  datatype SiteRun = SiteRun(frame: Option<Table>, partial: Option<Table>, sleeps: seq<int>, calls: nat)

  function Attempts(reply: (nat, nat) -> Reply, q: Query, k: nat): SiteRun
    requires k <= q.maxRetries
    decreases q.maxRetries - k
  {
    match AttemptOutcome(reply(q.site, k), q)
    case Done(f) => SiteRun(f, None, [], k + 1)
    case Failed(e, p) =>
      if k + 1 <= q.maxRetries && Retryable(e) then
        var r := Attempts(reply, q, k + 1);
        SiteRun(r.frame, if r.partial.Some? then r.partial else p, [Backoff(q.retryDelay, k + 1)] + r.sleeps, r.calls)
      else SiteRun(None, p, [], k + 1)
  }

  /** The whole run for one site; a negative retry limit makes no call. */
  function RunSite(reply: (nat, nat) -> Reply, q: Query): SiteRun
  {
    if q.maxRetries < 0 then SiteRun(None, None, [], 0) else Attempts(reply, q, 0)
  }

  /** The frame the clean fetch keeps: the final frame, else the last partial
      one, else what it held before. */
  function Kept(r: SiteRun, before: Option<Table>): Option<Table>
  {
    if r.frame.Some? then r.frame else if r.partial.Some? then r.partial else before
  }

  /** At most `maxRetries + 1` calls, and the sleep before retry number m is
      `retryDelay * 2^(m-1)`. */
  lemma {:induction false} AttemptsBounds(reply: (nat, nat) -> Reply, q: Query, k: nat)
    requires k <= q.maxRetries
    ensures var r := Attempts(reply, q, k);
      && k + 1 <= r.calls <= q.maxRetries + 1
      && |r.sleeps| == r.calls - k - 1
      && forall m :: 0 <= m < |r.sleeps| ==> r.sleeps[m] == Backoff(q.retryDelay, k + 1 + m)
    decreases q.maxRetries - k
  {
    var o := AttemptOutcome(reply(q.site, k), q);
    if o.Failed? && k + 1 <= q.maxRetries && Retryable(o.error) {
      AttemptsBounds(reply, q, k + 1);
    }
  }

  /** Every attempt before the last one raised a retryable error. */
  lemma {:induction false} RetriedOnlyOnRetryable(reply: (nat, nat) -> Reply, q: Query, k: nat, m: nat)
    requires k <= m && k <= q.maxRetries
    requires m + 1 < Attempts(reply, q, k).calls
    ensures AttemptOutcome(reply(q.site, m), q).Failed?
    ensures Retryable(AttemptOutcome(reply(q.site, m), q).error)
    decreases m - k
  {
    if k < m {
      RetriedOnlyOnRetryable(reply, q, k + 1, m);
    }
  }

  /** The run stops at its last attempt because that attempt ended the loop,
      raised a non-retryable error, or used up the retries. */
  lemma {:induction false} LastAttemptStops(reply: (nat, nat) -> Reply, q: Query, k: nat)
    requires k <= q.maxRetries
    ensures var r := Attempts(reply, q, k);
      r.calls >= 1 &&
      var o := AttemptOutcome(reply(q.site, r.calls - 1), q);
      o.Done? || r.calls > q.maxRetries || !Retryable(o.error)
    decreases q.maxRetries - k
  {
    var o := AttemptOutcome(reply(q.site, k), q);
    if o.Failed? && k + 1 <= q.maxRetries && Retryable(o.error) {
      LastAttemptStops(reply, q, k + 1);
    }
  }

  /** A frame comes only from the last attempt, whose reply had rows and whose
      tagging succeeded; it then starts with `rootDomain` and `siteUrl`. */
  lemma {:induction false} FrameFromLastReply(reply: (nat, nat) -> Reply, q: Query, k: nat)
    requires k <= q.maxRetries
    requires Attempts(reply, q, k).frame.Some?
    ensures var r := Attempts(reply, q, k);
      r.calls >= 1 &&
      var last := reply(q.site, r.calls - 1);
      && last.Answered? && last.rows.Some? && last.rows.value.rows != []
      && AttemptOutcome(last, q) == Done(r.frame)
      && r.frame.value.columns[..2] == ["rootDomain", "siteUrl"]
    decreases q.maxRetries - k
  {
    var o := AttemptOutcome(reply(q.site, k), q);
    if o.Failed? {
      FrameFromLastReply(reply, q, k + 1);
    } else {
      var t := reply(q.site, k).rows.value;
      var t' := if q.splitKeys then SplitKeys(t) else t;
      assert TagRows(t', q.siteUrl, q.rootDomain).Built?;
    }
  }

  /** The backoff sleeps before retries 1 to `n`. */
  function Backoffs(retryDelay: nat, n: nat): seq<int>
  {
    if n == 0 then [] else Backoffs(retryDelay, n - 1) + [Backoff(retryDelay, n)]
  }

  lemma {:induction false} BackoffsSpec(retryDelay: nat, n: nat)
    ensures |Backoffs(retryDelay, n)| == n
    ensures forall m :: 0 <= m < n ==> Backoffs(retryDelay, n)[m] == Backoff(retryDelay, m + 1)
  {
    if n > 0 {
      BackoffsSpec(retryDelay, n - 1);
    }
  }

  lemma SameBackoffs(a: seq<int>, b: seq<int>, retryDelay: nat)
    requires |a| == |b|
    requires forall m :: 0 <= m < |a| ==> a[m] == Backoff(retryDelay, m + 1)
    requires forall m :: 0 <= m < |b| ==> b[m] == Backoff(retryDelay, m + 1)
    ensures a == b
  {
  }

  /** The backoffs of as many retries as the run made are the run's sleeps. */
  lemma RunSiteSleeps(reply: (nat, nat) -> Reply, q: Query, backoffs: seq<int>)
    requires q.maxRetries >= 0
    requires backoffs == Backoffs(q.retryDelay, |backoffs|)
    requires |backoffs| + 1 == RunSite(reply, q).calls
    ensures backoffs == RunSite(reply, q).sleeps
  {
    AttemptsBounds(reply, q, 0);
    BackoffsSpec(q.retryDelay, |backoffs|);
    SameBackoffs(backoffs, RunSite(reply, q).sleeps, q.retryDelay);
  }

  /** One pass of the attempt loop of NewDownloads.py: a reply ends the loop
      with its frame; an error is retried when it is retryable and retries
      remain, and otherwise ends the loop with no frame. */
  method PlainAttempt(reply: (nat, nat) -> Reply, q: Query, attempt: nat)
    returns (frame: Option<Table>, retry: bool)
    requires attempt <= q.maxRetries
    ensures var a := Attempts(reply, q, attempt);
      !retry ==> a.frame == frame && a.calls == attempt + 1
    ensures var a := Attempts(reply, q, attempt);
      retry ==> (attempt + 1 <= q.maxRetries && frame.None?
                 && a.frame == Attempts(reply, q, attempt + 1).frame
                 && a.calls == Attempts(reply, q, attempt + 1).calls)
  {
    var outcome := AttemptOutcome(reply(q.site, attempt), q);
    if outcome.Done? {
      return outcome.frame, false;
    }
    frame := None;
    retry := attempt + 1 <= q.maxRetries && Retryable(outcome.error);
  }

  /** `_process_single_site_async` of NewDownloads.py: the optional initial
      wait, then attempts with a backoff sleep before each retry. */
  method ProcessSingleSite(reply: (nat, nat) -> Reply, q: Query, waitSeconds: int)
    returns (frame: Option<Table>, sleeps: seq<int>, calls: nat)
    ensures var r := RunSite(reply, q);
      && frame == r.frame
      && calls == r.calls
      && sleeps == (if waitSeconds > 0 then [waitSeconds] else []) + r.sleeps
  {
    var backoffs: seq<int> := [];
    frame := None;
    calls := 0;
    var retryCount: nat := 0;
    ghost var run := RunSite(reply, q);
    while retryCount <= q.maxRetries
      invariant retryCount == 0 || retryCount <= q.maxRetries
      invariant calls == retryCount && frame.None?
      invariant |backoffs| == if retryCount == 0 then 0 else retryCount - 1
      invariant backoffs == Backoffs(q.retryDelay, |backoffs|)
      invariant retryCount <= q.maxRetries ==>
        run.frame == Attempts(reply, q, retryCount).frame && run.calls == Attempts(reply, q, retryCount).calls
      decreases q.maxRetries - retryCount
    {
      if retryCount > 0 {
        backoffs := backoffs + [Backoff(q.retryDelay, retryCount)];
      }
      calls := calls + 1;
      var retry;
      frame, retry := PlainAttempt(reply, q, retryCount);
      if !retry {
        break;
      }
      retryCount := retryCount + 1;
    }
    if q.maxRetries >= 0 {
      RunSiteSleeps(reply, q, backoffs);
    }
    sleeps := (if waitSeconds > 0 then [waitSeconds] else []) + backoffs;
  }

  /** One pass of the clean attempt loop: a frame, or the partial frame of a
      tagging failure, replaces `df_site`; `retry` says whether the loop goes
      on to the next attempt. */
  method CleanAttempt(reply: (nat, nat) -> Reply, q: Query, attempt: nat, dfSite: Option<Table>)
    returns (kept: Option<Table>, retry: bool)
    requires attempt <= q.maxRetries
    ensures var a := Attempts(reply, q, attempt);
      !retry ==> Kept(a, dfSite) == kept && a.calls == attempt + 1
    ensures var a := Attempts(reply, q, attempt);
      retry ==> (attempt + 1 <= q.maxRetries
                 && Kept(a, dfSite) == Kept(Attempts(reply, q, attempt + 1), kept)
                 && a.calls == Attempts(reply, q, attempt + 1).calls)
  {
    kept := dfSite;
    var outcome := AttemptOutcome(reply(q.site, attempt), q);
    match outcome {
      case Done(f) =>
        if f.Some? {
          kept := f;
        }
        retry := false;
      case Failed(e, p) =>
        if p.Some? {
          kept := p;
        }
        retry := attempt + 1 <= q.maxRetries && Retryable(e);
    }
  }

  /** The attempt loop of NewDownloads_clean.py for one site: the sleep comes
      after a retryable failure, and `df_site` keeps the last frame assigned
      (a partial one when tagging raised). */
  method QuerySiteClean(reply: (nat, nat) -> Reply, q: Query)
    returns (dfSite: Option<Table>, backoffs: seq<int>, calls: nat)
    ensures var r := RunSite(reply, q);
      dfSite == Kept(r, None) && backoffs == r.sleeps && calls == r.calls
  {
    dfSite := None;
    backoffs := [];
    calls := 0;
    var attempt: nat := 0;
    ghost var run := RunSite(reply, q);
    while attempt <= q.maxRetries
      invariant attempt == 0 || attempt <= q.maxRetries
      invariant calls == attempt
      invariant attempt == 0 ==> dfSite.None?
      invariant |backoffs| == attempt
      invariant backoffs == Backoffs(q.retryDelay, |backoffs|)
      invariant attempt <= q.maxRetries ==>
        Kept(run, None) == Kept(Attempts(reply, q, attempt), dfSite) && run.calls == Attempts(reply, q, attempt).calls
      decreases q.maxRetries - attempt
    {
      calls := calls + 1;
      var retry;
      dfSite, retry := CleanAttempt(reply, q, attempt, dfSite);
      if !retry {
        break;
      }
      attempt := attempt + 1;
      backoffs := backoffs + [Backoff(q.retryDelay, attempt)];
    }
    if q.maxRetries >= 0 {
      RunSiteSleeps(reply, q, backoffs);
    }
  }

  // ---------------------------------------------------------------------------
  // Dimensions

  /** `len(dimensions.split(",")) > 1` in NewDownloads.py: keys are split
      exactly when the dimension text holds a comma. */
  function MultiDimension(dimensions: string): (multi: bool)
    ensures multi <==> ',' in dimensions
  {
    SplitCount(dimensions);
    |Split(dimensions, ',')| > 1
  }

  lemma {:induction false} SplitCount(s: string)
    ensures |Split(s, ',')| > 1 <==> ',' in s
  {
    if s != [] {
      SplitCount(s[1..]);
      assert ',' in s <==> s[0] == ',' || ',' in s[1..];
    }
  }

  /** The parts, stripped, blanks dropped. */
  function StrippedNonBlank(parts: seq<string>): (r: seq<string>)
    ensures |r| <= |parts|
  {
    if parts == [] then []
    else
      var d := Strip(parts[0]);
      var rest := StrippedNonBlank(parts[1..]);
      if d != [] then [d] + rest else rest
  }

  /** Every kept dimension is stripped and non-blank. */
  lemma {:induction false} StrippedNonBlankTrimmed(parts: seq<string>)
    ensures forall i :: 0 <= i < |StrippedNonBlank(parts)| ==> Trimmed(StrippedNonBlank(parts)[i])
  {
    if parts != [] {
      var d := Strip(parts[0]);
      var rest := StrippedNonBlank(parts[1..]);
      StrippedNonBlankTrimmed(parts[1..]);
      if d != [] {
        var r := [d] + rest;
        forall i | 0 <= i < |r| ensures Trimmed(r[i]) {
          if i > 0 {
            assert r[i] == rest[i - 1];
          }
        }
      }
    }
  }

  /** `[d.strip() for d in dimensions.split(',') if d.strip()]`. */
  function CleanDimensions(dimensions: string): seq<string>
  {
    StrippedNonBlank(Split(dimensions, ','))
  }

  lemma {:induction false} StrippedNonBlankClean(parts: seq<string>)
    requires forall i :: 0 <= i < |parts| ==> Trimmed(parts[i])
    ensures StrippedNonBlank(parts) == parts
  {
    if parts != [] {
      StripClean(parts[0]);
      StrippedNonBlankClean(parts[1..]);
    }
  }

  /** Joining clean dimension names with commas and parsing them back gives
      the names again, in order. */
  lemma DimensionsRoundTrip(dims: seq<string>)
    requires |dims| >= 1
    requires forall i :: 0 <= i < |dims| ==>
      ',' !in dims[i] && Trimmed(dims[i])
    ensures CleanDimensions(Join(dims, ',')) == dims
  {
    SplitJoin(dims, ',');
    StrippedNonBlankClean(dims);
  }

  // ---------------------------------------------------------------------------
  // Grouping sites by account (pandas `groupby('account')`)

  /** The distinct accounts of the sites. */
  function Accounts(sites: seq<GscSites.Site>): seq<string>
  {
    if sites == [] then []
    else
      var rest := Accounts(sites[1..]);
      if sites[0].account in rest then rest else [sites[0].account] + rest
  }

  lemma {:induction false} AccountsSpec(sites: seq<GscSites.Site>)
    ensures forall i, j :: 0 <= i < j < |Accounts(sites)| ==> Accounts(sites)[i] != Accounts(sites)[j]
    ensures forall i :: 0 <= i < |sites| ==> sites[i].account in Accounts(sites)
    ensures forall a :: a in Accounts(sites) ==> exists i :: 0 <= i < |sites| && sites[i].account == a
  {
    if sites != [] {
      AccountsSpec(sites[1..]);
      forall i | 1 <= i < |sites| ensures sites[i].account in Accounts(sites) {
        assert sites[1..][i - 1] == sites[i];
      }
      forall a | a in Accounts(sites) ensures exists i :: 0 <= i < |sites| && sites[i].account == a {
        if a != sites[0].account {
          var i :| 0 <= i < |sites[1..]| && sites[1..][i].account == a;
          assert sites[i + 1].account == a;
        }
      }
    }
  }

  function Keyed(names: seq<string>): (ps: seq<(string, ())>)
    ensures |ps| == |names|
    ensures forall i :: 0 <= i < |names| ==> ps[i] == (names[i], ())
  {
    if names == [] then [] else [(names[0], ())] + Keyed(names[1..])
  }

  function Names(ps: seq<(string, ())>): (names: seq<string>)
    ensures |names| == |ps|
    ensures forall i :: 0 <= i < |ps| ==> names[i] == ps[i].0
  {
    if ps == [] then [] else [ps[0].0] + Names(ps[1..])
  }

  /** The group keys in the order `groupby` visits them: sorted. */
  function SortedAccounts(sites: seq<GscSites.Site>): seq<string>
  {
    Names(Ordering.SortByName(Keyed(Accounts(sites))))
  }

  /** The groups come in strictly ascending order of account, and there is one
      for exactly the accounts that occur. */
  lemma SortedAccountsSpec(sites: seq<GscSites.Site>)
    ensures var accts := SortedAccounts(sites);
      && (forall i, j :: 0 <= i < j < |accts| ==> Ordering.Less(accts[i], accts[j]))
      && (forall a :: a in accts <==> exists i :: 0 <= i < |sites| && sites[i].account == a)
  {
    var names := Accounts(sites);
    AccountsSpec(sites);
    var keyed := Keyed(names);
    var sorted := Ordering.SortByName(keyed);
    Ordering.SortSpec(keyed);
    var accts := SortedAccounts(sites);
    forall a ensures a in accts <==> a in names {
      if a in accts {
        var i :| 0 <= i < |accts| && accts[i] == a;
        assert sorted[i] in multiset(keyed);
        assert sorted[i] == (a, ());
        var j :| 0 <= j < |keyed| && keyed[j] == (a, ());
        assert names[j] == a;
      }
      if a in names {
        var j :| 0 <= j < |names| && names[j] == a;
        assert keyed[j] in multiset(sorted);
        var i :| 0 <= i < |sorted| && sorted[i] == keyed[j];
        assert accts[i] == a;
      }
    }
  }

  /** The sites of one account, in their original order. */
  function Group(sites: seq<GscSites.Site>, account: string): seq<GscSites.Site>
  {
    if sites == [] then []
    else (if sites[0].account == account then [sites[0]] else []) + Group(sites[1..], account)
  }

  function GroupsOf(sites: seq<GscSites.Site>, accts: seq<string>): seq<seq<GscSites.Site>>
  {
    if accts == [] then [] else [Group(sites, accts[0])] + GroupsOf(sites, accts[1..])
  }

  /** The order in which the fetch visits the sites. */
  function ProcessingOrder(sites: seq<GscSites.Site>): seq<GscSites.Site>
  {
    Flatten(GroupsOf(sites, SortedAccounts(sites)))
  }

  lemma {:induction false} GroupsOfNothing(accts: seq<string>)
    ensures Flatten(GroupsOf([], accts)) == []
  {
    if accts != [] {
      GroupsOfNothing(accts[1..]);
    }
  }

  lemma {:induction false} GroupsCons(s: GscSites.Site, rest: seq<GscSites.Site>, accts: seq<string>)
    requires forall i, j :: 0 <= i < j < |accts| ==> accts[i] != accts[j]
    ensures multiset(Flatten(GroupsOf([s] + rest, accts)))
         == multiset(Flatten(GroupsOf(rest, accts))) + (if s.account in accts then multiset{s} else multiset{})
  {
    if accts != [] {
      GroupsCons(s, rest, accts[1..]);
      var sites := [s] + rest;
      assert sites[0] == s && sites[1..] == rest;
      assert s.account in accts <==> s.account == accts[0] || s.account in accts[1..];
      assert s.account == accts[0] ==> s.account !in accts[1..];
    }
  }

  /** Grouping visits every site exactly once. */
  lemma {:induction false} GroupsPartition(sites: seq<GscSites.Site>, accts: seq<string>)
    requires forall i, j :: 0 <= i < j < |accts| ==> accts[i] != accts[j]
    requires forall i :: 0 <= i < |sites| ==> sites[i].account in accts
    ensures multiset(Flatten(GroupsOf(sites, accts))) == multiset(sites)
  {
    if sites == [] {
      GroupsOfNothing(accts);
    } else {
      GroupsPartition(sites[1..], accts);
      GroupsCons(sites[0], sites[1..], accts);
      assert sites == [sites[0]] + sites[1..];
    }
  }

  /** The processing order is a permutation of the sites. */
  lemma ProcessingOrderPermutes(sites: seq<GscSites.Site>)
    ensures multiset(ProcessingOrder(sites)) == multiset(sites)
    ensures |ProcessingOrder(sites)| == |sites|
  {
    var accts := SortedAccounts(sites);
    SortedAccountsSpec(sites);
    forall i, j | 0 <= i < j < |accts| ensures accts[i] != accts[j] {
      if accts[i] == accts[j] { Ordering.LessIrreflexive(accts[i]); }
    }
    GroupsPartition(sites, accts);
    assert |multiset(ProcessingOrder(sites))| == |multiset(sites)|;
  }

  // ---------------------------------------------------------------------------
  // The serial fetch with progress events (NewDownloads_clean.py)

  /** A progress event as passed to the callback. `hadData` tells "Completed"
      from "No data for" in the site_done message. */
  datatype Event =
    | Start(total: nat)
    | SiteStart(siteUrl: string, rootDomain: string)
    | SiteDone(siteUrl: string, rootDomain: string, hadData: bool, current: nat, total: nat)
    | Finish(message: string, current: nat, total: nat, rows: nat)

  const NoSitesMessage: string := "No sites available"
  const NoMatchMessage: string := "No sites match domain filter"
  const FinishedMessage: string := "Finished GSC fetch"

  /** The fetch settings that stay fixed across sites. */
  datatype FetchConfig = FetchConfig(waitSeconds: nat, maxRetries: int, retryDelay: nat)

  /** What the fetch accumulates: rows of the combined frame, events, sleeps. */
  datatype Progress = Progress(rows: seq<Record>, events: seq<Event>, sleeps: seq<int>)

  const NoProgress := Progress([], [], [])

  function Then(a: Progress, b: Progress): Progress
  {
    Progress(a.rows + b.rows, a.events + b.events, a.sleeps + b.sleeps)
  }

  lemma NoProgressNeutral(a: Progress)
    ensures Then(NoProgress, a) == a && Then(a, NoProgress) == a
  {
    assert [] + a.rows == a.rows && a.rows + [] == a.rows;
    assert [] + a.events == a.events && a.events + [] == a.events;
    assert [] + a.sleeps == a.sleeps && a.sleeps + [] == a.sleeps;
  }

  lemma ThenAssociative(a: Progress, b: Progress, c: Progress)
    ensures Then(a, Then(b, c)) == Then(Then(a, b), c)
  {
    assert a.rows + (b.rows + c.rows) == (a.rows + b.rows) + c.rows;
    assert a.events + (b.events + c.events) == (a.events + b.events) + c.events;
    assert a.sleeps + (b.sleeps + c.sleeps) == (a.sleeps + b.sleeps) + c.sleeps;
  }

  /** The account passed to `get_service`: the label 'default' maps back to "". */
  function ServiceAccount(name: string): (account: string)
    ensures name != "default" ==> account == name
  {
    if name == "default" then [] else name
  }

  /** Mapping the label back recovers every account except one literally
      named 'default'. */
  lemma ServiceAccountOfLabel(account: string)
    requires account != "default"
    ensures ServiceAccount(GscSites.AccountLabel(account)) == account
  {
  }

  function SiteUrlOf(s: GscSites.Site): string
  {
    s.siteUrl
  }

  function SiteQuery(s: GscSites.Site, index: nat, cfg: FetchConfig): Query
  {
    Query(index, s.siteUrl, s.domain, false, cfg.maxRetries, cfg.retryDelay)
  }

  /** One site of the loop: its two events, its wait and backoff sleeps, and
      the rows of the frame it keeps. */
  function SiteStep(s: GscSites.Site, index: nat, total: nat, reply: (nat, nat) -> Reply, cfg: FetchConfig): Progress
  {
    var run := RunSite(reply, SiteQuery(s, index, cfg));
    var kept := Kept(run, None);
    Progress(if kept.Some? then kept.value.rows else [],
             [SiteStart(s.siteUrl, s.domain), SiteDone(s.siteUrl, s.domain, kept.Some?, index + 1, total)],
             (if cfg.waitSeconds != 0 then [cfg.waitSeconds as int] else []) + run.sleeps)
  }

  /** The sites of `group`, numbered from `from`. */
  function RunSites(group: seq<GscSites.Site>, from: nat, total: nat, reply: (nat, nat) -> Reply, cfg: FetchConfig): Progress
    decreases |group|
  {
    if group == [] then NoProgress
    else
      var n := |group| - 1;
      Then(RunSites(group[..n], from, total, reply, cfg), SiteStep(group[n], from + n, total, reply, cfg))
  }

  /** How many sites the groups of `accts` hold together. */
  function GroupSizes(sites: seq<GscSites.Site>, accts: seq<string>): nat
    decreases |accts|
  {
    if accts == [] then 0
    else GroupSizes(sites, accts[..|accts| - 1]) + |Group(sites, accts[|accts| - 1])|
  }

  /** The groups of `accts` in order, their sites numbered on from 0; the
      first group whose service cannot be built stops the fetch (`false`). */
  function RunGroups(sites: seq<GscSites.Site>, accts: seq<string>, total: nat,
                     serviceError: string -> Option<string>, reply: (nat, nat) -> Reply, cfg: FetchConfig): (bool, Progress)
    decreases |accts|
  {
    if accts == [] then (true, NoProgress)
    else
      var n := |accts| - 1;
      var front := RunGroups(sites, accts[..n], total, serviceError, reply, cfg);
      if !front.0 then front
      else if serviceError(ServiceAccount(accts[n])).Some? then (false, front.1)
      else (true, Then(front.1, RunSites(Group(sites, accts[n]), GroupSizes(sites, accts[..n]), total, reply, cfg)))
  }

  /** The message of the first failing service, if any. */
  function ServiceFailure(accts: seq<string>, serviceError: string -> Option<string>): string
  {
    if accts == [] then []
    else if serviceError(ServiceAccount(accts[0])).Some? then serviceError(ServiceAccount(accts[0])).value
    else ServiceFailure(accts[1..], serviceError)
  }

  /** The sites the fetch works on: all listed sites, or those matching a
      non-empty filter; a site URL that cannot be parsed raises. */
  function Selected(listed: seq<GscSites.Site>, domainFilter: Option<string>): Result<seq<GscSites.Site>>
  {
    if domainFilter.Some? && domainFilter.value != [] then
      GscSites.FilterSites(listed, SiteUrlOf, GscSites.NormalizeFilterClean(domainFilter.value))
    else Ok(listed)
  }

  /** `fetch_search_console_data` of NewDownloads_clean.py: the combined rows
      (or the exception), the events and the sleeps. */
  function Fetch(accounts: seq<string>, listFetch: string -> Result<Option<seq<GscSites.SiteEntry>>>,
                 domainFilter: Option<string>, serviceError: string -> Option<string>,
                 reply: (nat, nat) -> Reply, cfg: FetchConfig): (Result<seq<Record>>, seq<Event>, seq<int>)
  {
    var listed := GscSites.ListAccountsClean(accounts, listFetch);
    if listed == [] then (Ok([]), [Finish(NoSitesMessage, 0, 0, 0)], [])
    else
      match Selected(listed, domainFilter)
      case Err(e) => (Err(e), [], [])
      case Ok(sel) =>
        if sel == [] then (Ok([]), [Finish(NoMatchMessage, 0, 0, 0)], [])
        else
          var total := |sel|;
          var accts := SortedAccounts(sel);
          var run := RunGroups(sel, accts, total, serviceError, reply, cfg);
          if !run.0 then (Err(ServiceFailure(accts, serviceError)), [Start(total)] + run.1.events, run.1.sleeps)
          else (Ok(run.1.rows), [Start(total)] + run.1.events + [Finish(FinishedMessage, total, total, |run.1.rows|)],
                run.1.sleeps)
  }

  lemma {:induction false} RunSitesAppend(a: seq<GscSites.Site>, b: seq<GscSites.Site>, from: nat, total: nat,
                                          reply: (nat, nat) -> Reply, cfg: FetchConfig)
    ensures RunSites(a + b, from, total, reply, cfg)
         == Then(RunSites(a, from, total, reply, cfg), RunSites(b, from + |a|, total, reply, cfg))
    decreases |b|
  {
    if b == [] {
      assert a + b == a;
      NoProgressNeutral(RunSites(a, from, total, reply, cfg));
    } else {
      var n := |b| - 1;
      assert (a + b)[..|a + b| - 1] == a + b[..n];
      assert (a + b)[|a + b| - 1] == b[n];
      RunSitesAppend(a, b[..n], from, total, reply, cfg);
      ThenAssociative(RunSites(a, from, total, reply, cfg), RunSites(b[..n], from + |a|, total, reply, cfg),
                      SiteStep(b[n], from + |a| + n, total, reply, cfg));
    }
  }

  lemma {:induction false} GroupsOfAppend(sites: seq<GscSites.Site>, a: seq<string>, x: string)
    ensures GroupsOf(sites, a + [x]) == GroupsOf(sites, a) + [Group(sites, x)]
    decreases |a|
  {
    if a == [] {
      assert a + [x] == [x] && [x][1..] == [];
    } else {
      assert (a + [x])[0] == a[0] && (a + [x])[1..] == a[1..] + [x];
      GroupsOfAppend(sites, a[1..], x);
    }
  }

  lemma FlattenGroupsLast(sites: seq<GscSites.Site>, accts: seq<string>)
    requires accts != []
    ensures Flatten(GroupsOf(sites, accts))
         == Flatten(GroupsOf(sites, accts[..|accts| - 1])) + Group(sites, accts[|accts| - 1])
  {
    var n := |accts| - 1;
    assert accts == accts[..n] + [accts[n]];
    GroupsOfAppend(sites, accts[..n], accts[n]);
    FlattenAppend(GroupsOf(sites, accts[..n]), Group(sites, accts[n]));
  }

  lemma {:induction false} GroupSizesFlat(sites: seq<GscSites.Site>, accts: seq<string>)
    ensures GroupSizes(sites, accts) == |Flatten(GroupsOf(sites, accts))|
    decreases |accts|
  {
    if accts != [] {
      GroupSizesFlat(sites, accts[..|accts| - 1]);
      FlattenGroupsLast(sites, accts);
    }
  }

  /** When every service is available, grouping changes only the order: the
      fetch is the per-site loop over the flattened groups. */
  lemma {:induction false} RunGroupsFlat(sites: seq<GscSites.Site>, accts: seq<string>, total: nat,
                                         serviceError: string -> Option<string>, reply: (nat, nat) -> Reply, cfg: FetchConfig)
    requires RunGroups(sites, accts, total, serviceError, reply, cfg).0
    ensures RunGroups(sites, accts, total, serviceError, reply, cfg).1
         == RunSites(Flatten(GroupsOf(sites, accts)), 0, total, reply, cfg)
    decreases |accts|
  {
    if accts != [] {
      var n := |accts| - 1;
      RunGroupsFlat(sites, accts[..n], total, serviceError, reply, cfg);
      GroupSizesFlat(sites, accts[..n]);
      FlattenGroupsLast(sites, accts);
      RunSitesAppend(Flatten(GroupsOf(sites, accts[..n])), Group(sites, accts[n]), 0, total, reply, cfg);
    }
  }

  /** Some account's service cannot be built. */
  predicate AnyServiceFails(accts: seq<string>, serviceError: string -> Option<string>)
  {
    exists i :: 0 <= i < |accts| && serviceError(ServiceAccount(accts[i])).Some?
  }

  lemma AnyServiceFailsLast(accts: seq<string>, serviceError: string -> Option<string>)
    requires accts != []
    ensures AnyServiceFails(accts, serviceError)
        <==> AnyServiceFails(accts[..|accts| - 1], serviceError) || serviceError(ServiceAccount(accts[|accts| - 1])).Some?
  {
    var n := |accts| - 1;
    if AnyServiceFails(accts[..n], serviceError) {
      var i :| 0 <= i < n && serviceError(ServiceAccount(accts[..n][i])).Some?;
      assert accts[..n][i] == accts[i];
    }
    if AnyServiceFails(accts, serviceError) {
      var i :| 0 <= i < |accts| && serviceError(ServiceAccount(accts[i])).Some?;
      if i < n { assert accts[..n][i] == accts[i]; }
    }
  }

  lemma NoneFailsBefore(accts: seq<string>, g: nat, serviceError: string -> Option<string>)
    requires g <= |accts|
    requires !AnyServiceFails(accts[..g], serviceError)
    ensures forall i :: 0 <= i < g ==> serviceError(ServiceAccount(accts[i])).None?
  {
    forall i | 0 <= i < g
      ensures serviceError(ServiceAccount(accts[i])).None?
    {
      assert accts[..g][i] == accts[i];
    }
  }

  /** The run fails exactly when some group's service cannot be built. */
  lemma {:induction false} RunGroupsFails(sites: seq<GscSites.Site>, accts: seq<string>, total: nat,
                                          serviceError: string -> Option<string>, reply: (nat, nat) -> Reply, cfg: FetchConfig)
    ensures !RunGroups(sites, accts, total, serviceError, reply, cfg).0 <==> AnyServiceFails(accts, serviceError)
    decreases |accts|
  {
    if accts != [] {
      RunGroupsFails(sites, accts[..|accts| - 1], total, serviceError, reply, cfg);
      RunGroupsOkStep(sites, accts, total, serviceError, reply, cfg);
      AnyServiceFailsLast(accts, serviceError);
    }
  }

  lemma RunGroupsOkStep(sites: seq<GscSites.Site>, accts: seq<string>, total: nat,
                        serviceError: string -> Option<string>, reply: (nat, nat) -> Reply, cfg: FetchConfig)
    requires accts != []
    ensures RunGroups(sites, accts, total, serviceError, reply, cfg).0
        == (RunGroups(sites, accts[..|accts| - 1], total, serviceError, reply, cfg).0
            && serviceError(ServiceAccount(accts[|accts| - 1])).None?)
  {
  }

  /** Once the groups of a prefix have stopped the fetch, the whole run is
      that prefix's run. */
  lemma {:induction false} RunGroupsStaysFailed(sites: seq<GscSites.Site>, accts: seq<string>, g: nat, total: nat,
                                                serviceError: string -> Option<string>, reply: (nat, nat) -> Reply,
                                                cfg: FetchConfig)
    requires g <= |accts|
    requires !RunGroups(sites, accts[..g], total, serviceError, reply, cfg).0
    ensures RunGroups(sites, accts, total, serviceError, reply, cfg)
         == RunGroups(sites, accts[..g], total, serviceError, reply, cfg)
    decreases |accts| - g
  {
    if g < |accts| {
      assert accts[..g + 1][..g] == accts[..g];
      RunGroupsStaysFailed(sites, accts, g + 1, total, serviceError, reply, cfg);
    } else {
      assert accts[..g] == accts;
    }
  }

  /** Per site, `site_start` then `site_done`, with `current` counting up by
      one from `from + 1`. */
  /** `ev` holds, for each site of `group` in turn, its `site_start` and then
      its `site_done`, the latter numbered `from + k + 1` of `total`. */
  predicate PairedEvents(ev: seq<Event>, group: seq<GscSites.Site>, from: nat, total: nat)
  {
    && |ev| == 2 * |group|
    && forall k :: 0 <= k < |group| ==>
         && ev[2 * k] == SiteStart(group[k].siteUrl, group[k].domain)
         && ev[2 * k + 1].SiteDone?
         && ev[2 * k + 1].siteUrl == group[k].siteUrl
         && ev[2 * k + 1].current == from + k + 1
         && ev[2 * k + 1].total == total
  }

  lemma {:induction false} RunSitesEvents(group: seq<GscSites.Site>, from: nat, total: nat,
                                          reply: (nat, nat) -> Reply, cfg: FetchConfig)
    ensures var ev := RunSites(group, from, total, reply, cfg).events;
      && |ev| == 2 * |group|
      && forall k :: 0 <= k < |group| ==>
           && ev[2 * k] == SiteStart(group[k].siteUrl, group[k].domain)
           && ev[2 * k + 1].SiteDone?
           && ev[2 * k + 1].siteUrl == group[k].siteUrl
           && ev[2 * k + 1].current == from + k + 1
           && ev[2 * k + 1].total == total
    decreases |group|
  {
    if group != [] {
      var n := |group| - 1;
      RunSitesEvents(group[..n], from, total, reply, cfg);
      var front := RunSites(group[..n], from, total, reply, cfg).events;
      var last := SiteStep(group[n], from + n, total, reply, cfg).events;
      assert PairedEvents(front, group[..n], from, total);
      PairedExtend(front, last, group, from, total);
    }
  }

  /** One more site's pair after those of the sites before it. */
  lemma PairedExtend(front: seq<Event>, last: seq<Event>, group: seq<GscSites.Site>, from: nat, total: nat)
    requires group != []
    requires PairedEvents(front, group[..|group| - 1], from, total)
    requires var s := group[|group| - 1];
      && |last| == 2 && last[0] == SiteStart(s.siteUrl, s.domain)
      && last[1].SiteDone? && last[1].siteUrl == s.siteUrl
      && last[1].current == from + |group| && last[1].total == total
    ensures PairedEvents(front + last, group, from, total)
  {
    var n := |group| - 1;
    var ev := front + last;
    forall k | 0 <= k < |group|
      ensures ev[2 * k] == SiteStart(group[k].siteUrl, group[k].domain)
      ensures ev[2 * k + 1].SiteDone? && ev[2 * k + 1].siteUrl == group[k].siteUrl
      ensures ev[2 * k + 1].current == from + k + 1 && ev[2 * k + 1].total == total
    {
      if k < n {
        assert ev[2 * k] == front[2 * k] && ev[2 * k + 1] == front[2 * k + 1];
        assert group[..n][k] == group[k];
      } else {
        assert ev[2 * k] == last[0] && ev[2 * k + 1] == last[1];
      }
    }
  }

  /** When every service is available, the events between `start` and
      `finish` are one `site_start`/`site_done` pair per selected site, in the
      processing order (a permutation of the selection), with `current` going
      1, 2, .., total. */
  lemma EventSequence(sel: seq<GscSites.Site>, serviceError: string -> Option<string>,
                      reply: (nat, nat) -> Reply, cfg: FetchConfig)
    requires RunGroups(sel, SortedAccounts(sel), |sel|, serviceError, reply, cfg).0
    ensures var order := ProcessingOrder(sel);
      var ev := RunGroups(sel, SortedAccounts(sel), |sel|, serviceError, reply, cfg).1.events;
      && multiset(order) == multiset(sel)
      && |order| == |sel|
      && |ev| == 2 * |sel|
      && forall k :: 0 <= k < |sel| ==>
           && ev[2 * k] == SiteStart(order[k].siteUrl, order[k].domain)
           && ev[2 * k + 1].SiteDone? && ev[2 * k + 1].siteUrl == order[k].siteUrl
           && ev[2 * k + 1].current == k + 1 && ev[2 * k + 1].total == |sel|
  {
    ProcessingOrderPermutes(sel);
    RunGroupsFlat(sel, SortedAccounts(sel), |sel|, serviceError, reply, cfg);
    RunSitesEvents(ProcessingOrder(sel), 0, |sel|, reply, cfg);
  }

  /** The fetch fails only through a site URL the filter cannot parse or a
      service that cannot be built; with no sites, or none matching, it emits
      a single `finish` event with total 0. */
  lemma FetchOutcomes(accounts: seq<string>, listFetch: string -> Result<Option<seq<GscSites.SiteEntry>>>,
                      domainFilter: Option<string>, serviceError: string -> Option<string>,
                      reply: (nat, nat) -> Reply, cfg: FetchConfig)
    ensures var f := Fetch(accounts, listFetch, domainFilter, serviceError, reply, cfg);
      var listed := GscSites.ListAccountsClean(accounts, listFetch);
      && (listed == [] ==> f == (Ok([]), [Finish(NoSitesMessage, 0, 0, 0)], []))
      && (listed != [] && Selected(listed, domainFilter) == Ok([]) ==> f == (Ok([]), [Finish(NoMatchMessage, 0, 0, 0)], []))
      && (f.0.Err? ==>
            && listed != []
            && (|| Selected(listed, domainFilter).Err?
                || exists i :: 0 <= i < |SortedAccounts(Selected(listed, domainFilter).value)| &&
                     serviceError(ServiceAccount(SortedAccounts(Selected(listed, domainFilter).value)[i])).Some?))
  {
    var listed := GscSites.ListAccountsClean(accounts, listFetch);
    if listed != [] && Selected(listed, domainFilter).Ok? {
      var sel := Selected(listed, domainFilter).value;
      RunGroupsFails(sel, SortedAccounts(sel), |sel|, serviceError, reply, cfg);
    }
  }

  /** The body of the inner loop for one site. */
  method FetchSite(s: GscSites.Site, index: nat, total: nat, reply: (nat, nat) -> Reply, cfg: FetchConfig)
    returns (step: Progress)
    ensures step == SiteStep(s, index, total, reply, cfg)
  {
    var events := [SiteStart(s.siteUrl, s.domain)];
    var sleeps: seq<int> := [];
    if cfg.waitSeconds != 0 {
      sleeps := sleeps + [cfg.waitSeconds as int];
    }
    var dfSite, backoffs, calls := QuerySiteClean(reply, SiteQuery(s, index, cfg));
    sleeps := sleeps + backoffs;
    var rows: seq<Record> := [];
    if dfSite.Some? {
      rows := dfSite.value.rows;
    }
    events := events + [SiteDone(s.siteUrl, s.domain, dfSite.Some?, index + 1, total)];
    step := Progress(rows, events, sleeps);
  }

  lemma ServiceFailureStep(accts: seq<string>, g: nat, serviceError: string -> Option<string>)
    requires g < |accts|
    requires forall i :: 0 <= i < g ==> serviceError(ServiceAccount(accts[i])).None?
    requires serviceError(ServiceAccount(accts[g])).Some?
    ensures ServiceFailure(accts, serviceError) == serviceError(ServiceAccount(accts[g])).value
    decreases g
  {
    if g > 0 {
      ServiceFailureStep(accts[1..], g - 1, serviceError);
      assert accts[1..][g - 1] == accts[g];
    }
  }

  /** The sites of one account group, one after the other. */
  method FetchGroup(group: seq<GscSites.Site>, from: nat, total: nat, reply: (nat, nat) -> Reply, cfg: FetchConfig)
    returns (done: Progress)
    ensures done == RunSites(group, from, total, reply, cfg)
  {
    done := NoProgress;
    for j := 0 to |group|
      invariant done == SitesUpTo(group, j, from, total, reply, cfg)
    {
      var step := FetchSite(group[j], from + j, total, reply, cfg);
      done := Then(done, step);
    }
    SitesUpToPrefix(group, |group|, from, total, reply, cfg);
    assert group[..|group|] == group;
  }

  /** The first `j` sites of `group`, numbered from `from`. */
  function SitesUpTo(group: seq<GscSites.Site>, j: nat, from: nat, total: nat, reply: (nat, nat) -> Reply,
                     cfg: FetchConfig): Progress
    requires j <= |group|
  {
    if j == 0 then NoProgress
    else Then(SitesUpTo(group, j - 1, from, total, reply, cfg), SiteStep(group[j - 1], from + j - 1, total, reply, cfg))
  }

  lemma {:induction false} SitesUpToPrefix(group: seq<GscSites.Site>, j: nat, from: nat, total: nat,
                                           reply: (nat, nat) -> Reply, cfg: FetchConfig)
    requires j <= |group|
    ensures SitesUpTo(group, j, from, total, reply, cfg) == RunSites(group[..j], from, total, reply, cfg)
  {
    if j > 0 {
      SitesUpToPrefix(group, j - 1, from, total, reply, cfg);
      assert group[..j][..j - 1] == group[..j - 1] && group[..j][j - 1] == group[j - 1];
    }
  }

  /** The fetch once the sites are selected: with a non-empty selection, its
      outcome is given by the run over the sorted account groups. */
  lemma FetchOfSelection(accounts: seq<string>, listFetch: string -> Result<Option<seq<GscSites.SiteEntry>>>,
                         domainFilter: Option<string>, serviceError: string -> Option<string>,
                         reply: (nat, nat) -> Reply, cfg: FetchConfig, sel: seq<GscSites.Site>)
    requires GscSites.ListAccountsClean(accounts, listFetch) != []
    requires Selected(GscSites.ListAccountsClean(accounts, listFetch), domainFilter) == Ok(sel)
    requires sel != []
    ensures var accts := SortedAccounts(sel);
      var run := RunGroups(sel, accts, |sel|, serviceError, reply, cfg);
      Fetch(accounts, listFetch, domainFilter, serviceError, reply, cfg)
        == if !run.0 then (Err(ServiceFailure(accts, serviceError)), [Start(|sel|)] + run.1.events, run.1.sleeps)
           else (Ok(run.1.rows), [Start(|sel|)] + run.1.events + [Finish(FinishedMessage, |sel|, |sel|, |run.1.rows|)],
                 run.1.sleeps)
  {
  }

  lemma RunGroupsLast(sites: seq<GscSites.Site>, accts: seq<string>, g: nat, total: nat,
                      serviceError: string -> Option<string>, reply: (nat, nat) -> Reply, cfg: FetchConfig)
    requires g < |accts|
    requires RunGroups(sites, accts[..g], total, serviceError, reply, cfg).0
    ensures var front := RunGroups(sites, accts[..g], total, serviceError, reply, cfg).1;
      && GroupSizes(sites, accts[..g + 1]) == GroupSizes(sites, accts[..g]) + |Group(sites, accts[g])|
      && RunGroups(sites, accts[..g + 1], total, serviceError, reply, cfg)
         == if serviceError(ServiceAccount(accts[g])).Some? then (false, front)
            else (true, Then(front, RunSites(Group(sites, accts[g]), GroupSizes(sites, accts[..g]), total, reply, cfg)))
  {
    assert accts[..g + 1][..g] == accts[..g];
  }

  /** The loop over the account groups: a service that cannot be built
      raises out of the fetch, otherwise each group's sites are fetched. */
  method FetchGroups(sel: seq<GscSites.Site>, accts: seq<string>, total: nat,
                     serviceError: string -> Option<string>, reply: (nat, nat) -> Reply, cfg: FetchConfig)
    returns (ok: bool, progress: Progress, failure: string)
    ensures (ok, progress) == RunGroups(sel, accts, total, serviceError, reply, cfg)
    ensures !ok ==> failure == ServiceFailure(accts, serviceError)
  {
    var completed: nat := 0;
    progress := NoProgress;
    for g := 0 to |accts|
      invariant RunGroups(sel, accts[..g], total, serviceError, reply, cfg) == (true, progress)
      invariant completed == GroupSizes(sel, accts[..g])
    {
      RunGroupsLast(sel, accts, g, total, serviceError, reply, cfg);
      var err := serviceError(ServiceAccount(accts[g]));
      if err.Some? {
        RunGroupsFails(sel, accts[..g], total, serviceError, reply, cfg);
        NoneFailsBefore(accts, g, serviceError);
        ServiceFailureStep(accts, g, serviceError);
        RunGroupsStaysFailed(sel, accts, g + 1, total, serviceError, reply, cfg);
        return false, progress, err.value;
      }
      var group := Group(sel, accts[g]);
      var done := FetchGroup(group, completed, total, reply, cfg);
      progress := Then(progress, done);
      completed := completed + |group|;
    }
    assert accts[..|accts|] == accts;
    ok, failure := true, [];
  }

  /** `fetch_search_console_data` of NewDownloads_clean.py. */
  method FetchClean(accounts: seq<string>, listFetch: string -> Result<Option<seq<GscSites.SiteEntry>>>,
                    domainFilter: Option<string>, serviceError: string -> Option<string>,
                    reply: (nat, nat) -> Reply, cfg: FetchConfig)
    returns (result: Result<seq<Record>>, events: seq<Event>, sleeps: seq<int>)
    ensures (result, events, sleeps) == Fetch(accounts, listFetch, domainFilter, serviceError, reply, cfg)
  {
    var listed := GscSites.ListSitesClean(accounts, listFetch);
    if listed.None? {
      return Ok([]), [Finish(NoSitesMessage, 0, 0, 0)], [];
    }
    var selected := Selected(listed.value, domainFilter);
    if selected.Err? {
      return Err(selected.message), [], [];
    }
    var sel := selected.value;
    if sel == [] {
      return Ok([]), [Finish(NoMatchMessage, 0, 0, 0)], [];
    }
    var total := |sel|;
    var accts := SortedAccounts(sel);
    FetchOfSelection(accounts, listFetch, domainFilter, serviceError, reply, cfg, sel);
    var ok, progress, failure := FetchGroups(sel, accts, total, serviceError, reply, cfg);
    if !ok {
      return Err(failure), [Start(total)] + progress.events, progress.sleeps;
    }
    result := Ok(progress.rows);
    events := [Start(total)] + progress.events + [Finish(FinishedMessage, total, total, |progress.rows|)];
    sleeps := progress.sleeps;
  }
}
