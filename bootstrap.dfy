/** Session bootstrap: the landing-page GET, the script-URL list and the bounded
    scan of script bundles for a CSRF token (`find_script_srcs` and
    `bootstrap_and_find_csrf` in scraping/scraping_price.py). */
module Bootstrap {
  import opened Common
  import opened Retry
  import opened Tokens

  const BaseUrl: string := "https://precodahora.ba.gov.br/produtos/"

  /** At most this many script bundles are fetched. */
  const ScriptScanCap: nat := 25

  /** The pause, in seconds, after a bundle that answered 200 without a token. */
  const ScriptPause: real := 0.1

  /** What one plain GET produced: a response, or an exception from the transport. */
  datatype Fetch = Fetched(status: int, text: string) | FetchFault(cause: string)

  /** Why the bootstrap raised. */
  datatype BootError =
    | LandingFault(cause: string)            // the landing GET raised
    | LandingHttpError(status: int)          // `raise_for_status` on the landing page
    | ScriptFault(url: string, cause: string) // a bundle GET raised
    | TokenNotFound                          // "CSRF token not found in HTML or JS bundles."

  // Order-preserving de-duplication

  /** `seen`/`out` de-duplication: each element kept at its first occurrence. */
  function Dedup(s: seq<string>): seq<string>
    decreases |s|
  {
    if s == [] then []
    else
      var d := Dedup(s[..|s| - 1]);
      if s[|s| - 1] in d then d else d + [s[|s| - 1]]
  }

  predicate NoDup(s: seq<string>) {
    forall i, j :: 0 <= i < j < |s| ==> s[i] != s[j]
  }

  /** The index of the first occurrence of x in s. */
  function FirstIndex(s: seq<string>, x: string): (i: nat)
    requires x in s
    ensures i < |s| && s[i] == x && forall k :: 0 <= k < i ==> s[k] != x
  {
    if s[0] == x then 0 else 1 + FirstIndex(s[1..], x)
  }

  lemma FirstIndexPrefix(s: seq<string>, n: nat, x: string)
    requires n <= |s| && x in s[..n]
    ensures FirstIndex(s, x) == FirstIndex(s[..n], x)
  {
    assert forall k :: 0 <= k < n ==> s[..n][k] == s[k];
  }

  /** The de-duplicated list has no repeats, holds exactly the elements of the input,
      and lists them in the order of their first occurrences. */
  lemma {:induction false} DedupSpec(s: seq<string>)
    ensures var d := Dedup(s);
      && NoDup(d)
      && (forall x :: x in d <==> x in s)
      && (forall i, j :: 0 <= i < j < |d| ==> FirstIndex(s, d[i]) < FirstIndex(s, d[j]))
    decreases |s|
  {
    if s != [] {
      var n := |s| - 1;
      var p := s[..n];
      DedupSpec(p);
      var dp := Dedup(p);
      var d := Dedup(s);
      assert s == p + [s[n]];
      assert forall x :: x in s <==> x in p || x == s[n];
      forall x | x in dp ensures FirstIndex(s, x) == FirstIndex(p, x) && FirstIndex(s, x) < n {
        assert x in p;
        FirstIndexPrefix(s, n, x);
      }
      if s[n] !in dp {
        assert s[n] !in p;
        assert FirstIndex(s, s[n]) == n;
        assert forall i :: 0 <= i < |dp| ==> d[i] == dp[i];
      }
    }
  }

  /** Running the de-duplication over a longer list extends the shorter result. */
  lemma DedupStep(s: seq<string>, i: nat)
    requires i < |s|
    ensures Dedup(s[..i + 1]) == if s[i] in Dedup(s[..i]) then Dedup(s[..i]) else Dedup(s[..i]) + [s[i]]
  {
    assert s[..i + 1][..i] == s[..i];
  }

  /** `find_script_srcs`: every `src` the script-tag pattern finds, joined onto the
      base URL, de-duplicated in first-occurrence order. The pattern search and
      `urljoin` are parameters. */
  method FindScriptSrcs(html: string, findSrcs: string -> seq<string>, join: (string, string) -> string)
    returns (out: seq<string>)
    ensures out == Dedup(JoinedSrcs(html, findSrcs, join))
  {
    var srcs := findSrcs(html);
    var urls := seq(|srcs|, k requires 0 <= k < |srcs| => join(BaseUrl, srcs[k]));
    var seen: set<string> := {};
    out := [];
    var i := 0;
    while i < |urls|
      invariant 0 <= i <= |urls|
      invariant out == Dedup(urls[..i])
      invariant seen == set x | x in out
    {
      var u := urls[i];
      DedupStep(urls, i);
      if u !in seen {
        seen := seen + {u};
        out := out + [u];
      }
      i := i + 1;
    }
    assert urls[..i] == urls;
  }

  /** `[urljoin(BASE_URL, s) for s in srcs]` */
  function JoinedSrcs(html: string, findSrcs: string -> seq<string>, join: (string, string) -> string): (urls: seq<string>)
    ensures |urls| == |findSrcs(html)|
    ensures forall k :: 0 <= k < |urls| ==> urls[k] == join(BaseUrl, findSrcs(html)[k])
  {
    var srcs := findSrcs(html);
    seq(|srcs|, k requires 0 <= k < |srcs| => join(BaseUrl, srcs[k]))
  }

  // The bounded scan

  /** A bundle that yields no token: a non-200 answer, or a 200 body without one. */
  predicate Miss(f: Fetch) {
    f.Fetched? && (f.status != 200 || !Present(ExtractCsrfFromJsText(f.text)))
  }

  /** The bundles among `urls` that answered 200 without a token: each is followed
      by one pause. */
  function PauseCount(urls: seq<string>, serve: string -> Fetch): nat
  {
    if urls == [] then 0
    else
      var f := serve(urls[|urls| - 1]);
      PauseCount(urls[..|urls| - 1], serve) + (if f.Fetched? && f.status == 200 then 1 else 0)
  }

  /** `script_urls[:25]` */
  function Candidates(html: string, findSrcs: string -> seq<string>, join: (string, string) -> string): (c: seq<string>)
  {
    var urls := Dedup(JoinedSrcs(html, findSrcs, join));
    urls[..Min(ScriptScanCap, |urls|)]
  }

  /** What the scan over `urls` ends with: the token of the first bundle that
      answers 200 with one, the fault of the first bundle whose GET raises,
      whichever comes first, and `TokenNotFound` when every bundle misses. */
  function ScanResult(urls: seq<string>, serve: string -> Fetch): (r: Result<string, BootError>)
    ensures r.Err? ==> r.error == TokenNotFound || (r.error.ScriptFault? && r.error.url in urls)
    decreases |urls|
  {
    if urls == [] then Err(TokenNotFound)
    else match serve(urls[0])
      case FetchFault(cause) => Err(ScriptFault(urls[0], cause))
      case Fetched(status, text) =>
        if status == 200 && Present(ExtractCsrfFromJsText(text)) then Ok(ExtractCsrfFromJsText(text).value)
        else ScanResult(urls[1..], serve)
  }

  /** The scan reports `TokenNotFound` exactly when every bundle misses. */
  lemma {:induction false} ScanNotFoundIffAllMiss(urls: seq<string>, serve: string -> Fetch)
    ensures ScanResult(urls, serve) == Err(TokenNotFound) <==> forall k :: 0 <= k < |urls| ==> Miss(serve(urls[k]))
    decreases |urls|
  {
    if urls != [] {
      ScanNotFoundIffAllMiss(urls[1..], serve);
      if Miss(serve(urls[0])) {
        forall k | 0 <= k < |urls| && (forall j :: 0 <= j < |urls[1..]| ==> Miss(serve(urls[1..][j])))
          ensures Miss(serve(urls[k]))
        {
          if k > 0 { assert urls[k] == urls[1..][k - 1]; }
        }
      }
    }
  }

  /** What `bootstrap_and_find_csrf` returns or raises, as a function of what the
      landing GET and each bundle GET produce. */
  function BootOutcome(landing: Fetch, search: PatternSearch, findSrcs: string -> seq<string>,
                       join: (string, string) -> string, serve: string -> Fetch): (r: Result<string, BootError>)
    ensures r.Ok? ==> landing.Fetched? && !IsErrorStatus(landing.status)
  {
    match landing
    case FetchFault(cause) => Err(LandingFault(cause))
    case Fetched(status, text) =>
      if IsErrorStatus(status) then Err(LandingHttpError(status))
      else if Present(ExtractCsrfFromHtml(text, search)) then Ok(ExtractCsrfFromHtml(text, search).value)
      else ScanResult(Candidates(text, findSrcs, join), serve)
  }

  /** Everything the scan over `capped` promises: its outcome, the bundles it
      requested (a prefix of `capped`, all but the last a miss) and its pauses. */
  predicate ScanSpec(capped: seq<string>, serve: string -> Fetch,
                     res: Result<string, BootError>, fetched: seq<string>, pauses: seq<real>)
  {
    && res == ScanResult(capped, serve)
    && fetched <= capped
    && (fetched != [] ==> forall k :: 0 <= k < |fetched| - 1 ==> Miss(serve(fetched[k])))
    && (res.Ok? ==>
          && fetched != []
          && var f := serve(fetched[|fetched| - 1]);
             f.Fetched? && f.status == 200 && ExtractCsrfFromJsText(f.text) == Some(res.value))
    && (res.Err? ==> res.error.ScriptFault? || res.error == TokenNotFound)
    && (res.Err? && res.error.ScriptFault? ==>
          fetched != [] && serve(fetched[|fetched| - 1]) == FetchFault(res.error.cause) &&
          res.error.url == fetched[|fetched| - 1])
    && (res == Err(TokenNotFound) ==> fetched == capped && forall k :: 0 <= k < |fetched| ==> Miss(serve(fetched[k])))
    && (forall k :: 0 <= k < |pauses| ==> pauses[k] == ScriptPause)
    && (res.Ok? ==> |pauses| == PauseCount(fetched[..|fetched| - 1], serve))
    && (res.Err? ==> |pauses| == PauseCount(fetched, serve))
  }

  /** `bootstrap_and_find_csrf`. The landing GET is made once, without retries:
      `landing` is what it produced, and `serve` what each bundle URL produces.
      Returns the token or the error raised, the bundle URLs requested in order,
      and the pauses slept between them. */
  method BootstrapAndFindCsrf(landing: Fetch, search: PatternSearch, findSrcs: string -> seq<string>,
                              join: (string, string) -> string, serve: string -> Fetch)
    returns (res: Result<string, BootError>, fetched: seq<string>, pauses: seq<real>)
    ensures res == BootOutcome(landing, search, findSrcs, join, serve)
    // The landing request is not retried: a transport fault or an error status ends
    // the bootstrap before any bundle is touched.
    ensures landing.FetchFault? ==> res == Err(LandingFault(landing.cause)) && fetched == [] && pauses == []
    ensures landing.Fetched? && IsErrorStatus(landing.status) ==>
              res == Err(LandingHttpError(landing.status)) && fetched == [] && pauses == []
    // A token in the landing HTML wins with no bundle fetched.
    ensures landing.Fetched? && !IsErrorStatus(landing.status) &&
            Present(ExtractCsrfFromHtml(landing.text, search)) ==>
              res == Ok(ExtractCsrfFromHtml(landing.text, search).value) && fetched == [] && pauses == []
    // Otherwise the first 25 distinct bundle URLs are scanned in list order.
    ensures landing.Fetched? && !IsErrorStatus(landing.status) &&
            !Present(ExtractCsrfFromHtml(landing.text, search)) ==>
              ScanSpec(Candidates(landing.text, findSrcs, join), serve, res, fetched, pauses)
    ensures fetched != [] ==> landing.Fetched? && fetched <= Candidates(landing.text, findSrcs, join)
    ensures |fetched| <= ScriptScanCap
    ensures fetched != [] ==> forall k :: 0 <= k < |fetched| - 1 ==> Miss(serve(fetched[k]))
    ensures res.Ok? && fetched != [] ==>
              var f := serve(fetched[|fetched| - 1]);
              f.Fetched? && f.status == 200 && ExtractCsrfFromJsText(f.text) == Some(res.value)
    ensures res.Err? && res.error.ScriptFault? ==>
              fetched != [] && serve(fetched[|fetched| - 1]) == FetchFault(res.error.cause) &&
              res.error.url == fetched[|fetched| - 1]
    ensures res == Err(TokenNotFound) ==>
              && landing.Fetched? && fetched == Candidates(landing.text, findSrcs, join)
              && forall k :: 0 <= k < |fetched| ==> Miss(serve(fetched[k]))
    // One 0.1 s pause after each tokenless 200 body, none after other answers.
    ensures forall k :: 0 <= k < |pauses| ==> pauses[k] == ScriptPause
    ensures res.Ok? && fetched != [] ==> |pauses| == PauseCount(fetched[..|fetched| - 1], serve)
    ensures res.Err? ==> |pauses| == PauseCount(fetched, serve)
  {
    fetched := [];
    pauses := [];
    if landing.FetchFault? {
      return Err(LandingFault(landing.cause)), fetched, pauses;
    }
    if IsErrorStatus(landing.status) {
      return Err(LandingHttpError(landing.status)), fetched, pauses;
    }
    var csrf := ExtractCsrfFromHtml(landing.text, search);
    if Present(csrf) {
      return Ok(csrf.value), fetched, pauses;
    }
    var scriptUrls := FindScriptSrcs(landing.text, findSrcs, join);
    var capped := scriptUrls[..Min(ScriptScanCap, |scriptUrls|)];
    assert capped == Candidates(landing.text, findSrcs, join);
    res, fetched, pauses := ScanBundles(capped, serve);
  }

  /** The loop over the capped bundle list: each URL is fetched once, in order,
      until one fails in transport or yields a token. */
  method ScanBundles(capped: seq<string>, serve: string -> Fetch)
    returns (res: Result<string, BootError>, fetched: seq<string>, pauses: seq<real>)
    ensures ScanSpec(capped, serve, res, fetched, pauses)
  {
    fetched := [];
    pauses := [];
    var i := 0;
    while i < |capped|
      invariant 0 <= i <= |capped|
      invariant fetched == capped[..i]
      invariant forall k :: 0 <= k < i ==> Miss(serve(capped[k]))
      invariant |pauses| == PauseCount(fetched, serve)
      invariant forall k :: 0 <= k < |pauses| ==> pauses[k] == ScriptPause
      invariant ScanResult(capped[i..], serve) == ScanResult(capped, serve)
    {
      var url := capped[i];
      var rr := serve(url);
      assert capped[..i + 1] == capped[..i] + [url];
      assert capped[i..][0] == url && capped[i..][1..] == capped[i + 1..];
      fetched := fetched + [url];
      assert fetched[..|fetched| - 1] == capped[..i];
      if rr.FetchFault? {
        return Err(ScriptFault(url, rr.cause)), fetched, pauses;
      }
      if rr.status != 200 {
        i := i + 1;
        continue;
      }
      var token := ExtractCsrfFromJsText(rr.text);
      if Present(token) {
        return Ok(token.value), fetched, pauses;
      }
      pauses := pauses + [ScriptPause];
      i := i + 1;
    }
    assert capped[..i] == capped;
    res := Err(TokenNotFound);
  }
}
