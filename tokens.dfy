/** CSRF token discovery in the landing HTML and in script bundles
    (`SIGNED_TOKEN_RE`, `extract_csrf_from_html`, `extract_csrf_from_js_text`
    in scraping/scraping_price.py). */
module Tokens {
  import opened Common

  // The signed-token shape
  //   (Im[A-Za-z0-9_\-]+)\.([A-Za-z0-9_\-]+)\.([A-Za-z0-9_\-]+)

  /** One character of the class `[A-Za-z0-9_\-]`. */
  predicate IsSafe(c: char) {
    ('A' <= c <= 'Z') || ('a' <= c <= 'z') || ('0' <= c <= '9') || c == '_' || c == '-'
  }

  /** Every character of s[i..j] is a safe character. */
  predicate SafeRun(s: string, i: int, j: int)
    requires 0 <= i <= j <= |s|
  {
    forall k :: i <= k < j ==> IsSafe(s[k])
  }

  /** s[p..q] is `Im` + safe+ + `.` + safe+ + `.` + safe+, with its dots at d1 and d2. */
  predicate SignedSpan(s: string, p: int, d1: int, d2: int, q: int) {
    && 0 <= p && p + 2 < d1 && d1 + 1 < d2 && d2 + 1 < q <= |s|
    && s[p] == 'I' && s[p + 1] == 'm'
    && s[d1] == '.' && s[d2] == '.'
    && SafeRun(s, p + 2, d1) && SafeRun(s, d1 + 1, d2) && SafeRun(s, d2 + 1, q)
  }

  /** s[p..q] matches the whole signed-token pattern. */
  ghost predicate TokenSpan(s: string, p: int, q: int) {
    exists d1, d2 :: SignedSpan(s, p, d1, d2, q)
  }

  /** t as a whole has the signed-token shape. */
  ghost predicate IsSignedToken(t: string) {
    TokenSpan(t, 0, |t|)
  }

  /** A span of a text has the shape exactly when the substring has it. */
  lemma TokenSpanSubstring(s: string, p: int, q: int)
    requires 0 <= p <= q <= |s|
    ensures TokenSpan(s, p, q) <==> IsSignedToken(s[p..q])
  {
    var t := s[p..q];
    assert forall k :: 0 <= k < |t| ==> t[k] == s[p + k];
    if TokenSpan(s, p, q) {
      var d1, d2 :| SignedSpan(s, p, d1, d2, q);
      assert SignedSpan(t, 0, d1 - p, d2 - p, |t|);
    }
    if IsSignedToken(t) {
      var d1, d2 :| SignedSpan(t, 0, d1, d2, |t|);
      assert SignedSpan(s, p, d1 + p, d2 + p, q);
    }
  }

  /** The end of the longest run of safe characters starting at i: what a
      greedy `[A-Za-z0-9_\-]+` consumes. */
  function RunEnd(s: string, i: int): (e: int)
    requires 0 <= i <= |s|
    ensures i <= e <= |s| && SafeRun(s, i, e) && (e == |s| || !IsSafe(s[e]))
    decreases |s| - i
  {
    if i < |s| && IsSafe(s[i]) then RunEnd(s, i + 1) else i
  }

  /** A run of safe characters ending at an unsafe one (or at the end) is exactly
      what the greedy run consumes. */
  lemma {:induction false} RunEndExact(s: string, i: int, j: int)
    requires 0 <= i <= j <= |s| && SafeRun(s, i, j) && (j == |s| || !IsSafe(s[j]))
    ensures RunEnd(s, i) == j
    decreases j - i
  {
    if i < j {
      RunEndExact(s, i + 1, j);
    }
  }

  /** The greedy run reaches at least as far as any safe run. */
  lemma {:induction false} RunEndCovers(s: string, i: int, j: int)
    requires 0 <= i <= j <= |s| && SafeRun(s, i, j)
    ensures j <= RunEnd(s, i)
    decreases j - i
  {
    if i < j {
      RunEndCovers(s, i + 1, j);
    }
  }

  /** The end of the match of the signed-token pattern anchored at p, if any.
      Safe characters never include '.', so each group's greedy run has to stop
      right before the dot that follows it: backtracking cannot help. */
  function MatchAt(s: string, p: int): (r: Option<int>)
    requires 0 <= p <= |s|
  {
    if p + 2 <= |s| && s[p] == 'I' && s[p + 1] == 'm' then
      var e1 := RunEnd(s, p + 2);
      if p + 2 < e1 < |s| && s[e1] == '.' then
        var e2 := RunEnd(s, e1 + 1);
        if e1 + 1 < e2 < |s| && s[e2] == '.' then
          var e3 := RunEnd(s, e2 + 1);
          if e2 + 1 < e3 then Some(e3) else None
        else None
      else None
    else None
  }

  /** A match at p is a signed token that cannot be extended. */
  lemma MatchAtSound(s: string, p: int)
    requires 0 <= p <= |s| && MatchAt(s, p).Some?
    ensures var q := MatchAt(s, p).value;
      p <= q <= |s| && TokenSpan(s, p, q) && (q == |s| || !IsSafe(s[q]))
  {
    var e1 := RunEnd(s, p + 2);
    var e2 := RunEnd(s, e1 + 1);
    var e3 := RunEnd(s, e2 + 1);
    assert SignedSpan(s, p, e1, e2, e3);
  }

  /** Every signed token starting at p lies within the match at p. */
  lemma MatchAtComplete(s: string, p: int, q: int)
    requires 0 <= p <= q <= |s| && TokenSpan(s, p, q)
    ensures MatchAt(s, p).Some? && q <= MatchAt(s, p).value
  {
    var d1, d2 :| SignedSpan(s, p, d1, d2, q);
    RunEndExact(s, p + 2, d1);
    RunEndExact(s, d1 + 1, d2);
    RunEndCovers(s, d2 + 1, q);
  }

  /** `SIGNED_TOKEN_RE.search(s, pos=p)`: the leftmost match at or after p, as a span. */
  function SearchFrom(s: string, p: int): (r: Option<(int, int)>)
    requires 0 <= p <= |s|
    ensures r.Some? ==> p <= r.value.0 <= |s| && MatchAt(s, r.value.0) == Some(r.value.1)
    ensures r.Some? ==> forall k :: p <= k < r.value.0 ==> MatchAt(s, k).None?
    ensures r.None? ==> forall k :: p <= k <= |s| ==> MatchAt(s, k).None?
    decreases |s| - p
  {
    var m := MatchAt(s, p);
    if m.Some? then Some((p, m.value))
    else if p == |s| then None
    else SearchFrom(s, p + 1)
  }

  /** `SIGNED_TOKEN_RE.search(text)` followed by `group(0)`. */
  function SignedTokenSearch(text: string): (r: Option<string>)
  {
    match SearchFrom(text, 0)
    case None => None
    case Some((p, q)) =>
      MatchAtSound(text, p);
      Some(text[p..q])
  }

  /** `extract_csrf_from_js_text`: the search result is the leftmost signed token of
      the text, taken as long as it goes; None exactly when the text contains no
      signed token at all. */
  function ExtractCsrfFromJsText(text: string): (r: Option<string>)
    ensures r.Some? ==> IsSignedToken(r.value)
    ensures r.Some? ==> exists p, q :: LeftmostLongest(text, p, q) && r.value == text[p..q]
    ensures r.None? <==> forall p, q :: 0 <= p <= q <= |text| ==> !IsSignedToken(text[p..q])
  {
    SignedTokenSearchSpec(text);
    SignedTokenSearch(text)
  }

  /** s[p..q] is a signed token, no signed token starts before p, and the token
      cannot be extended to the right. */
  ghost predicate LeftmostLongest(s: string, p: int, q: int) {
    && 0 <= p <= q <= |s|
    && IsSignedToken(s[p..q])
    && (q == |s| || !IsSafe(s[q]))
    && forall k, j :: 0 <= k < p && k <= j <= |s| ==> !IsSignedToken(s[k..j])
  }

  lemma SignedTokenSearchSpec(text: string)
    ensures var r := SignedTokenSearch(text);
      && (r.Some? ==> IsSignedToken(r.value))
      && (r.Some? ==> exists p, q :: LeftmostLongest(text, p, q) && r.value == text[p..q])
      && (r.None? <==> forall p, q :: 0 <= p <= q <= |text| ==> !IsSignedToken(text[p..q]))
  {
    var sr := SearchFrom(text, 0);
    if sr.Some? {
      var (p, q) := sr.value;
      MatchAtSound(text, p);
      TokenSpanSubstring(text, p, q);
      forall k, j | 0 <= k < p && k <= j <= |text|
        ensures !IsSignedToken(text[k..j])
      {
        TokenSpanSubstring(text, k, j);
        if TokenSpan(text, k, j) {
          MatchAtComplete(text, k, j);
        }
      }
      assert LeftmostLongest(text, p, q);
    } else {
      forall k, j | 0 <= k <= j <= |text|
        ensures !IsSignedToken(text[k..j])
      {
        TokenSpanSubstring(text, k, j);
        if TokenSpan(text, k, j) {
          MatchAtComplete(text, k, j);
        }
      }
    }
  }

  /** A signed token that cannot be extended is exactly the match at its start. */
  lemma MatchAtExact(s: string, p: int, q: int)
    requires 0 <= p <= q <= |s| && TokenSpan(s, p, q) && (q == |s| || !IsSafe(s[q]))
    ensures MatchAt(s, p) == Some(q)
  {
    var d1, d2 :| SignedSpan(s, p, d1, d2, q);
    RunEndExact(s, p + 2, d1);
    RunEndExact(s, d1 + 1, d2);
    RunEndExact(s, d2 + 1, q);
  }

  /** The match is unique: two leftmost-longest spans are the same span. */
  lemma LeftmostLongestUnique(s: string, p: int, q: int, p': int, q': int)
    requires LeftmostLongest(s, p, q) && LeftmostLongest(s, p', q')
    ensures p == p' && q == q'
  {
    TokenSpanSubstring(s, p, q);
    TokenSpanSubstring(s, p', q');
    assert p == p';
    MatchAtExact(s, p, q);
    MatchAtExact(s, p', q');
  }

  // The landing-page extractor

  /** The five case-insensitive patterns tried, in this order, on the landing HTML:
      an `<input name=csrf_token value=…>`, a `<meta name=csrf-token content=…>`,
      an `x-csrftoken: …` assignment, a `csrf_token`/`csrf-token`/`csrftoken`
      assignment and a `csrfToken` assignment. */
  datatype HtmlPattern =
    | CsrfInputField
    | CsrfMetaTag
    | XCsrfTokenAssignment
    | CsrfTokenAssignment
    | CsrfTokenCamelAssignment

  const HtmlPatterns: seq<HtmlPattern> :=
    [CsrfInputField, CsrfMetaTag, XCsrfTokenAssignment, CsrfTokenAssignment, CsrfTokenCamelAssignment]

  /** `re.search(p, html, flags=re.IGNORECASE)` followed by `group(1)`, for each
      pattern: the regular-expression engine is not modelled, so this is a parameter. */
  type PatternSearch = (HtmlPattern, string) -> Option<string>

  /** The first pattern of the list, in order, that finds something. */
  function FirstHit(patterns: seq<HtmlPattern>, html: string, search: PatternSearch): (r: Option<string>)
    ensures r.Some? ==> exists i :: 0 <= i < |patterns| && search(patterns[i], html) == r &&
                          forall j :: 0 <= j < i ==> search(patterns[j], html).None?
    ensures r.None? <==> forall i :: 0 <= i < |patterns| ==> search(patterns[i], html).None?
  {
    if patterns == [] then None
    else if search(patterns[0], html).Some? then search(patterns[0], html)
    else
      var rest := FirstHit(patterns[1..], html, search);
      assert forall i :: 0 < i < |patterns| ==> patterns[i] == patterns[1..][i - 1];
      rest
  }

  /** `extract_csrf_from_html`: the first generic pattern's capture, else the
      leftmost signed token, else None. It never raises. */
  function ExtractCsrfFromHtml(html: string, search: PatternSearch): (r: Option<string>)
  {
    var hit := FirstHit(HtmlPatterns, html, search);
    if hit.Some? then hit else ExtractCsrfFromJsText(html)
  }

  /** The landing extractor prefers the generic patterns in list order, and only
      when all five miss does it fall back to the script extractor's answer. */
  lemma ExtractCsrfFromHtmlSpec(html: string, search: PatternSearch)
    ensures var r := ExtractCsrfFromHtml(html, search);
      && (forall i :: 0 <= i < |HtmlPatterns| ==> search(HtmlPatterns[i], html).None?) ==>
           r == ExtractCsrfFromJsText(html)
    ensures var r := ExtractCsrfFromHtml(html, search);
      forall i :: (0 <= i < |HtmlPatterns| && search(HtmlPatterns[i], html).Some? &&
                   forall j :: 0 <= j < i ==> search(HtmlPatterns[j], html).None?) ==>
        r == search(HtmlPatterns[i], html)
    ensures var r := ExtractCsrfFromHtml(html, search);
      r.None? <==> (forall i :: 0 <= i < |HtmlPatterns| ==> search(HtmlPatterns[i], html).None?) &&
                   (forall p, q :: 0 <= p <= q <= |html| ==> !IsSignedToken(html[p..q]))
  {
    var hit := FirstHit(HtmlPatterns, html, search);
    forall i | 0 <= i < |HtmlPatterns| && search(HtmlPatterns[i], html).Some? &&
        (forall j :: 0 <= j < i ==> search(HtmlPatterns[j], html).None?)
      ensures ExtractCsrfFromHtml(html, search) == search(HtmlPatterns[i], html)
    {
      var k :| 0 <= k < |HtmlPatterns| && search(HtmlPatterns[k], html) == hit &&
               forall j :: 0 <= j < k ==> search(HtmlPatterns[j], html).None?;
      assert k == i;
    }
  }

  /** A concrete token: a bundle starting `ImA.b.c;` yields exactly `ImA.b.c`. */
  lemma ScriptTokenExample()
    ensures ExtractCsrfFromJsText("ImA.b.c;") == Some("ImA.b.c")
  {
    var s := "ImA.b.c;";
    assert SignedSpan(s, 0, 3, 5, 7);
    MatchAtExact(s, 0, 7);
    assert s[0..7] == "ImA.b.c";
  }
}
