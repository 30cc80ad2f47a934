# Fuel-price acquisition and query layer, in Dafny

This project models two parts of a small fuel-price data platform for the state of
Bahia, Brazil.

**The acquisition script** is `scraping/scraping_price.py`. It opens a session on
the public price portal and finds a CSRF token. It looks first in the landing HTML,
then in at most 25 of the page's script bundles. It then posts one request per fuel
(GASOLINA, ETANOL, GNV, DIESEL). Each request goes through a retrying HTTP client
with capped exponential backoff, jitter and `Retry-After` handling. Each fuel's
first result page is written as an immutable batch: a JSONL data file and a
manifest, under `anp=<fuel>/dt=<date>/run_id=<uuid>`. An overall manifest is
written at the end.

**The query layer** is `fastapi/dblib/querydb.py`. It builds parameterised SQL for
the API's endpoints over a "gold" and a "silver" table. It validates the sort
column and direction, and it returns dict rows, pages, and summaries.

The model is split as follows.

- Value-level code (backoff, token search, slugs, paths, page interpretation,
  SQL text) is datatypes, functions and lemmas.
- The stepwise code is methods with loops, proved against specification functions:
  - the retry loop;
  - the de-duplication of script URLs;
  - the bounded bundle scan;
  - the per-fuel loop of `main`;
  - the SQL builders.
- The output directory is a `FileStore` class whose `files` map the methods update.
- The database's `execute` is an oracle `Db` from a query (statement plus
  parameters) to rows. Statements are lists of fragments, so the model can state
  that every query's placeholder count matches its parameter count (`Balanced`),
  and which values fill them in which order.
- Network answers, jitter draws, clock readings, run ids and the JSON decoder are
  parameters.

### Where the code and its design description differ

The model follows the code in each case below.

- **401 is retried.** `request_with_retry` raises a `RuntimeError` on a 401. The
  same `try` catches that error, so it is retried with backoff like any other error
  until the six attempts run out. `Retry.UnauthorizedIsRetried` and
  `Retry.AlwaysUnauthorized` state this.
- **A huge `Retry-After` is not waited.** `time.sleep` runs inside the same `try`,
  so a plain-digit value of 9223372037 s or more makes it raise OverflowError. The
  handler records that error and sleeps a computed backoff instead
  (`Retry.Classify`, `Retry.AllRetryAftersOverflow`).
- **Fuels are not isolated.** The per-fuel `try`/`finally` has no `except`. A
  failing fuel still gets its pause (unless it is the last), then the error
  propagates. No later fuel runs and no overall manifest is written
  (`Collect.FailingFuelAborts`, `Collect.RunCollection`).
- **`finished_at_utc` is a start time.** It is read before the loop, not after it
  (`Collect.FinishedStampIsAStartTime`).
- **The bootstrap GET is not retried.** The landing page is fetched with a plain
  `session.get`, not through the retrying client (`Bootstrap.BootstrapAndFindCsrf`).
- **`get_cities` without a state.** Without `uf` it emits `AND city IS NOT NULL`
  with no `WHERE` before it (`QueryDb.CitiesWhere`).
- **The data file is removed before the request.** A failed fuel therefore leaves
  no data file and no manifest for its run directory (`Collect.FilesAfterFailure`).

## Model

| member | source | states |
|---|---|---|
| Backoff.BaseDelay | scraping/scraping_price.py:215 | the un-jittered delay 2·2^(attempt-1), capped, is positive and never above 60 s |
| Backoff.Exp2 | scraping/scraping_price.py:215 | `2 ** e` is positive for every integer exponent, negative ones included |
| Backoff.ComputeBackoff | scraping/scraping_price.py:213-217 | the delay is at least the base delay and at most 60 s, 1.75 times the base, and at least 1.25 times the base unless capped |
| Backoff.Jittered | scraping/scraping_price.py:216-217 | adding a jitter of 0.25 to 0.75 times the base keeps the delay between the base and 60 s, within [1.25·base, 1.75·base] below the cap |
| Backoff.Exp2Monotone | scraping/scraping_price.py:215 | `2 ** e` grows with the exponent |
| Backoff.BaseDelayMonotone | scraping/scraping_price.py:215 | a later attempt never has a shorter base delay |
| Backoff.JitteredMonotone | scraping/scraping_price.py:216-217 | with the same jitter factor, a longer base never gives a shorter delay |
| Backoff.ComputeBackoffMonotone | scraping/scraping_price.py:213-217 | with the same jitter factor, a later attempt never waits less |
| Backoff.BackoffPlateau | scraping/scraping_price.py:213-217 | from the sixth attempt the base delay and the delay are exactly 60 s, whatever the jitter |
| Backoff.BackoffBelowPlateau | scraping/scraping_price.py:213-217 | up to the fifth attempt the delay stays below 60 s |
| Retry.Snippet | scraping/scraping_price.py:248 | the snippet has min(n, length) characters, no newline, and agrees with the body elsewhere |
| Retry.Classify | scraping/scraping_price.py:233-259 | a response is returned exactly when it is not 401, 429 or 400..599; a 429 waits its Retry-After when `float()` reads it and the value is below 9223372037 s, raises OverflowError from `time.sleep` for a plain-digit value at or above that, raises when `isdigit()` accepts it but `float()` does not, and waits a backoff otherwise; a 401 becomes an error with a 300-character snippet, any other 400..599 an HTTP error carrying the status, a transport fault a transport error carrying its cause; every error waits the computed backoff |
| Retry.RequestWithRetry | scraping/scraping_price.py:220-261 | the loop's result, waits and request count equal the replay of the outcome sequence |
| Retry.ReplayShape | scraping/scraping_price.py:231-261 | a response comes after one wait per earlier attempt; exhaustion uses every attempt with one wait each |
| Retry.ReplaySteps | scraping/scraping_price.py:231-259 | each wait is that of a non-returning attempt, in order; a response is that of the first returning attempt |
| Retry.ReplayAllFailed | scraping/scraping_price.py:255-261 | when every attempt raised, the run exhausts reporting the last one's error |
| Retry.ReplayLastError | scraping/scraping_price.py:229-261 | on exhaustion the reported error is the last raised one, only 429s coming after it, or the initial one if none raised |
| Retry.RunShape | scraping/scraping_price.py:231-261 | one to six requests; a response after one wait per earlier attempt; exhaustion after six requests and six waits |
| Retry.RunSteps | scraping/scraping_price.py:231-259 | the response is the first returned, each wait belongs to a failed or rate-limited attempt, and exhaustion means no attempt returned |
| Retry.RunLastError | scraping/scraping_price.py:229-261 | on exhaustion the error is None exactly when all six attempts were 429s that slept without raising, else the last raised error (an OverflowError from `time.sleep` included) with only such 429s after it |
| Retry.RunWaitBounds | scraping/scraping_price.py:235-259 | each wait is between that attempt's base delay and 60 s, or is the 429's decimal Retry-After below the `time.sleep` limit |
| Retry.FirstResponseReturned | scraping/scraping_price.py:252-253 | a first answer below 400 and not 429 is returned after one request and no wait |
| Retry.TwoRateLimitsThenSuccess | scraping/scraping_price.py:235-244 | two 429s without Retry-After, then 200: the two backoff waits for attempts 1 and 2, then the 200 on request three |
| Retry.RetryAfterFiveSeconds | scraping/scraping_price.py:236-238 | `Retry-After: 5` on a 429 makes the first wait exactly 5 s and a second request follow |
| Retry.UnauthorizedIsRetried | scraping/scraping_price.py:247-259 | a 401 is not fatal: a backoff wait and a second request follow it |
| Retry.AlwaysUnauthorized | scraping/scraping_price.py:247-261 | six 401s make six requests and exhaust, reporting the last 401's snippet |
| Retry.AllRateLimited | scraping/scraping_price.py:235-261 | six 429s whose wait `time.sleep` accepts exhaust with no recorded error after six waits |
| Retry.AllRetryAftersOverflow | scraping/scraping_price.py:235-261 | six 429s whose Retry-After is too long for `time.sleep` make six requests, wait six computed backoffs, and exhaust with the last OverflowError recorded |
| Tokens.RunEnd | scraping/scraping_price.py:77 | the end of the longest run of `[A-Za-z0-9_-]` characters from a position: all of it is token characters and the next character is not |
| Tokens.TokenSpanSubstring | scraping/scraping_price.py:77 | a span of a text has the `Im….….…` token shape exactly when the substring on its own has it |
| Tokens.MatchAtSound | scraping/scraping_price.py:77 | a match anchored at a position is a token span that cannot be extended to the right |
| Tokens.MatchAtComplete | scraping/scraping_price.py:77 | every token span starting at a position lies within the match found there |
| Tokens.MatchAtExact | scraping/scraping_price.py:77 | a token span that cannot be extended is exactly the match found at its start |
| Tokens.LeftmostLongestUnique | scraping/scraping_price.py:77 | at most one span is the leftmost-longest token of a text |
| Tokens.SearchFrom | scraping/scraping_price.py:174 | the search finds the first position, from a start, where the pattern matches, or reports that none does |
| Tokens.ExtractCsrfFromJsText | scraping/scraping_price.py:173-175 | a found token has the signed shape and is the leftmost-longest match; nothing is found exactly when no substring has the shape |
| Tokens.SignedTokenSearchSpec | scraping/scraping_price.py:173-175 | the greedy `re.search` of SIGNED_TOKEN_RE returns the leftmost-longest token, and none exactly when the text holds no token |
| Tokens.ScriptTokenExample | scraping/scraping_price.py:173-175 | example: a bundle starting `ImA.b.c;` yields exactly `ImA.b.c` |
| Tokens.FirstHit | scraping/scraping_price.py:148-151 | the result is the capture of the first pattern, in list order, that finds something, and none exactly when all miss |
| Tokens.ExtractCsrfFromHtmlSpec | scraping/scraping_price.py:140-157 | the first of the five patterns that finds something decides; only when all five miss is the signed-token search used; none exactly when all patterns miss and no token is in the HTML |
| Bootstrap.DedupSpec | scraping/scraping_price.py:164-170 | the de-duplicated list has no repeats, holds exactly the input's elements, and lists them in the order of their first occurrences |
| Bootstrap.FindScriptSrcs | scraping/scraping_price.py:160-170 | the seen-set loop returns the order-preserving de-duplication of the `src` values joined onto BASE_URL |
| Bootstrap.BootstrapAndFindCsrf | scraping/scraping_price.py:178-207 | the result is `BootOutcome` of the landing and bundle answers; a landing fault or error status ends the bootstrap with no bundle fetched; a token in the HTML wins with none fetched; otherwise the scan over the first 25 distinct bundle URLs keeps all of `ScanSpec`; one 0.1 s pause per tokenless 200 |
| Bootstrap.ScanBundles | scraping/scraping_price.py:197-207 | `ScanSpec`: the result is `ScanResult` of the candidates; the fetched URLs are a prefix of them, all but the last missed, the last holding the fault or the token; not-found means all were fetched and missed; one pause per tokenless 200 |
| Bootstrap.ScanResult | scraping/scraping_price.py:197-207 | the scan's outcome over a URL list: a token, the fault of a URL of that list, or not-found |
| Bootstrap.ScanNotFoundIffAllMiss | scraping/scraping_price.py:197-207 | the scan ends in not-found exactly when every bundle answers non-200 or a 200 body without a token |
| Bootstrap.BootOutcome | scraping/scraping_price.py:178-207 | a token is returned only after a landing GET that did not fault and passed `raise_for_status` |
| Output.SafeSlugSpec | scraping/scraping_price.py:123-124 | the slug has the input's length, only allowed characters and no `/`, and keeps a character exactly when it is allowed |
| Output.SafeSlugFixesAllowed | scraping/scraping_price.py:123-124 | a string of allowed characters is its own slug |
| Output.SafeSlugIdempotent | scraping/scraping_price.py:123-124 | slugging twice is slugging once |
| Output.BasenameOfJoin | scraping/scraping_price.py:387 | the basename of a path joined with a name without `/` is that name |
| Output.FileNamesDistinct | scraping/scraping_price.py:300-301 | in any directories, `data.jsonl`, `manifest.json` and the overall manifest of line 442 are three different paths |
| Output.LayoutPathsDistinct | scraping/scraping_price.py:288-302 | a run's data and manifest paths differ from each other and from the overall manifest path |
| Output.RunIdsSeparateFiles | scraping/scraping_price.py:288-302 | two different run ids never share a data or a manifest path |
| Output.FileStore.Remove | scraping/scraping_price.py:339-340 | the file is gone afterwards and no other file changed |
| Output.FileStore.Append | scraping/scraping_price.py:131-134 | the records follow the file's old contents (none when it was absent); no other file changed |
| Output.FileStore.Write | scraping/scraping_price.py:404-405 | the file holds exactly the new document; no other file changed |
| Output.PageToRows | scraping/scraping_price.py:305-324 | one row per result item, in order, each carrying the shared collection time, run id, source, fuel and query |
| Collect.InterpretPageDefaults | scraping/scraping_price.py:356-358 | missing page counters read as 1 page, 0 records and the length of the results |
| Collect.InterpretPageAccepts | scraping/scraping_price.py:356-362 | an accepted page is a JSON object whose `resultado` is a list or falsy |
| Collect.NonListResultRefused | scraping/scraping_price.py:358-362 | a truthy non-list `resultado` is refused with an error |
| Collect.CollectPageSpec | scraping/scraping_price.py:353-402 | a successful fuel has the retry run's response, parsed, with one row per result, and a manifest naming the run, time, fuel, `data.jsonl`, run root and counts |
| Collect.FilesAfterSuccess | scraping/scraping_price.py:339-405 | after a success the data file holds exactly the rows, the manifest its document, and no other file changed |
| Collect.FilesAfterFailure | scraping/scraping_price.py:338-340 | after a failure the data file is gone and no other file changed |
| Collect.CollectOnePagePerFuel | scraping/scraping_price.py:327-408 | returns the fuel's manifest or error, leaves the store as specified, and waits as the retry run did |
| Collect.FuelLoop | scraping/scraping_price.py:431-440 | the loop fails only with an error naming a fuel |
| Collect.FirstFailure | scraping/scraping_price.py:431-434 | the index of the first failed fuel from a position; all fuels before it succeeded |
| Collect.FuelLoopOk | scraping/scraping_price.py:431-440 | a successful loop lists each remaining fuel's manifest in order, with a pause after each but the last |
| Collect.FuelLoopErr | scraping/scraping_price.py:431-440 | the loop fails exactly when some fuel fails, with the first failing fuel's error, after that fuel's pause |
| Collect.FuelLoopKeepsOverall | scraping/scraping_price.py:431-444 | no fuel touches the overall manifest's path |
| Collect.RunCollection | scraping/scraping_price.py:411-447 | it fails with a bootstrap error exactly when `BootOutcome` is an error, and then with that error, leaving every file of the output store unchanged; otherwise the overall manifest is written only when every fuel succeeded, with the stamp read after the bootstrap |
| Collect.FuelRuns | scraping/scraping_price.py:431-440 | the `for` loop's manifests, pauses and files equal the specification of the loop |
| Collect.AllFuelsCollected | scraping/scraping_price.py:431-440 | when every fuel succeeds there are four manifests in FUELS order, each naming its fuel and run, and the three between-fuel pauses |
| Collect.FuelLoopAllOk | scraping/scraping_price.py:431-440 | when every collection succeeds the loop returns their manifests in order and sleeps every between-fuel pause |
| Collect.ManifestNamesItsFuel | scraping/scraping_price.py:381-384 | a fuel's manifest carries that fuel, its run id and its collection time |
| Collect.FailingFuelAborts | scraping/scraping_price.py:431-440 | a failing fuel k is the error, and the pauses stop after k's own pause |
| Collect.FinishedStampIsAStartTime | scraping/scraping_price.py:425-433 | with a clock that does not run backwards, `finished_at_utc` is no later than any fuel's collection time |
| Common.TruncateToward0 | scraping/scraping_price.py:356-358 | `int()` of a real rounds toward zero |
| Common.ParseInt | scraping/scraping_price.py:356-358 | `int()` of a string succeeds exactly when it is an optional `+` or `-` followed by one or more ASCII digits; a digit-led string reads as a non-negative number |
| Common.ParseIntLeadingZero | scraping/scraping_price.py:356-358 | a leading `0` does not change the value `int()` reads |
| Common.ParseIntSign | scraping/scraping_price.py:356-358 | a `+` sign does not change the value; a `-` sign negates it, so `-0` reads as 0 |
| Common.NatText | fastapi/dblib/querydb.py:632 | `str(n)` of a natural number is a non-empty string of digits |
| Common.IntTextRoundTrip | fastapi/dblib/querydb.py:632 | reading back `str(n)` gives n |
| SqlText.WhereSql | fastapi/dblib/querydb.py:93 | the WHERE clause is empty exactly when there are no conditions |
| SqlText.JoinAndPlaceholders | fastapi/dblib/querydb.py:93 | joining conditions keeps the sum of their placeholders |
| SqlText.WherePlaceholders | fastapi/dblib/querydb.py:93 | the WHERE clause has as many placeholders as its conditions together |
| SqlText.FlattenPlaceholders | fastapi/dblib/querydb.py:96 | a statement's placeholders are those of its head, conditions and tail |
| SqlText.TailInFlatten | fastapi/dblib/querydb.py:100-110 | every fragment of the tail appears in the rendered statement |
| SqlText.RenderAppend | fastapi/dblib/querydb.py:100-110 | the text of two concatenated pieces is the text of the first followed by the text of the second |
| SqlText.LowerChar | fastapi/dblib/querydb.py:82 | an ASCII capital moves to its small letter; a character with no small form stays as it is |
| SqlText.LowerIdempotent | fastapi/dblib/querydb.py:82 | lower-casing twice is lower-casing once |
| SqlText.SkipFront | fastapi/dblib/querydb.py:82 | the first non-whitespace position from a start, with only whitespace before it |
| SqlText.SkipBack | fastapi/dblib/querydb.py:82 | the end after dropping trailing whitespace, never below the lower bound |
| SqlText.StripSpec | fastapi/dblib/querydb.py:82 | `strip()` returns a substring with only whitespace around it, starting and ending with non-whitespace |
| SqlText.StripIdempotent | fastapi/dblib/querydb.py:82 | stripping twice is stripping once |
| SqlText.NormalizeDirSpacedUpper | fastapi/dblib/querydb.py:82-84 | example: `" DESC\n"` normalises to `desc` |
| SqlText.NormalizeDirCapitalised | fastapi/dblib/querydb.py:82-84 | example: `"Asc"` normalises to `asc` |
| SqlText.NormalizeDirRejectsLonger | fastapi/dblib/querydb.py:82-84 | example: `"ascending"` is not an accepted direction |
| SqlText.LowerHasNoCapitals | fastapi/dblib/querydb.py:82 | a lower-cased string has no capital letters |
| SqlText.LowerWithoutCapitals | fastapi/dblib/querydb.py:82 | a string without capitals is its own lower-case form |
| SqlText.NormalizeDirIdempotent | fastapi/dblib/querydb.py:82 | normalising the direction twice is normalising once |
| QueryDb.BalancedText | fastapi/dblib/querydb.py:96-97 | a query is balanced exactly when its rendered text has one placeholder per parameter |
| QueryDb.ResolveParamsPrecedence | fastapi/dblib/querydb.py:36-39 | positional params win even when empty; keyword `parameters` apply only without them; neither gives none |
| QueryDb.ZipDictKeys | fastapi/dblib/querydb.py:54 | the dict's keys are the column names that have a value |
| QueryDb.ZipDictLastWins | fastapi/dblib/querydb.py:54 | a column name not repeated later maps to its own value |
| QueryDb.ShapeRows | fastapi/dblib/querydb.py:46-54 | with columns, one dict per tuple; without columns, the raw tuples |
| QueryDb.QueryDbRows | fastapi/dblib/querydb.py:36-54 | row i maps each unrepeated column name to position j of tuple i of the executed query |
| QueryDb.Total | fastapi/dblib/querydb.py:98 | no count row means 0; an integer `total` is that total; it is an error exactly when the `total` column is missing or `int()` refuses it |
| QueryDb.Offset | fastapi/dblib/querydb.py:94 | offset plus page size is page times page size; page 1 starts at 0 |
| QueryDb.Opt | fastapi/dblib/querydb.py:89-91 | a filter adds a parameter exactly when its value is a non-empty string |
| QueryDb.Cond | fastapi/dblib/querydb.py:139-149 | a filter condition has one placeholder |
| QueryDb.AddFilter | fastapi/dblib/querydb.py:143-149 | a present filter appends its condition and its value; the counts stay matched |
| QueryDb.FirstFilter | fastapi/dblib/querydb.py:86-91 | the first optional filter starts the lists, or leaves them empty |
| QueryDb.FirstCond | fastapi/dblib/querydb.py:554-555 | a required filter starts the lists with its condition and value |
| QueryDb.AddPlace | fastapi/dblib/querydb.py:383-388 | state then city conditions and values, each only when present |
| QueryDb.AddPeriod | fastapi/dblib/querydb.py:143-149 | appends the period-start condition and then the period-end one, each with its parameter and only when that value is present |
| QueryDb.FetchPage | fastapi/dblib/querydb.py:93-119 | the count query comes first; the data query follows only when the total reads as an int, with the filters, then page size and offset |
| QueryDb.LimitOffsetPlaceholders | fastapi/dblib/querydb.py:109 | `LIMIT ? OFFSET ?` has two placeholders |
| QueryDb.LimitOffsetText | fastapi/dblib/querydb.py:109 | the paging fragments render as ` LIMIT ? OFFSET ?` |
| QueryDb.DayCount | fastapi/dblib/querydb.py:154-162 | the day count has one placeholder per filter |
| QueryDb.DaySeries | fastapi/dblib/querydb.py:166-178 | the daily series has the filters' placeholders plus limit and offset; its tail renders as the day grouping and order followed by a single `LIMIT ? OFFSET ?` (`DaySeriesTailText`) |
| QueryDb.DaySeriesTailText | fastapi/dblib/querydb.py:174-177 | the day-series tail renders as ` GROUP BY date_trunc('day', price_ts) ORDER BY day ASC LIMIT ? OFFSET ?`, one LIMIT |
| QueryDb.OrderedPage | fastapi/dblib/querydb.py:108-109 | the ORDER BY tail writes the column and direction as text, with two placeholders |
| QueryDb.OrderByText | fastapi/dblib/querydb.py:108 | the ordering renders as ` ORDER BY <column> <direction>` |
| QueryDb.OrderedPageText | fastapi/dblib/querydb.py:108-109 | the latest-prices page tail renders as that ordering followed by one ` LIMIT ? OFFSET ?` |
| QueryDb.GetLatestPrices | fastapi/dblib/querydb.py:65-119 | a column outside the allow-list or a bad direction is refused before any query; otherwise a paged run on the gold table whose count and page queries both carry the optional fuel condition, the page ordered by the column and the normalised direction |
| QueryDb.LatestPage | fastapi/dblib/querydb.py:86-119 | the paged run of the accepted latest-price query: count and page statements on the gold table with the optional fuel condition, the page ordered by the given column and direction |
| QueryDb.GetTimeseries | fastapi/dblib/querydb.py:122-187 | a paged run on the silver table whose day-count and day-series queries both carry the fuel, period-start and period-end conditions, each only when present; the series ends in one `LIMIT ? OFFSET ?` (`DaySeriesTailText`) |
| QueryDb.CitiesTailPlaceholders | fastapi/dblib/querydb.py:226-228 | the cities tail has one placeholder, the limit |
| QueryDb.GetCities | fastapi/dblib/querydb.py:211-231 | one balanced query: optional state, then limit |
| QueryDb.CitiesWhere | fastapi/dblib/querydb.py:221-229 | without a state the text has `AND city IS NOT NULL` with no WHERE before it |
| QueryDb.NamePattern | fastapi/dblib/querydb.py:243 | the name pattern is the lower-cased query between two `%` |
| QueryDb.NameFilter | fastapi/dblib/querydb.py:241-243 | a present search text gives exactly the name-pattern condition and its `%text%` parameter; an absent one gives neither |
| QueryDb.StationFilters | fastapi/dblib/querydb.py:241-249 | the name-pattern, state and city conditions in that order, each with its parameter and only when present |
| QueryDb.LimitTail | fastapi/dblib/querydb.py:257-258 | the tail has one placeholder, the limit |
| QueryDb.SearchStations | fastapi/dblib/querydb.py:234-261 | one balanced query on the gold table with the name-pattern, state and city conditions, then the limit |
| QueryDb.Project | fastapi/dblib/querydb.py:283-306 | the projection has exactly the listed keys, missing ones as None |
| QueryDb.DetailStmt | fastapi/dblib/querydb.py:268-276 | the detail query has one placeholder, the station id |
| QueryDb.DetailText | fastapi/dblib/querydb.py:268-276 | after the table name the detail query renders as ` WHERE cnpj = ? ORDER BY price_ts DESC` |
| QueryDb.GetStationDetail | fastapi/dblib/querydb.py:264-307 | one query, the detail statement on the gold table with the station id as its only parameter; None exactly when no row matches; otherwise the station fields of the first (newest) row and one fuel entry per row, in row order |
| QueryDb.ProjectAll | fastapi/dblib/querydb.py:282-293 | one projection per row, in order |
| QueryDb.NearbyHead | fastapi/dblib/querydb.py:338-364 | the distance head has three placeholders, for the coordinates |
| QueryDb.NearbyTail | fastapi/dblib/querydb.py:366-368 | the tail writes column and direction as text and has radius and limit placeholders |
| QueryDb.CoordCondsPlaceholders | fastapi/dblib/querydb.py:334 | the coordinate conditions have no placeholder |
| QueryDb.GetPricesNearby | fastapi/dblib/querydb.py:310-373 | a bad column or direction is refused before any query; otherwise one balanced query on the gold table with the lat/lng non-null conditions and the optional fuel condition, parameters lat, lat, lng, fuel, radius, limit, ordered by the column and normalised direction |
| QueryDb.NearbyQuery | fastapi/dblib/querydb.py:334-373 | the accepted nearby query on the gold table: the lat/lng non-null conditions, the optional fuel condition, its parameters and ordering |
| QueryDb.FuelFilters | fastapi/dblib/querydb.py:380-388 | fuel first, then state and city when present |
| QueryDb.GetBestPrices | fastapi/dblib/querydb.py:376-403 | one balanced query on the gold table with the fuel condition, then the state and city conditions when present, then the limit |
| QueryDb.GetPricesCompare | fastapi/dblib/querydb.py:406-437 | one grouped query on the gold table with the fuel, state and city conditions; the first aggregate row, or a zero-station summary for the fuel |
| QueryDb.StatsFilters | fastapi/dblib/querydb.py:444-461 | period start, period end, state, city and fuel conditions in that order, each with its parameter and only when present |
| QueryDb.GetStatsSummary | fastapi/dblib/querydb.py:440-478 | one query on the silver table with the period, state, city and fuel conditions; the first aggregate row, or an empty dict |
| QueryDb.GetTimeseriesCity | fastapi/dblib/querydb.py:481-540 | a paged run on the silver table whose day-count and day-series queries both carry the fuel condition, then state, city, period start and period end when present; the series ends in one `LIMIT ? OFFSET ?` (`DaySeriesTailText`) |
| QueryDb.StationHistoryFilters | fastapi/dblib/querydb.py:554-566 | the station-id condition and parameter first, then fuel, period start and period end, each only when present |
| QueryDb.GetTimeseriesStation | fastapi/dblib/querydb.py:543-586 | a paged run on the silver table whose count and history queries both carry the station-id condition, then fuel, period start and period end when present; the history is newest first with one `LIMIT ? OFFSET ?` (`HistoryTailText`) |
| QueryDb.HistoryTailText | fastapi/dblib/querydb.py:575-577 | the station-history tail renders as ` ORDER BY price_ts DESC LIMIT ? OFFSET ?`, one LIMIT |
| QueryDb.DropWindows | fastapi/dblib/querydb.py:632-659 | the windows are written as `hours` and `hours * 2` in the text, with threshold and limit placeholders |
| QueryDb.GetPriceDropAlerts | fastapi/dblib/querydb.py:589-662 | one balanced query on the silver table with the fuel condition, then state and city when present, then the drop threshold and limit; the window lengths are text |
| QueryDb.AnomalyWindow | fastapi/dblib/querydb.py:696-717 | the window is written as `hours` in the text, with z and limit placeholders |
| QueryDb.GetAnomalies | fastapi/dblib/querydb.py:665-720 | one balanced query on the silver table with the fuel condition, then state and city when present, then the z threshold and limit; the window length is text |

## Left out

- Network I/O: each request's answer is a supplied `Outcome` or `Fetch`, and the session (headers, cookies, the `X-CSRFToken` header) is not modelled.
- Logging, and the write of the landing HTML to `./scraping/debug_bootstrap.html` after every landing GET that passes `raise_for_status`, before the token search: the file system outside the output store is not modelled.
- The JSON decoder and `urljoin` are parameters, so JSON syntax and URL resolution are not modelled.
- The regular-expression engine: the five HTML token patterns and the script-`src` pattern are parameters. SIGNED_TOKEN_RE is modelled directly.
- `str.isdigit`, `lower` and `isspace` cover ASCII and Latin-1 only.
- `int()` of strings with surrounding whitespace or underscores, and NaN or infinite floats, are not modelled.
- Common.ParseInt: non-ASCII decimal digits (Arabic-Indic, full-width and the other Unicode `Nd` digits), which `int()` accepts, are refused, because the model has no Unicode digit table.
- Retry.Classify: the `time.sleep` limit is CPython's signed 64-bit nanosecond count; the model has no other Python build's limit.
- `os.makedirs` / `ensure_dir`: directories are implicit in the file map.
- Clock, date, `uuid4` and `random`: timestamps are integers, and run ids, dates and jitter draws are parameters; ISO formatting is not modelled.
- JSON serialization of rows and manifests: files hold record datatypes, not text.
- The contents of the request payload: the query metadata is a constant record.
- `ping_db`, `get_fuel_types` and `fastapi/fastapi_app.py` are not part of this model.
- The database connection and environment: `Config` is a parameter and `DefaultConfig` holds the defaults. SQL meaning is not modelled; the database is an oracle from query to dict rows.
- `as_df` (pandas DataFrames).
- Error message texts are not modelled; `sorted(allowed)` is kept as the allowed set.
- QueryDb.GetPricesNearby: the `{"items": ...}` wrapper is modelled as the row list itself.
- QueryDb.GetStationDetail: the detail is a pair of station fields and fuel entries, not one merged dict.
- Builders with an unconditional ` WHERE ` are modelled with the WHERE renderer over a list that is never empty.
- Collect.RunCollection: does not report the bundle URLs the bootstrap fetched or its pauses; its pauses are only the ones between fuels. The bootstrap's and the retries' waits are reported by `Bootstrap.BootstrapAndFindCsrf` and `Retry.RequestWithRetry`.
- Collect.RunCollection: the CSRF token is not passed on to the fuel requests, because the session and its headers are not modelled.
