/** One page per fuel (`collect_one_page_per_fuel`, with `post_products`) and
    the per-fuel loop of `main` (scraping/scraping_price.py). `uuid4`, the
    clocks and `random.uniform` are parameters; `r.json()` is a parsing
    function given by the caller. */
module Collect {
  import opened Common
  import opened Backoff
  import opened Retry
  import opened Tokens
  import opened Bootstrap
  import opened Output

  /** Why one fuel's collection raised. */
  datatype CollectError =
    | PostFailed(lastError: Option<AttemptError>)  // request_with_retry gave up
    | NotJson(snippet: string)                     // "Response is not JSON."
    | NotAnObject                                  // `data.get` on a JSON value that is not an object
    | BadNumber(field: string)                     // `int()` refused the value of that field
    | NoLength                                     // `len()` of a truthy non-container `resultado`
    | ResultNotList                                // "'resultado' is not a list."

  /** What the environment supplies to one fuel's collection. */
  datatype FuelEnv = FuelEnv(runId: string, dt: string, collectedAt: Timestamp,
                             outcomes: seq<Outcome>, jitters: seq<real>)

  /** `r.json()`: None when the body is not JSON. */
  type JsonParser = string -> Option<Json>

  // Reading the page

  /** `int(v)` for a decoded JSON value: booleans are 0 and 1, numbers are
      truncated toward zero, strings are parsed; null, lists and objects raise. */
  function IntOf(j: Json): Option<int> {
    match j
    case JBool(b) => Some(if b then 1 else 0)
    case JNum(n) => Some(TruncateToward0(n))
    case JStr(s) => ParseInt(s)
    case _ => None
  }

  /** `len(v)`: defined for lists, strings and objects only. */
  function LenOf(j: Json): Option<nat> {
    match j
    case JArr(items) => Some(|items|)
    case JStr(s) => Some(|s|)
    case JObj(fields) => Some(|fields|)
    case _ => None
  }

  /** `data.get(key)`, with JSON null standing for Python's None. */
  function Get(fields: map<string, Json>, key: string): Json {
    if key in fields then fields[key] else JNull
  }

  /** `data.get("resultado") or []` */
  function ResultValue(fields: map<string, Json>): Json {
    var v := Get(fields, "resultado");
    if Truthy(v) then v else JArr([])
  }

  /** The three reported counters and the result list of a page. */
  datatype PageInfo = PageInfo(totalPages: int, totalRecords: int, pageCount: int, results: seq<Json>)

  /** The sanity checks of `collect_one_page_per_fuel`, in the source's order:
      `totalPaginas` (default 1), `totalRegistros` (default 0), the length of the
      result value (always computed, since it is the default argument of the next
      call), `registrosdaPagina` (default that length), then the list check. */
  function InterpretPage(data: Json): Result<PageInfo, CollectError> {
    if !data.JObj? then Err(NotAnObject)
    else
      var f := data.fields;
      var tp := if "totalPaginas" in f then IntOf(f["totalPaginas"]) else Some(1);
      if tp.None? then Err(BadNumber("totalPaginas"))
      else
        var tr := if "totalRegistros" in f then IntOf(f["totalRegistros"]) else Some(0);
        if tr.None? then Err(BadNumber("totalRegistros"))
        else
          var v := ResultValue(f);
          var len := LenOf(v);
          if len.None? then Err(NoLength)
          else
            var pc := if "registrosdaPagina" in f then IntOf(f["registrosdaPagina"]) else Some(len.value as int);
            if pc.None? then Err(BadNumber("registrosdaPagina"))
            else if !v.JArr? then Err(ResultNotList)
            else Ok(PageInfo(tp.value, tr.value, pc.value, v.items))
  }

  /** With none of the counters reported, the defaults are 1 page, 0 records and
      as many page records as results. */
  lemma InterpretPageDefaults(fields: map<string, Json>, items: seq<Json>)
    requires "totalPaginas" !in fields && "totalRegistros" !in fields && "registrosdaPagina" !in fields
    requires Get(fields, "resultado") == JArr(items)
    ensures InterpretPage(JObj(fields)) == Ok(PageInfo(1, 0, |items|, items))
  {
  }

  /** A page is accepted only when it is an object whose `resultado` is a list or
      falsy; the rows come from that list, or from nothing. */
  lemma InterpretPageAccepts(data: Json)
    requires InterpretPage(data).Ok?
    ensures data.JObj?
    ensures var v := Get(data.fields, "resultado");
      InterpretPage(data).value.results == (if Truthy(v) then v.items else [])
    ensures Truthy(Get(data.fields, "resultado")) ==> Get(data.fields, "resultado").JArr?
  {
  }

  /** A truthy `resultado` that is a string or an object is refused by the list
      check, while a truthy number or boolean already fails inside `len()`. */
  lemma NonListResultRefused(fields: map<string, Json>)
    requires "totalPaginas" !in fields && "totalRegistros" !in fields && "registrosdaPagina" !in fields
    requires Truthy(Get(fields, "resultado")) && !Get(fields, "resultado").JArr?
    ensures var v := Get(fields, "resultado");
      InterpretPage(JObj(fields)) == (if v.JStr? || v.JObj? then Err(ResultNotList) else Err(NoLength))
  {
  }

  // One fuel

  /** `post_products` and the reading of its answer: the rows and the manifest
      that one fuel's collection produces, or the error it raises. */
  function CollectPage(baseOut: string, anp: string, env: FuelEnv, parse: JsonParser): Result<(seq<Row>, Manifest), CollectError>
    requires WellSupplied(env.outcomes, env.jitters)
  {
    var t := Run(env.outcomes, env.jitters);
    if t.result.Exhausted? then Err(PostFailed(t.result.lastError))
    else
      var text := t.result.response.text;
      var parsed := parse(text);
      if parsed.None? then Err(NotJson(Snippet(text, 500)))
      else
        var info := InterpretPage(parsed.value);
        if info.Err? then Err(info.error)
        else
          var rows := RowsOf(env.collectedAt, env.runId, anp, DefaultQuery, info.value.results);
          var stats := ResponseStats(info.value.totalPages, info.value.totalRecords, info.value.pageCount, |rows|);
          var m := Manifest(env.runId, env.collectedAt, anp, BaseUrl, RunRoot(baseOut, anp, env.dt, env.runId),
                            Basename(DataPath(baseOut, anp, env.dt, env.runId)), DefaultQuery, stats);
          Ok((rows, m))
  }

  /** The files after one fuel: the data file is removed first, so it is gone when
      the collection fails, and holds exactly the new rows when it succeeds. */
  function FilesAfter(files: map<string, seq<Record>>, baseOut: string, anp: string, env: FuelEnv,
                      c: Result<(seq<Row>, Manifest), CollectError>): map<string, seq<Record>>
  {
    var data := DataPath(baseOut, anp, env.dt, env.runId);
    var cleared := files - {data};
    if c.Err? then cleared
    else cleared[data := [] + Lines(c.value.0)][ManifestPath(baseOut, anp, env.dt, env.runId) := [ManifestDoc(c.value.1)]]
  }

  /** A successful collection writes one row per result item, in order, with the
      shared provenance, and a manifest that describes it. */
  lemma CollectPageSpec(baseOut: string, anp: string, env: FuelEnv, parse: JsonParser)
    requires WellSupplied(env.outcomes, env.jitters)
    requires CollectPage(baseOut, anp, env, parse).Ok?
    ensures var t := Run(env.outcomes, env.jitters);
      var (rows, m) := CollectPage(baseOut, anp, env, parse).value;
      && t.result.Done?
      && parse(t.result.response.text).Some?
      && var info := InterpretPage(parse(t.result.response.text).value);
      && info.Ok?
      && |rows| == |info.value.results|
      && (forall i :: 0 <= i < |rows| ==>
            rows[i] == Row(env.collectedAt, env.runId, "precodahora", anp, DefaultQuery, info.value.results[i]))
      && m.runId == env.runId && m.collectedAtUtc == env.collectedAt && m.anp == anp
      && m.dataFile == "data.jsonl" && m.outRoot == RunRoot(baseOut, anp, env.dt, env.runId)
      && m.stats == ResponseStats(info.value.totalPages, info.value.totalRecords, info.value.pageCount, |rows|)
  {
    BasenameOfJoin(RunRoot(baseOut, anp, env.dt, env.runId), "data.jsonl");
  }

  /** After a success the data file holds exactly the rows, whatever it held
      before, the manifest holds the manifest, and no other file changed. */
  lemma FilesAfterSuccess(files: map<string, seq<Record>>, baseOut: string, anp: string, env: FuelEnv,
                          rows: seq<Row>, m: Manifest)
    ensures var after := FilesAfter(files, baseOut, anp, env, Ok((rows, m)));
      var data := DataPath(baseOut, anp, env.dt, env.runId);
      var manifest := ManifestPath(baseOut, anp, env.dt, env.runId);
      && after[data] == Lines(rows)
      && after[manifest] == [ManifestDoc(m)]
      && (forall p :: p != data && p != manifest ==> (p in after <==> p in files) &&
                                                     (p in files ==> after[p] == files[p]))
  {
    LayoutPathsDistinct(baseOut, anp, env.dt, env.runId, baseOut);
  }

  /** After a failure the data file is gone and nothing else changed: the
      manifest of a failed fuel is never written. */
  lemma FilesAfterFailure(files: map<string, seq<Record>>, baseOut: string, anp: string, env: FuelEnv, e: CollectError)
    ensures var after := FilesAfter(files, baseOut, anp, env, Err(e));
      var data := DataPath(baseOut, anp, env.dt, env.runId);
      && data !in after
      && (forall p :: p != data ==> (p in after <==> p in files) && (p in files ==> after[p] == files[p]))
  {
  }

  /** `collect_one_page_per_fuel` run against the file store. */
  method CollectOnePagePerFuel(store: FileStore, baseOut: string, anp: string, env: FuelEnv, parse: JsonParser)
    returns (res: Result<Manifest, CollectError>, waits: seq<real>)
    requires WellSupplied(env.outcomes, env.jitters)
    modifies store
    ensures var c := CollectPage(baseOut, anp, env, parse);
      && (c.Ok? ==> res == Ok(c.value.1))
      && (c.Err? ==> res == Err(c.error))
    ensures store.files == FilesAfter(old(store.files), baseOut, anp, env, CollectPage(baseOut, anp, env, parse))
    ensures waits == Run(env.outcomes, env.jitters).waits
  {
    var root := RunRoot(baseOut, anp, env.dt, env.runId);
    var data := DataPath(baseOut, anp, env.dt, env.runId);
    store.Remove(data);
    var result, ws, _ := RequestWithRetry(env.outcomes, env.jitters);
    waits := ws;
    if result.Exhausted? {
      return Err(PostFailed(result.lastError)), waits;
    }
    var parsed := parse(result.response.text);
    if parsed.None? {
      return Err(NotJson(Snippet(result.response.text, 500))), waits;
    }
    var info := InterpretPage(parsed.value);
    if info.Err? {
      return Err(info.error), waits;
    }
    var rows := PageToRows(env.collectedAt, env.runId, anp, DefaultQuery, info.value.results);
    store.Append(data, Lines(rows));
    var stats := ResponseStats(info.value.totalPages, info.value.totalRecords, info.value.pageCount, |rows|);
    var m := Manifest(env.runId, env.collectedAt, anp, BaseUrl, root, Basename(data), DefaultQuery, stats);
    store.Write(ManifestPath(baseOut, anp, env.dt, env.runId), ManifestDoc(m));
    res := Ok(m);
  }

  // The per-fuel loop of main

  const Fuels: seq<string> := ["GASOLINA", "ETANOL", "GNV", "DIESEL"]

  /** `SLEEP_BETWEEN_FUELS`: the bounds of the pause drawn between two fuels. */
  const FuelPauseMin: real := 1.2
  const FuelPauseMax: real := 2.4

  /** Why `main` stopped early. */
  datatype MainError = BootFailed(error: BootError) | FuelFailed(anp: string, cause: CollectError)

  /** One environment per fuel, and one drawn pause per gap between fuels. */
  predicate Supplied(envs: seq<FuelEnv>, between: seq<real>) {
    && |envs| == |Fuels| && |between| == |Fuels| - 1
    && (forall i :: 0 <= i < |envs| ==> WellSupplied(envs[i].outcomes, envs[i].jitters))
    && (forall i :: 0 <= i < |between| ==> FuelPauseMin <= between[i] <= FuelPauseMax)
  }

  /** What collecting one fuel yields. */
  type Collected = Result<(seq<Row>, Manifest), CollectError>

  /** What each fuel's collection would yield, in FUELS order. */
  function Collections(outDir: string, envs: seq<FuelEnv>, parse: JsonParser): (cs: seq<Collected>)
    requires |envs| == |Fuels| && forall i :: 0 <= i < |envs| ==> WellSupplied(envs[i].outcomes, envs[i].jitters)
    ensures |cs| == |Fuels|
    ensures forall k :: 0 <= k < |Fuels| ==> cs[k] == CollectPage(outDir, Fuels[k], envs[k], parse)
  {
    seq(|Fuels|, k requires 0 <= k < |Fuels| => CollectPage(outDir, Fuels[k], envs[k], parse))
  }

  /** The first failure is the failing index before which everything succeeded. */
  lemma {:induction false} FirstFailureAt(cs: seq<Collected>, i: nat, k: nat)
    requires i <= k < |cs| && cs[k].Err? && forall j :: i <= j < k ==> cs[j].Ok?
    ensures FirstFailure(cs, i) == k
    decreases k - i
  {
    if i < k {
      FirstFailureAt(cs, i + 1, k);
    }
  }

  /** With no failure from index i on, the first failure is past the end. */
  lemma {:induction false} FirstFailureNone(cs: seq<Collected>, i: nat)
    requires i <= |cs| && forall j :: i <= j < |cs| ==> cs[j].Ok?
    ensures FirstFailure(cs, i) == |cs|
    decreases |cs| - i
  {
    if i < |cs| {
      FirstFailureNone(cs, i + 1);
    }
  }

  /** The result of the loop, and the pauses it slept. */
  datatype LoopState = LoopState(result: Result<seq<Manifest>, MainError>, pauses: seq<real>)

  /** The fuels from index i on, after `runs` and `pauses` so far, when fuel k
      yields cs[k]. The pause in the `finally` block runs before a failure
      propagates. */
  function FuelLoop(fuels: seq<string>, between: seq<real>, cs: seq<Collected>, i: nat, runs: seq<Manifest>, pauses: seq<real>)
    : (s: LoopState)
    requires |between| + 1 == |fuels| && |cs| == |fuels| && i <= |fuels|
    ensures s.result.Err? ==> s.result.error.FuelFailed?
    decreases |fuels| - i
  {
    if i == |fuels| then LoopState(Ok(runs), pauses)
    else
      var p := if i + 1 < |fuels| then pauses + [between[i]] else pauses;
      if cs[i].Err? then LoopState(Err(FuelFailed(fuels[i], cs[i].error)), p)
      else FuelLoop(fuels, between, cs, i + 1, runs + [cs[i].value.1], p)
  }

  /** The files after the fuels from index i on: each fuel's effect, up to and
      including the first that fails. */
  function FilesThrough(fuels: seq<string>, files: map<string, seq<Record>>, outDir: string, envs: seq<FuelEnv>, cs: seq<Collected>, i: nat)
    : map<string, seq<Record>>
    requires |envs| == |fuels| && |cs| == |fuels| && i <= |fuels|
    decreases |fuels| - i
  {
    if i == |fuels| then files
    else
      var f := FilesAfter(files, outDir, fuels[i], envs[i], cs[i]);
      if cs[i].Err? then f else FilesThrough(fuels, f, outDir, envs, cs, i + 1)
  }

  /** The pauses slept by the fuels from index i up to index j (exclusive): one
      after each of them but the last fuel. */
  function PausesBetween(fuels: seq<string>, between: seq<real>, i: nat, j: nat): seq<real>
    requires |between| + 1 == |fuels| && i <= j <= |fuels|
  {
    between[Min(i, |between|)..Min(j, |between|)]
  }

  lemma PausesBetweenSplit(fuels: seq<string>, between: seq<real>, i: nat, j: nat)
    requires |between| + 1 == |fuels| && i < j <= |fuels|
    ensures PausesBetween(fuels, between, i, j) ==
            (if i + 1 < |fuels| then [between[i]] else []) + PausesBetween(fuels, between, i + 1, j)
  {
  }

  /** When the loop from index i succeeds, every remaining fuel succeeded, in
      order, with a pause after each but the last. */
  lemma {:induction false} FuelLoopOk(fuels: seq<string>, between: seq<real>, cs: seq<Collected>, i: nat, runs: seq<Manifest>, pauses: seq<real>)
    requires |between| + 1 == |fuels| && |cs| == |fuels| && i <= |fuels|
    requires FuelLoop(fuels, between, cs, i, runs, pauses).result.Ok?
    ensures var s := FuelLoop(fuels, between, cs, i, runs, pauses);
      && |s.result.value| == |runs| + |fuels| - i
      && s.result.value[..|runs|] == runs
      && (forall k :: i <= k < |fuels| ==> cs[k].Ok? && s.result.value[|runs| + k - i] == cs[k].value.1)
      && s.pauses == pauses + PausesBetween(fuels, between, i, |fuels|)
    decreases |fuels| - i
  {
    if i < |fuels| {
      var p := if i + 1 < |fuels| then pauses + [between[i]] else pauses;
      var runs' := runs + [cs[i].value.1];
      FuelLoopOk(fuels, between, cs, i + 1, runs', p);
      PausesBetweenSplit(fuels, between, i, |fuels|);
      var v := FuelLoop(fuels, between, cs, i + 1, runs', p).result.value;
      assert v[..|runs'|][..|runs|] == runs;
    }
  }

  /** The index of the first failed collection at or after i; |cs| when none failed. */
  function FirstFailure(cs: seq<Collected>, i: nat): (k: nat)
    requires i <= |cs|
    ensures i <= k <= |cs|
    ensures k < |cs| ==> cs[k].Err?
    ensures forall j :: i <= j < k ==> cs[j].Ok?
    decreases |cs| - i
  {
    if i == |cs| || cs[i].Err? then i else FirstFailure(cs, i + 1)
  }

  /** The loop from index i fails exactly at the first failing fuel k, after the
      pause that follows k unless k is the last fuel. */
  lemma {:induction false} FuelLoopErr(fuels: seq<string>, between: seq<real>, cs: seq<Collected>, i: nat, runs: seq<Manifest>, pauses: seq<real>)
    requires |between| + 1 == |fuels| && |cs| == |fuels| && i <= |fuels|
    ensures var s := FuelLoop(fuels, between, cs, i, runs, pauses);
      var k := FirstFailure(cs, i);
      && (s.result.Err? <==> k < |fuels|)
      && (k < |fuels| ==> s.result.error == FuelFailed(fuels[k], cs[k].error) &&
                          s.pauses == pauses + PausesBetween(fuels, between, i, k + 1))
    decreases |fuels| - i
  {
    if i < |fuels| {
      var p := if i + 1 < |fuels| then pauses + [between[i]] else pauses;
      if cs[i].Err? {
        PausesBetweenSplit(fuels, between, i, i + 1);
      } else {
        FuelLoopErr(fuels, between, cs, i + 1, runs + [cs[i].value.1], p);
        var k := FirstFailure(cs, i);
        if k < |fuels| {
          PausesBetweenSplit(fuels, between, i, k + 1);
        }
      }
    }
  }

  /** One fuel's collection leaves the overall manifest as it was. */
  lemma FilesAfterKeepsOverall(files: map<string, seq<Record>>, outDir: string, anp: string, env: FuelEnv, c: Collected)
    ensures var after := FilesAfter(files, outDir, anp, env, c);
      var o := OverallPath(outDir);
      (o in after <==> o in files) && (o in files ==> after[o] == files[o])
  {
    LayoutPathsDistinct(outDir, anp, env.dt, env.runId, outDir);
  }

  /** No fuel touches the overall manifest: whatever happens in the loop, that
      path holds what it held before. */
  lemma {:induction false} FuelLoopKeepsOverall(fuels: seq<string>, files: map<string, seq<Record>>, outDir: string, envs: seq<FuelEnv>,
                                                cs: seq<Collected>, i: nat)
    requires |envs| == |fuels| && |cs| == |fuels| && i <= |fuels|
    ensures var after := FilesThrough(fuels, files, outDir, envs, cs, i);
      var o := OverallPath(outDir);
      (o in after <==> o in files) && (o in files ==> after[o] == files[o])
    decreases |fuels| - i
  {
    if i < |fuels| {
      var f := FilesAfter(files, outDir, fuels[i], envs[i], cs[i]);
      FilesAfterKeepsOverall(files, outDir, fuels[i], envs[i], cs[i]);
      if cs[i].Ok? {
        FuelLoopKeepsOverall(fuels, f, outDir, envs, cs, i + 1);
      }
    }
  }

  /** The per-fuel loop and the overall manifest of `main`, after a bootstrap
      that `landing`, `search`, `findSrcs`, `join` and `serve` describe.
      `clockAfterBootstrap` is the `utc_now_iso()` reading stored as
      `finished_at_utc` (taken before any fuel runs); `outDirAbs` is
      `os.path.abspath(OUT_DIR)`. Returns the overall manifest or the error that
      propagates, and the pauses slept between fuels. */
  method RunCollection(store: FileStore, landing: Fetch, search: PatternSearch, findSrcs: string -> seq<string>,
                       join: (string, string) -> string, serve: string -> Fetch, clockAfterBootstrap: Timestamp,
                       outDir: string, outDirAbs: string, envs: seq<FuelEnv>, between: seq<real>, parse: JsonParser)
    returns (res: Result<Overall, MainError>, pauses: seq<real>)
    requires Supplied(envs, between)
    modifies store
    ensures var boot := BootOutcome(landing, search, findSrcs, join, serve);
      && ((res.Err? && res.error.BootFailed?) <==> boot.Err?)
      && (boot.Err? ==> res == Err(BootFailed(boot.error)))
    ensures res.Err? && res.error.BootFailed? ==> store.files == old(store.files) && pauses == []
    ensures !(res.Err? && res.error.BootFailed?) ==>
      var cs := Collections(outDir, envs, parse);
      var s := FuelLoop(Fuels, between, cs, 0, [], []);
      var after := FilesThrough(Fuels, old(store.files), outDir, envs, cs, 0);
      && pauses == s.pauses
      && (s.result.Ok? ==> res == Ok(Overall(clockAfterBootstrap, outDirAbs, s.result.value)) &&
                           store.files == after[OverallPath(outDir) := [OverallDoc(res.value)]])
      && (s.result.Err? ==> res == Err(s.result.error) && store.files == after)
  {
    var csrf, _, _ := BootstrapAndFindCsrf(landing, search, findSrcs, join, serve);
    if csrf.Err? {
      return Err(BootFailed(csrf.error)), [];
    }
    var finishedAt := clockAfterBootstrap;
    var runs;
    runs, pauses := FuelRuns(store, outDir, envs, between, parse);
    if runs.Err? {
      return Err(runs.error), pauses;
    }
    var overall := Overall(finishedAt, outDirAbs, runs.value);
    store.Write(OverallPath(outDir), OverallDoc(overall));
    res := Ok(overall);
  }

  /** The `for anp in FUELS` loop of `main`: one collection per fuel in order, a
      pause after each but the last, and the first failure propagated. */
  method FuelRuns(store: FileStore, outDir: string, envs: seq<FuelEnv>, between: seq<real>, parse: JsonParser)
    returns (res: Result<seq<Manifest>, MainError>, pauses: seq<real>)
    requires Supplied(envs, between)
    modifies store
    ensures var cs := Collections(outDir, envs, parse);
      && LoopState(res, pauses) == FuelLoop(Fuels, between, cs, 0, [], [])
      && store.files == FilesThrough(Fuels, old(store.files), outDir, envs, cs, 0)
    ensures res.Err? ==> res.error.FuelFailed?
  {
    pauses := [];
    ghost var cs := Collections(outDir, envs, parse);
    var runs: seq<Manifest> := [];
    var i := 0;
    while i < |Fuels|
      invariant 0 <= i <= |Fuels|
      invariant FuelLoop(Fuels, between, cs, i, runs, pauses) == FuelLoop(Fuels, between, cs, 0, [], [])
      invariant FilesThrough(Fuels, store.files, outDir, envs, cs, i) == FilesThrough(Fuels, old(store.files), outDir, envs, cs, 0)
      decreases |Fuels| - i
    {
      var r, _ := CollectOnePagePerFuel(store, outDir, Fuels[i], envs[i], parse);
      if i + 1 < |Fuels| {
        pauses := pauses + [between[i]];
      }
      if r.Err? {
        return Err(FuelFailed(Fuels[i], r.error)), pauses;
      }
      runs := runs + [r.value];
      i := i + 1;
    }
    res := Ok(runs);
  }

  /** When every fuel succeeds the overall manifest lists one manifest per fuel,
      in FUELS order, each from that fuel's own collection, and three pauses were
      slept: between consecutive fuels, none after the last. */
  lemma AllFuelsCollected(outDir: string, envs: seq<FuelEnv>, between: seq<real>, parse: JsonParser)
    requires Supplied(envs, between)
    requires forall k :: 0 <= k < |Fuels| ==> CollectPage(outDir, Fuels[k], envs[k], parse).Ok?
    ensures var s := FuelLoop(Fuels, between, Collections(outDir, envs, parse), 0, [], []);
      && s.result.Ok? && |s.result.value| == |Fuels|
      && (forall k :: 0 <= k < |Fuels| ==> s.result.value[k] == CollectPage(outDir, Fuels[k], envs[k], parse).value.1)
      && (forall k :: 0 <= k < |Fuels| ==>
            s.result.value[k].anp == Fuels[k] && s.result.value[k].runId == envs[k].runId)
      && s.pauses == between
  {
    var cs := Collections(outDir, envs, parse);
    FuelLoopAllOk(Fuels, between, cs);
    ManifestsNameTheirFuels(outDir, envs, parse, FuelLoop(Fuels, between, cs, 0, [], []).result.value);
  }

  /** When every collection succeeds the loop returns their manifests in order
      and sleeps every between-fuel pause. */
  lemma FuelLoopAllOk(fuels: seq<string>, between: seq<real>, cs: seq<Collected>)
    requires |between| + 1 == |fuels| && |cs| == |fuels| && forall k :: 0 <= k < |cs| ==> cs[k].Ok?
    ensures var s := FuelLoop(fuels, between, cs, 0, [], []);
      && s.result.Ok? && |s.result.value| == |fuels|
      && (forall k :: 0 <= k < |fuels| ==> s.result.value[k] == cs[k].value.1)
      && s.pauses == between
  {
    FuelLoopErr(fuels, between, cs, 0, [], []);
    FirstFailureNone(cs, 0);
    FuelLoopOk(fuels, between, cs, 0, [], []);
    assert between[0..|between|] == between;
  }

  /** Manifests taken from each fuel's own collection name that fuel and its run. */
  lemma ManifestsNameTheirFuels(outDir: string, envs: seq<FuelEnv>, parse: JsonParser, ms: seq<Manifest>)
    requires |envs| == |Fuels| && forall k :: 0 <= k < |envs| ==> WellSupplied(envs[k].outcomes, envs[k].jitters)
    requires forall k :: 0 <= k < |Fuels| ==> CollectPage(outDir, Fuels[k], envs[k], parse).Ok?
    requires |ms| == |Fuels| && forall k :: 0 <= k < |Fuels| ==> ms[k] == CollectPage(outDir, Fuels[k], envs[k], parse).value.1
    ensures forall k :: 0 <= k < |Fuels| ==> ms[k].anp == Fuels[k] && ms[k].runId == envs[k].runId
  {
    forall k | 0 <= k < |Fuels|
      ensures ms[k].anp == Fuels[k] && ms[k].runId == envs[k].runId
    {
      ManifestNamesItsFuel(outDir, Fuels[k], envs[k], parse);
    }
  }

  /** The manifest of a successful collection names the fuel and the run. */
  lemma ManifestNamesItsFuel(baseOut: string, anp: string, env: FuelEnv, parse: JsonParser)
    requires WellSupplied(env.outcomes, env.jitters)
    requires CollectPage(baseOut, anp, env, parse).Ok?
    ensures var m := CollectPage(baseOut, anp, env, parse).value.1;
      m.anp == anp && m.runId == env.runId && m.collectedAtUtc == env.collectedAt
  {
    CollectPageSpec(baseOut, anp, env, parse);
  }

  /** A failing fuel k ends the loop: the error names it, and the pause after it
      is still slept unless it is the last fuel, but none after that. */
  lemma FailingFuelAborts(outDir: string, envs: seq<FuelEnv>, between: seq<real>, parse: JsonParser, k: nat)
    requires Supplied(envs, between) && k < |Fuels|
    requires forall j :: 0 <= j < k ==> CollectPage(outDir, Fuels[j], envs[j], parse).Ok?
    requires CollectPage(outDir, Fuels[k], envs[k], parse).Err?
    ensures var s := FuelLoop(Fuels, between, Collections(outDir, envs, parse), 0, [], []);
      && s.result == Err(FuelFailed(Fuels[k], CollectPage(outDir, Fuels[k], envs[k], parse).error))
      && s.pauses == between[..Min(k + 1, |Fuels| - 1)]
  {
    var cs := Collections(outDir, envs, parse);
    FuelLoopErr(Fuels, between, cs, 0, [], []);
    FirstFailureAt(cs, 0, k);
  }

  /** `finished_at_utc` is read before the loop: when the clock does not run
      backwards, it is no later than the collection time of any fuel. */
  lemma FinishedStampIsAStartTime(outDir: string, envs: seq<FuelEnv>, between: seq<real>, parse: JsonParser,
                                  clockAfterBootstrap: Timestamp)
    requires Supplied(envs, between)
    requires forall k :: 0 <= k < |Fuels| ==> clockAfterBootstrap <= envs[k].collectedAt
    ensures var s := FuelLoop(Fuels, between, Collections(outDir, envs, parse), 0, [], []);
      s.result.Ok? ==> forall k :: 0 <= k < |s.result.value| ==> clockAfterBootstrap <= s.result.value[k].collectedAtUtc
  {
    var cs := Collections(outDir, envs, parse);
    var s := FuelLoop(Fuels, between, cs, 0, [], []);
    if s.result.Ok? {
      FuelLoopOk(Fuels, between, cs, 0, [], []);
      forall k | 0 <= k < |s.result.value| ensures clockAfterBootstrap <= s.result.value[k].collectedAtUtc {
        ManifestNamesItsFuel(outDir, Fuels[k], envs[k], parse);
      }
    }
  }
}
