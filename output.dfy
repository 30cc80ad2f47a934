/** The output layout of the scraper: slugs and paths (`safe_slug`,
    `make_out_paths`), the row and manifest records, the file store written as
    JSON Lines and JSON documents, and `page_to_rows`
    (scraping/scraping_price.py). */
module Output {
  import opened Common

  // Slugs

  /** The characters `[a-zA-Z0-9_\-=\.]` that `safe_slug` keeps. */
  predicate IsSlugChar(c: char) {
    ('a' <= c <= 'z') || ('A' <= c <= 'Z') || ('0' <= c <= '9') ||
    c == '_' || c == '-' || c == '=' || c == '.'
  }

  /** `re.sub(r"[^a-zA-Z0-9_\-=\.]", "_", s)`: each other character becomes `_`. */
  function SafeSlug(s: string): (r: string)
  {
    seq(|s|, i requires 0 <= i < |s| => if IsSlugChar(s[i]) then s[i] else '_')
  }

  /** A slug has the length of its input, keeps every allowed character where it
      was, replaces every other one by `_`, and so never holds a path separator. */
  lemma SafeSlugSpec(s: string)
    ensures var r := SafeSlug(s);
      && |r| == |s|
      && (forall i :: 0 <= i < |r| ==> IsSlugChar(r[i]))
      && (forall i :: 0 <= i < |s| ==> (r[i] == s[i] <==> IsSlugChar(s[i])))
      && '/' !in r
  {
    var r := SafeSlug(s);
    assert forall i :: 0 <= i < |r| ==> IsSlugChar(r[i]);
  }

  /** A string made only of allowed characters is its own slug. */
  lemma SafeSlugFixesAllowed(s: string)
    requires forall i :: 0 <= i < |s| ==> IsSlugChar(s[i])
    ensures SafeSlug(s) == s
  {
  }

  /** Slugging twice is slugging once. */
  lemma SafeSlugIdempotent(s: string)
    ensures SafeSlug(SafeSlug(s)) == SafeSlug(s)
  {
    SafeSlugSpec(s);
    SafeSlugFixesAllowed(SafeSlug(s));
  }

  // Paths

  /** `os.path.join(a, b)` on POSIX. */
  function Join(a: string, b: string): string {
    if |b| > 0 && b[0] == '/' then b
    else if a == [] || a[|a| - 1] == '/' then a + b
    else a + "/" + b
  }

  /** `os.path.basename`: what follows the last `/`. */
  function Basename(p: string): string
    decreases |p|
  {
    if p == [] then []
    else if p[|p| - 1] == '/' then []
    else Basename(p[..|p| - 1]) + [p[|p| - 1]]
  }

  /** The base name of a relative join of a separator-free component is that component. */
  lemma {:induction false} BasenameOfJoin(a: string, b: string)
    requires |b| > 0 && '/' !in b
    ensures Basename(Join(a, b)) == b
  {
    JoinRelative(a, b);
    var pre :| Join(a, b) == pre + b && (pre == [] || pre[|pre| - 1] == '/');
    BasenameAfterSeparator(pre, b);
  }

  lemma {:induction false} BasenameAfterSeparator(pre: string, b: string)
    requires '/' !in b && (pre == [] || pre[|pre| - 1] == '/')
    ensures Basename(pre + b) == b
    decreases |b|
  {
    if b == [] {
      assert pre + b == pre;
    } else {
      var n := |b| - 1;
      var p := pre + b;
      assert p[|p| - 1] == b[n] && b[n] != '/';
      assert p[..|p| - 1] == pre + b[..n];
      assert '/' !in b[..n] by {
        assert forall k :: 0 <= k < n ==> b[..n][k] == b[k];
      }
      BasenameAfterSeparator(pre, b[..n]);
      assert Basename(p) == Basename(pre + b[..n]) + [b[n]];
      assert b == b[..n] + [b[n]];
    }
  }

  /** base_out/source=precodahora/anp=<slug>/dt=<date>/run_id=<id> */
  function RunRoot(baseOut: string, anp: string, dt: string, runId: string): string {
    Join(Join(Join(Join(baseOut, "source=precodahora"), "anp=" + SafeSlug(anp)), "dt=" + dt), "run_id=" + runId)
  }

  function DataPath(baseOut: string, anp: string, dt: string, runId: string): string {
    Join(RunRoot(baseOut, anp, dt, runId), "data.jsonl")
  }

  function ManifestPath(baseOut: string, anp: string, dt: string, runId: string): string {
    Join(RunRoot(baseOut, anp, dt, runId), "manifest.json")
  }

  function OverallPath(outDir: string): string {
    Join(outDir, "overall_manifest.json")
  }

  /** Joining a relative component appends it after exactly one separator. */
  lemma JoinRelative(a: string, b: string)
    requires |b| > 0 && b[0] != '/'
    ensures exists pre :: Join(a, b) == pre + b && (pre == [] || pre[|pre| - 1] == '/')
  {
    if a == [] || a[|a| - 1] == '/' {
      assert Join(a, b) == a + b;
    } else {
      assert Join(a, b) == (a + "/") + b;
    }
  }

  /** The suffix of a path after a relative join, preceded by a separator when
      anything precedes it. */
  predicate EndsWithComponent(p: string, b: string) {
    |b| <= |p| && p[|p| - |b|..] == b && (|p| == |b| || p[|p| - |b| - 1] == '/')
  }

  lemma JoinEndsWithComponent(a: string, b: string)
    requires |b| > 0 && b[0] != '/'
    ensures EndsWithComponent(Join(a, b), b)
  {
    JoinRelative(a, b);
    var pre :| Join(a, b) == pre + b && (pre == [] || pre[|pre| - 1] == '/');
    var p := Join(a, b);
    assert p[|p| - |b|..] == b;
    if pre != [] {
      assert p[|p| - |b| - 1] == pre[|pre| - 1];
    }
  }

  /** Character k of the last component, read off the whole path. */
  lemma ComponentChar(p: string, b: string, k: int)
    requires EndsWithComponent(p, b) && 0 <= k < |b|
    ensures p[|p| - |b| + k] == b[k]
  {
    assert p[|p| - |b|..][k] == b[k];
  }

  /** The last character of a relative join is the last character of the component. */
  lemma JoinLast(a: string, b: string)
    requires |b| > 0 && b[0] != '/'
    ensures |Join(a, b)| >= |b| && Join(a, b)[|Join(a, b)| - 1] == b[|b| - 1]
  {
    JoinEndsWithComponent(a, b);
    ComponentChar(Join(a, b), b, |b| - 1);
  }

  /** A file named `data.jsonl` or `manifest.json` in any directory is never the
      overall manifest of any output directory, nor each other. */
  lemma FileNamesDistinct(root: string, outDir: string)
    ensures Join(root, "data.jsonl") != Join(root, "manifest.json")
    ensures Join(root, "data.jsonl") != Join(outDir, "overall_manifest.json")
    ensures Join(root, "manifest.json") != Join(outDir, "overall_manifest.json")
  {
    DataEndsApart(root, "manifest.json");
    DataEndsApart(outDir, "overall_manifest.json");
    ManifestNotOverall(root, outDir);
  }

  /** The data file ends in 'l', a manifest in 'n'. */
  lemma DataEndsApart(dir: string, name: string)
    requires |name| > 0 && name[0] != '/' && name[|name| - 1] == 'n'
    ensures forall root :: Join(root, "data.jsonl") != Join(dir, name)
  {
    forall root: string ensures Join(root, "data.jsonl") != Join(dir, name) {
      var dc := "data.jsonl";
      assert dc[0] == 'd' && dc[9] == 'l';
      JoinLast(root, dc);
      JoinLast(dir, name);
    }
  }

  /** `manifest.json` is preceded by '/' (or nothing) in a run's manifest path and
      by '_' in the overall manifest path. */
  lemma ManifestNotOverall(root: string, outDir: string)
    ensures Join(root, "manifest.json") != Join(outDir, "overall_manifest.json")
  {
    var mc, oc := "manifest.json", "overall_manifest.json";
    assert mc[0] == 'm' && oc[0] == 'o' && oc[7] == '_';
    var m, o := Join(root, mc), Join(outDir, oc);
    JoinEndsWithComponent(root, mc);
    JoinEndsWithComponent(outDir, oc);
    ComponentChar(o, oc, 7);
    assert |m| == 13 || m[|m| - 14] == '/';
    assert |o| >= 21 && o[|o| - 14] == '_';
  }

  /** The data file, the manifest and the overall manifest never share a path. */
  lemma LayoutPathsDistinct(baseOut: string, anp: string, dt: string, runId: string, outDir: string)
    ensures DataPath(baseOut, anp, dt, runId) != ManifestPath(baseOut, anp, dt, runId)
    ensures DataPath(baseOut, anp, dt, runId) != OverallPath(outDir)
    ensures ManifestPath(baseOut, anp, dt, runId) != OverallPath(outDir)
  {
    FileNamesDistinct(RunRoot(baseOut, anp, dt, runId), outDir);
  }

  /** A relative join is undone by `len`: equal joins of the same component come
      from equal heads, when neither head ends in a separator. */
  lemma JoinCancel(a1: string, a2: string, b: string)
    requires |b| > 0 && b[0] != '/'
    requires a1 != [] && a1[|a1| - 1] != '/' && a2 != [] && a2[|a2| - 1] != '/'
    requires Join(a1, b) == Join(a2, b)
    ensures a1 == a2
  {
    assert Join(a1, b) == a1 + ("/" + b);
    assert Join(a2, b) == a2 + ("/" + b);
    assert a1 == Join(a1, b)[..|a1|];
  }

  /** Two collections with different run ids write different files. */
  lemma RunIdsSeparateFiles(baseOut: string, anp: string, dt: string, r1: string, r2: string)
    requires r1 != r2 && '/' !in r1 && '/' !in r2 && r1 != [] && r2 != []
    ensures DataPath(baseOut, anp, dt, r1) != DataPath(baseOut, anp, dt, r2)
    ensures ManifestPath(baseOut, anp, dt, r1) != ManifestPath(baseOut, anp, dt, r2)
  {
    var dir := Join(Join(Join(baseOut, "source=precodahora"), "anp=" + SafeSlug(anp)), "dt=" + dt);
    var c1 := "run_id=" + r1;
    var c2 := "run_id=" + r2;
    var root1 := RunRoot(baseOut, anp, dt, r1);
    var root2 := RunRoot(baseOut, anp, dt, r2);
    JoinRelative(dir, c1);
    JoinRelative(dir, c2);
    assert root1[|root1| - 1] == r1[|r1| - 1] && root2[|root2| - 1] == r2[|r2| - 1];
    if DataPath(baseOut, anp, dt, r1) == DataPath(baseOut, anp, dt, r2) {
      JoinCancel(root1, root2, "data.jsonl");
      RootsDiffer(dir, r1, r2);
    }
    if ManifestPath(baseOut, anp, dt, r1) == ManifestPath(baseOut, anp, dt, r2) {
      JoinCancel(root1, root2, "manifest.json");
      RootsDiffer(dir, r1, r2);
    }
  }

  lemma RootsDiffer(dir: string, r1: string, r2: string)
    requires r1 != r2
    ensures Join(dir, "run_id=" + r1) != Join(dir, "run_id=" + r2)
  {
    var c1 := "run_id=" + r1;
    var c2 := "run_id=" + r2;
    assert c1[7..] == r1 && c2[7..] == r2;
    var h := if dir == [] || dir[|dir| - 1] == '/' then dir else dir + "/";
    assert Join(dir, c1) == h + c1 && Join(dir, c2) == h + c2;
    assert (h + c1)[|h|..] == c1 && (h + c2)[|h|..] == c2;
  }

  // Records

  type Timestamp = int

  /** The query block in every row and manifest: HORAS, LATITUDE, LONGITUDE,
      RAIO, ORDENAR and page 1. */
  datatype QueryMeta = QueryMeta(horas: int, latitude: real, longitude: real, raio: int, ordenar: string, pagina: int)

  const DefaultQuery: QueryMeta := QueryMeta(72, -12.97111, -38.51083, 100, "preco.asc", 1)

  const Source: string := "precodahora"

  /** One JSON Lines record of `data.jsonl`. */
  datatype Row = Row(collectedAtUtc: Timestamp, runId: string, source: string, anp: string,
                     query: QueryMeta, raw: Json)

  datatype ResponseStats = ResponseStats(totalPaginasReported: int, totalRegistrosReported: int,
                                         registrosDaPaginaReported: int, rowsWritten: nat)

  /** The per-fuel `manifest.json`. */
  datatype Manifest = Manifest(runId: string, collectedAtUtc: Timestamp, anp: string, baseUrl: string,
                               outRoot: string, dataFile: string, query: QueryMeta, stats: ResponseStats)

  /** `overall_manifest.json`. */
  datatype Overall = Overall(finishedAtUtc: Timestamp, outDir: string, runs: seq<Manifest>)

  /** What a file holds, line by line for JSON Lines, one document otherwise. */
  datatype Record = RowLine(row: Row) | ManifestDoc(manifest: Manifest) | OverallDoc(overall: Overall)

  function Lines(rows: seq<Row>): (ls: seq<Record>)
    ensures |ls| == |rows| && forall i :: 0 <= i < |rows| ==> ls[i] == RowLine(rows[i])
  {
    seq(|rows|, i requires 0 <= i < |rows| => RowLine(rows[i]))
  }

  /** The files the scraper has written, by path. */
  class FileStore {
    var files: map<string, seq<Record>>

    constructor (initial: map<string, seq<Record>>)
      ensures files == initial
    {
      files := initial;
    }

    /** `if os.path.exists(p): os.remove(p)` */
    method Remove(path: string)
      modifies this
      ensures files == old(files) - {path}
    {
      files := files - {path};
    }

    /** `append_jsonl`: opening with "a" creates a missing file, then each row
        becomes one more line. */
    method Append(path: string, lines: seq<Record>)
      modifies this
      ensures files == old(files)[path := (if path in old(files) then old(files)[path] else []) + lines]
    {
      var before := if path in files then files[path] else [];
      files := files[path := before + lines];
    }

    /** `json.dump` into a file opened with "w": the document replaces the file. */
    method Write(path: string, doc: Record)
      modifies this
      ensures files == old(files)[path := [doc]]
    {
      files := files[path := [doc]];
    }
  }

  /** The rows `page_to_rows` builds from a result list. */
  function RowsOf(collectedAt: Timestamp, runId: string, anp: string, query: QueryMeta, results: seq<Json>): seq<Row>
  {
    seq(|results|, i requires 0 <= i < |results| => Row(collectedAt, runId, Source, anp, query, results[i]))
  }

  /** `page_to_rows`, over the `resultado` list: one row per item, in order, each
      carrying the item as `raw` and the same provenance fields. */
  method PageToRows(collectedAt: Timestamp, runId: string, anp: string, query: QueryMeta, results: seq<Json>)
    returns (rows: seq<Row>)
    ensures |rows| == |results|
    ensures forall i :: 0 <= i < |rows| ==>
              && rows[i].raw == results[i]
              && rows[i].collectedAtUtc == collectedAt && rows[i].runId == runId
              && rows[i].source == "precodahora" && rows[i].anp == anp && rows[i].query == query
    ensures rows == RowsOf(collectedAt, runId, anp, query, results)
  {
    rows := [];
    var i := 0;
    while i < |results|
      invariant 0 <= i <= |results|
      invariant rows == RowsOf(collectedAt, runId, anp, query, results[..i])
    {
      rows := rows + [Row(collectedAt, runId, Source, anp, query, results[i])];
      i := i + 1;
    }
    assert results[..i] == results;
  }
}
