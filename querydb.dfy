/** The query layer of the API (fastapi/dblib/querydb.py): the shaping of cursor
    rows in `querydb`, and the builders that validate their arguments, grow a list
    of `?`-conditions with a parallel list of parameters, and post-process the
    rows. The database is an oracle from a statement and its parameters to the
    rows it answers; the connection and its configuration are not modelled. */
module QueryDb {
  import opened Common
  import opened SqlText

  /** A value bound to a placeholder or read from a result row. */
  datatype Value = Null | Int(i: int) | Real(r: real) | Str(s: string) | Bool(b: bool)

  /** A result row as a dict from column name to value. */
  type Row = map<string, Value>

  /** A statement handed to `querydb` together with its parameters. */
  datatype Query = Query(stmt: Stmt, params: seq<Value>)

  /** Every `?` of the statement has exactly one parameter. */
  predicate Balanced(q: Query) {
    StmtPlaceholders(q.stmt) == |q.params|
  }

  /** Balance, read on the statement text that is sent. */
  lemma BalancedText(q: Query)
    ensures Balanced(q) <==> Placeholders(Flatten(q.stmt)) == |q.params|
  {
    FlattenPlaceholders(q.stmt);
  }

  /** `querydb(sql, params=...)`, seen from a builder: the rows the warehouse answers. */
  type Db = Query -> seq<Row>

  /** The catalog and table names the builders read. */
  datatype Config = Config(catalog: string, goldTable: string, silverTable: string)

  const DefaultConfig: Config := Config("precodahora", "gold_latest", "silver_prices")

  function Gold(cfg: Config): string {
    cfg.catalog + "." + cfg.goldTable
  }

  function Silver(cfg: Config): string {
    cfg.catalog + "." + cfg.silverTable
  }

  // querydb: parameters and row shaping

  /** `if params is None: params = kwargs.get("parameters")`, then `params or ()`. */
  function ResolveParams(params: Option<seq<Value>>, parameters: Option<seq<Value>>): seq<Value> {
    if params.Some? then params.value
    else if parameters.Some? then parameters.value
    else []
  }

  /** `params` wins whenever it is passed, even as an empty list; `parameters` is
      only consulted when `params` is absent; with neither, nothing is bound. */
  lemma ResolveParamsPrecedence(params: Option<seq<Value>>, parameters: Option<seq<Value>>)
    ensures params.Some? ==> ResolveParams(params, parameters) == params.value
    ensures params.None? && parameters.Some? ==> ResolveParams(params, parameters) == parameters.value
    ensures ResolveParams(Some([]), parameters) == []
    ensures ResolveParams(None, None) == []
  {
  }

  /** `dict(zip(cols, r))`: pairs up to the shorter length, a repeated column
      keeping its last value. */
  function ZipDict(cols: seq<string>, r: seq<Value>): Row
    decreases |cols|
  {
    var n := Min(|cols|, |r|);
    if n == 0 then map[] else ZipDict(cols[..n - 1], r[..n - 1])[cols[n - 1] := r[n - 1]]
  }

  /** The keys of the dict are the column names that have a value. */
  lemma {:induction false} ZipDictKeys(cols: seq<string>, r: seq<Value>)
    ensures var n := Min(|cols|, |r|);
      forall k :: k in ZipDict(cols, r) <==> k in cols[..n]
    decreases |cols|
  {
    var n := Min(|cols|, |r|);
    if n > 0 {
      ZipDictKeys(cols[..n - 1], r[..n - 1]);
      assert cols[..n - 1][..n - 1] == cols[..n - 1];
      assert cols[..n] == cols[..n - 1] + [cols[n - 1]];
    }
  }

  /** A column that does not occur again later holds its own value. */
  lemma {:induction false} ZipDictLastWins(cols: seq<string>, r: seq<Value>, j: nat)
    requires j < Min(|cols|, |r|)
    requires forall m :: j < m < Min(|cols|, |r|) ==> cols[m] != cols[j]
    ensures cols[j] in ZipDict(cols, r) && ZipDict(cols, r)[cols[j]] == r[j]
    decreases |cols|
  {
    var n := Min(|cols|, |r|);
    if j < n - 1 {
      ZipDictLastWins(cols[..n - 1], r[..n - 1], j);
    }
  }

  /** What the cursor reports after `execute`: the column names of
      `cur.description` (None when there is none), and the fetched tuples. */
  datatype Cursor = Cursor(description: Option<seq<string>>, tuples: seq<seq<Value>>)

  /** What `querydb` returns without `as_df`: dicts when there are columns, the
      raw tuples otherwise. */
  datatype Answer = Dicts(rows: seq<Row>) | Tuples(tuples: seq<seq<Value>>)

  /** `[c[0] for c in cur.description] if cur.description else []` */
  function Columns(description: Option<seq<string>>): seq<string> {
    if description.Some? then description.value else []
  }

  /** `[dict(zip(cols, r)) for r in rows] if cols else rows` */
  function ShapeRows(cols: seq<string>, tuples: seq<seq<Value>>): (a: Answer)
    ensures cols != [] <==> a.Dicts?
    ensures a.Dicts? ==> |a.rows| == |tuples|
    ensures cols == [] ==> a.tuples == tuples
  {
    if cols != [] then Dicts(seq(|tuples|, i requires 0 <= i < |tuples| => ZipDict(cols, tuples[i])))
    else Tuples(tuples)
  }

  /** `querydb(sql_text, params, parameters=...)`: the statement is executed with
      the resolved parameters and its answer shaped. */
  function QueryDbCall(sql: Stmt, params: Option<seq<Value>>, parameters: Option<seq<Value>>,
                       execute: Query -> Cursor): Answer
  {
    var c := execute(Query(sql, ResolveParams(params, parameters)));
    ShapeRows(Columns(c.description), c.tuples)
  }

  /** Row i of a described answer maps each of its column names to the value in
      that position of tuple i, when the name is not repeated later. */
  lemma QueryDbRows(sql: Stmt, params: Option<seq<Value>>, parameters: Option<seq<Value>>,
                    execute: Query -> Cursor, i: nat, j: nat)
    requires var c := execute(Query(sql, ResolveParams(params, parameters)));
      && c.description.Some? && c.description.value != [] && i < |c.tuples|
      && j < Min(|c.description.value|, |c.tuples[i]|)
      && forall m :: j < m < Min(|c.description.value|, |c.tuples[i]|) ==> c.description.value[m] != c.description.value[j]
    ensures var c := execute(Query(sql, ResolveParams(params, parameters)));
      var a := QueryDbCall(sql, params, parameters, execute);
      a.Dicts? && |a.rows| == |c.tuples| &&
      c.description.value[j] in a.rows[i] && a.rows[i][c.description.value[j]] == c.tuples[i][j]
  {
    var c := execute(Query(sql, ResolveParams(params, parameters)));
    ZipDictLastWins(c.description.value, c.tuples[i], j);
  }

  // Errors and conversions

  /** What a builder raises. */
  datatype QueryError =
    | InvalidOrderBy(allowed: set<string>)  // `order_by` outside the allow-list
    | InvalidOrderDir                       // `order_dir` not asc or desc
    | TotalMissing                          // the count row has no `total` column
    | TotalNotAnInt                         // `int()` refused the count

  /** `int(v)` on a value from the warehouse. */
  function IntOfValue(v: Value): Option<int> {
    match v
    case Int(i) => Some(i)
    case Real(r) => Some(TruncateToward0(r))
    case Str(s) => ParseInt(s)
    case Bool(b) => Some(if b then 1 else 0)
    case Null => None
  }

  /** `int(total_rows[0]["total"]) if total_rows else 0` */
  function Total(rows: seq<Row>): (t: Result<int, QueryError>)
    ensures rows == [] ==> t == Ok(0)
    ensures rows != [] && "total" in rows[0] && rows[0]["total"].Int? ==> t == Ok(rows[0]["total"].i)
    ensures t.Err? <==> rows != [] && ("total" !in rows[0] || IntOfValue(rows[0]["total"]).None?)
  {
    if rows == [] then Ok(0)
    else if "total" !in rows[0] then Err(TotalMissing)
    else
      var n := IntOfValue(rows[0]["total"]);
      if n.None? then Err(TotalNotAnInt) else Ok(n.value)
  }

  /** `(page - 1) * page_size`: the rows of the earlier pages. */
  function Offset(page: int, pageSize: int): (o: int)
    ensures o + pageSize == page * pageSize
    ensures page >= 1 && pageSize >= 0 ==> o >= 0
    ensures page == 1 ==> o == 0
  {
    (page - 1) * pageSize
  }

  /** The parameter of an optional filter: one when it is truthy, none otherwise. */
  function Opt(s: Option<string>): (p: seq<Value>)
    ensures |p| <= 1 && (p != [] <==> Present(s)) && (Present(s) ==> p == [Str(s.value)])
  {
    if Present(s) then [Str(s.value)] else []
  }

  // Conditions

  /** The condition an optional filter contributes: its `?`-condition when the
      value is truthy, none otherwise; it pairs with `Opt` of the same value. */
  function When(c: Clause, arg: Option<string>): (w: seq<Sql>)
    ensures |w| == |Opt(arg)| && (Present(arg) ==> w == [Cond(c)])
  {
    if Present(arg) then [Cond(c)] else []
  }

  /** The condition `<column> = ?` (or a period bound around its `?`) that a
      filter adds; each carries exactly one placeholder. */
  function Cond(c: Clause): (q: Sql)
    ensures Placeholders(q) == 1 && q[0] == Fixed(c)
  {
    if c == TsFrom || c == TsTo then [Fixed(c), Param, Fixed(Close)] else [Fixed(c), Param]
  }

  /** Appends one condition and its parameter when the filter is truthy, keeping
      the placeholder count of the conditions equal to the parameter count past
      `fixed` leading parameters. */
  method AddFilter(conds: seq<Sql>, params: seq<Value>, fixed: nat, c: Clause, arg: Option<string>)
    returns (conds': seq<Sql>, params': seq<Value>)
    requires ParamCount(conds) + fixed == |params|
    ensures params' == params + Opt(arg)
    ensures conds' == conds + (if Present(arg) then [Cond(c)] else [])
    ensures ParamCount(conds') + fixed == |params'|
  {
    conds', params' := conds, params;
    if Present(arg) {
      ParamCountSnoc(conds, Cond(c));
      conds' := conds + [Cond(c)];
      params' := params + [Str(arg.value)];
    }
  }

  /** The first optional filter of a statement that has no mandatory condition. */
  method FirstFilter(c: Clause, arg: Option<string>) returns (conds: seq<Sql>, params: seq<Value>)
    ensures params == Opt(arg)
    ensures conds == (if Present(arg) then [Cond(c)] else [])
    ensures ParamCount(conds) == |params|
  {
    conds, params := [], [];
    if Present(arg) {
      ParamCountSnoc([], Cond(c));
      assert [] + [Cond(c)] == [Cond(c)];
      conds, params := [Cond(c)], [Str(arg.value)];
    }
  }

  /** The mandatory first condition of a builder, `where = ["<column> = ?"]`. */
  method FirstCond(c: Clause, arg: Value) returns (conds: seq<Sql>, params: seq<Value>)
    ensures conds == [Cond(c)] && params == [arg] && ParamCount(conds) == |params|
  {
    conds, params := [Cond(c)], [arg];
    SingleCond(c);
  }

  /** The state and then the city, each when given. */
  method AddPlace(conds: seq<Sql>, params: seq<Value>, fixed: nat, uf: Option<string>, city: Option<string>)
    returns (conds': seq<Sql>, params': seq<Value>)
    requires ParamCount(conds) + fixed == |params|
    ensures params' == params + Opt(uf) + Opt(city)
    ensures conds' == conds + (if Present(uf) then [Cond(UfIs)] else []) + (if Present(city) then [Cond(CityIs)] else [])
    ensures ParamCount(conds') + fixed == |params'|
  {
    conds', params' := AddFilter(conds, params, fixed, UfIs, uf);
    conds', params' := AddFilter(conds', params', fixed, CityIs, city);
  }

  /** The start and the end of the period, each when given, in that order. */
  method AddPeriod(conds: seq<Sql>, params: seq<Value>, dateFrom: Option<string>, dateTo: Option<string>)
    returns (conds': seq<Sql>, params': seq<Value>)
    requires ParamCount(conds) == |params|
    ensures params' == params + Opt(dateFrom) + Opt(dateTo)
    ensures conds' == conds + When(TsFrom, dateFrom) + When(TsTo, dateTo)
    ensures ParamCount(conds') == |params'|
  {
    conds', params' := AddFilter(conds, params, 0, TsFrom, dateFrom);
    conds', params' := AddFilter(conds', params', 0, TsTo, dateTo);
  }

  lemma SingleCond(c: Clause)
    ensures ParamCount([Cond(c)]) == 1
  {
    ParamCountSnoc([], Cond(c));
    assert [] + [Cond(c)] == [Cond(c)];
  }

  /** `SELECT ... FROM <table>`: the head of a statement, without placeholders. */
  function Select(c: Clause, table: string): (q: Sql)
    ensures Placeholders(q) == 0 && q == [Fixed(c), Text(table)]
  {
    [Fixed(c), Text(table)]
  }

  // Paging

  /** A result page: `page` and `page_size` echoed, the total, and the items. */
  datatype Page = Page(page: int, pageSize: int, total: int, items: seq<Row>)

  /** The count query is issued first with the filter parameters; when its total
      reads as an int, the data query follows with the filter parameters and then
      `page_size` and the offset. */
  predicate PagedRun(db: Db, issued: seq<Query>, filterParams: seq<Value>, page: int, pageSize: int,
                     res: Result<Page, QueryError>)
  {
    && 1 <= |issued| <= 2
    && (forall k :: 0 <= k < |issued| ==> Balanced(issued[k]))
    && issued[0].params == filterParams
    && match Total(db(issued[0]))
       case Err(e) => res == Err(e) && |issued| == 1
       case Ok(t) =>
         && |issued| == 2
         && issued[1].params == filterParams + [Int(pageSize), Int(Offset(page, pageSize))]
         && res == Ok(Page(page, pageSize, t, db(issued[1])))
  }

  /** The count-then-data sequence shared by the paged builders. */
  method FetchPage(db: Db, count: Stmt, data: Stmt, params: seq<Value>, page: int, pageSize: int)
    returns (res: Result<Page, QueryError>, issued: seq<Query>)
    requires StmtPlaceholders(count) == |params| && StmtPlaceholders(data) == |params| + 2
    ensures PagedRun(db, issued, params, page, pageSize, res)
    ensures issued[0].stmt == count && (|issued| == 2 ==> issued[1].stmt == data)
  {
    var offset := Offset(page, pageSize);
    var countQuery := Query(count, params);
    issued := [countQuery];
    var total := Total(db(countQuery));
    if total.Err? {
      return Err(total.error), issued;
    }
    var dataQuery := Query(data, params + [Int(pageSize), Int(offset)]);
    issued := issued + [dataQuery];
    res := Ok(Page(page, pageSize, total.value, db(dataQuery)));
  }

  /** `LIMIT ? OFFSET ?` */
  const LimitOffset: Sql := [Fixed(Limit), Param, Fixed(OffsetBy), Param]

  lemma LimitOffsetPlaceholders()
    ensures Placeholders(LimitOffset) == 2
  {
    assert LimitOffset == [Fixed(Limit)] + [Param] + [Fixed(OffsetBy)] + [Param];
  }

  /** The words of `LIMIT ? OFFSET ?`. */
  lemma LimitOffsetText()
    ensures Render(LimitOffset) == " LIMIT ? OFFSET ?"
  {
    var q := LimitOffset;
    assert q[1..][1..][1..][1..] == [];
    assert Render(q[1..][1..][1..]) == "?";
    assert Render(q[1..][1..]) == " OFFSET ?";
    assert Render(q[1..]) == "? OFFSET ?";
  }

  /** A tail clause followed by the paging placeholders renders as that clause
      and one `LIMIT ? OFFSET ?`. */
  lemma PagedTailText(c: Clause)
    ensures Render([Fixed(c)] + LimitOffset) == ClauseText(c) + " LIMIT ? OFFSET ?"
  {
    LimitOffsetText();
    RenderAppend([Fixed(c)], LimitOffset);
  }

  /** The day-series page: grouped by day, ascending, then one `LIMIT ? OFFSET ?`. */
  lemma DaySeriesTailText()
    ensures ClauseText(DaySeriesTail) == " GROUP BY date_trunc('day', price_ts) ORDER BY day ASC"
    ensures Render([Fixed(DaySeriesTail)] + LimitOffset) == ClauseText(DaySeriesTail) + " LIMIT ? OFFSET ?"
  {
    PagedTailText(DaySeriesTail);
  }

  /** The station-history page: newest first, then one `LIMIT ? OFFSET ?`. */
  lemma HistoryTailText()
    ensures ClauseText(HistoryTail) == " ORDER BY price_ts DESC"
    ensures Render([Fixed(HistoryTail)] + LimitOffset) == ClauseText(HistoryTail) + " LIMIT ? OFFSET ?"
  {
    PagedTailText(HistoryTail);
  }

  /** The ordering of the latest-prices page: the chosen column, then the direction. */
  lemma OrderByText(orderBy: string, dir: string)
    ensures Render([Fixed(OrderBy), Text(orderBy), Fixed(Space), Text(dir)]) == " ORDER BY " + orderBy + " " + dir
  {
    RenderPair(Fixed(OrderBy), Text(orderBy));
    RenderPair(Fixed(Space), Text(dir));
    RenderAppend([Fixed(OrderBy), Text(orderBy)], [Fixed(Space), Text(dir)]);
    assert [Fixed(OrderBy), Text(orderBy)] + [Fixed(Space), Text(dir)] == [Fixed(OrderBy), Text(orderBy), Fixed(Space), Text(dir)];
    assert Word(Fixed(OrderBy)) == " ORDER BY " && Word(Fixed(Space)) == " ";
  }

  /** The latest-prices page: that ordering, then one `LIMIT ? OFFSET ?`. */
  lemma OrderedPageText(orderBy: string, dir: string)
    ensures Render(OrderedPage(orderBy, dir)) ==
            Render([Fixed(OrderBy), Text(orderBy), Fixed(Space), Text(dir)]) + " LIMIT ? OFFSET ?"
  {
    var prefix: Sql := [Fixed(OrderBy), Text(orderBy), Fixed(Space), Text(dir)];
    assert OrderedPage(orderBy, dir) == prefix + LimitOffset;
    LimitOffsetText();
    RenderAppend(prefix, LimitOffset);
  }

  /** The query that counts the days of a daily series. */
  function DayCount(table: string, conds: seq<Sql>): (s: Stmt)
    ensures StmtPlaceholders(s) == ParamCount(conds) && s.conds == conds
  {
    Stmt(Select(DayCountSelect, table), conds, [Fixed(DayCountGroup)])
  }

  /** One page of the daily series: average, minimum, maximum and sample count. */
  function DaySeries(table: string, conds: seq<Sql>): (s: Stmt)
    ensures StmtPlaceholders(s) == ParamCount(conds) + 2 && s.conds == conds
  {
    LimitOffsetPlaceholders();
    Stmt(Select(DaySeriesSelect, table), conds, [Fixed(DaySeriesTail)] + LimitOffset)
  }

  // The builders

  const LatestOrderBy: set<string> :=
    {"price_unit", "price_net", "price_gross", "discount", "price_ts", "city", "uf", "station_name", "distance_km"}

  /** `ORDER BY <column> <direction> LIMIT ? OFFSET ?` */
  function OrderedPage(orderBy: string, dir: string): (t: Sql)
    ensures Placeholders(t) == 2 && Text(orderBy) in t && Text(dir) in t
  {
    LimitOffsetPlaceholders();
    [Fixed(OrderBy), Text(orderBy)] + [Fixed(Space), Text(dir)] + LimitOffset
  }

  /** `get_latest_prices`: both checks come before any query; the data query is
      ordered by the allowed column in the normalised direction. */
  method GetLatestPrices(cfg: Config, db: Db, fuelType: Option<string>, page: int, pageSize: int,
                         orderBy: string, orderDir: string)
    returns (res: Result<Page, QueryError>, issued: seq<Query>)
    ensures orderBy !in LatestOrderBy ==> res == Err(InvalidOrderBy(LatestOrderBy)) && issued == []
    ensures orderBy in LatestOrderBy && !IsDirection(NormalizeDir(orderDir)) ==>
              res == Err(InvalidOrderDir) && issued == []
    ensures orderBy in LatestOrderBy && IsDirection(NormalizeDir(orderDir)) ==>
              && PagedRun(db, issued, Opt(fuelType), page, pageSize, res)
              && (|issued| == 2 ==> Text(orderBy) in issued[1].stmt.tail
                                    && Text(NormalizeDir(orderDir)) in issued[1].stmt.tail)
              && issued[0].stmt == Stmt(Select(CountFrom, Gold(cfg)), When(FuelIs, fuelType), [])
              && (|issued| == 2 ==> issued[1].stmt == Stmt(Select(LatestSelect, Gold(cfg)), When(FuelIs, fuelType),
                                                          OrderedPage(orderBy, NormalizeDir(orderDir))))
  {
    if orderBy !in LatestOrderBy {
      return Err(InvalidOrderBy(LatestOrderBy)), [];
    }
    var dir := NormalizeDir(orderDir);
    if !IsDirection(dir) {
      return Err(InvalidOrderDir), [];
    }
    res, issued := LatestPage(cfg, db, fuelType, page, pageSize, orderBy, dir);
  }

  /** The queries of `get_latest_prices` once its arguments are accepted. */
  method LatestPage(cfg: Config, db: Db, fuelType: Option<string>, page: int, pageSize: int,
                    orderBy: string, dir: string)
    returns (res: Result<Page, QueryError>, issued: seq<Query>)
    ensures PagedRun(db, issued, Opt(fuelType), page, pageSize, res)
    ensures |issued| == 2 ==> Text(orderBy) in issued[1].stmt.tail && Text(dir) in issued[1].stmt.tail
    ensures issued[0].stmt == Stmt(Select(CountFrom, Gold(cfg)), When(FuelIs, fuelType), [])
    ensures |issued| == 2 ==> issued[1].stmt == Stmt(Select(LatestSelect, Gold(cfg)), When(FuelIs, fuelType), OrderedPage(orderBy, dir))
  {
    var table := Gold(cfg);
    var conds, params := FirstFilter(FuelIs, fuelType);
    var count := Stmt(Select(CountFrom, table), conds, []);
    var data := Stmt(Select(LatestSelect, table), conds, OrderedPage(orderBy, dir));
    res, issued := FetchPage(db, count, data, params, page, pageSize);
  }

  /** `get_timeseries`: the daily series over the silver table, filtered by fuel
      and by the start and end of the period, in that order. */
  method GetTimeseries(cfg: Config, db: Db, fuelType: Option<string>, dateFrom: Option<string>,
                       dateTo: Option<string>, page: int, pageSize: int)
    returns (res: Result<Page, QueryError>, issued: seq<Query>)
    ensures PagedRun(db, issued, Opt(fuelType) + Opt(dateFrom) + Opt(dateTo), page, pageSize, res)
    ensures var conds := When(FuelIs, fuelType) + When(TsFrom, dateFrom) + When(TsTo, dateTo);
      && issued[0].stmt == DayCount(Silver(cfg), conds)
      && (|issued| == 2 ==> issued[1].stmt == DaySeries(Silver(cfg), conds))
  {
    var table := Silver(cfg);
    var conds, params := FirstFilter(FuelIs, fuelType);
    conds, params := AddPeriod(conds, params, dateFrom, dateTo);
    res, issued := FetchPage(db, DayCount(table, conds), DaySeries(table, conds), params, page, pageSize);
  }

  /** The tail of `get_cities`: `AND city IS NOT NULL ORDER BY ... LIMIT ?`. */
  const CitiesTail: Sql := [Fixed(CityNotNull), Fixed(CitiesEnd), Param]

  lemma CitiesTailPlaceholders()
    ensures Placeholders(CitiesTail) == 1
  {
    assert CitiesTail == [Fixed(CityNotNull), Fixed(CitiesEnd)] + [Param];
  }

  /** `get_cities`. The extra condition is written as `AND city IS NOT NULL`
      straight after the optional WHERE clause, so without `uf` it follows the
      table name with no WHERE before it. */
  method GetCities(cfg: Config, db: Db, uf: Option<string>, limit: int)
    returns (rows: seq<Row>, issued: seq<Query>)
    ensures |issued| == 1 && Balanced(issued[0]) && rows == db(issued[0])
    ensures issued[0].params == Opt(uf) + [Int(limit)]
    ensures issued[0].stmt == Stmt(Select(CitiesSelect, Gold(cfg)), if Present(uf) then [Cond(UfIs)] else [], CitiesTail)
  {
    var table := Gold(cfg);
    var conds, params := FirstFilter(UfIs, uf);
    CitiesTailPlaceholders();
    var q := Query(Stmt(Select(CitiesSelect, table), conds, CitiesTail), params + [Int(limit)]);
    issued := [q];
    rows := db(q);
  }

  /** Without a state the text of `get_cities` has no WHERE, yet the city
      condition still opens with AND right after the table name; with a state the
      WHERE clause comes first. */
  lemma CitiesWhere(cfg: Config, uf: Option<string>)
    ensures var q := Flatten(Stmt(Select(CitiesSelect, Gold(cfg)), if Present(uf) then [Cond(UfIs)] else [], CitiesTail));
      && |q| > 2 && q[1] == Text(Gold(cfg))
      && (Present(uf) ==> q[2] == Fixed(Where))
      && (!Present(uf) ==> q[2] == Fixed(CityNotNull) && Fixed(Where) !in q)
  {
    var head := Select(CitiesSelect, Gold(cfg));
    var conds := if Present(uf) then [Cond(UfIs)] else [];
    var q := Flatten(Stmt(head, conds, CitiesTail));
    assert q == head + WhereSql(conds) + CitiesTail;
    if Present(uf) {
      assert WhereSql(conds) == [Fixed(Where)] + Cond(UfIs);
    } else {
      assert q == [Fixed(CitiesSelect), Text(Gold(cfg)), Fixed(CityNotNull), Fixed(CitiesEnd), Param];
    }
  }

  /** The LIKE pattern of the name search: `f"%{q.lower()}%"`. */
  function NamePattern(q: string): (p: string)
    ensures |p| == |q| + 2 && p[0] == '%' && p[|p| - 1] == '%' && p[1..|p| - 1] == Lower(q)
  {
    "%" + Lower(q) + "%"
  }

  /** The name condition of `search_stations`, bound to the lower-cased pattern. */
  method NameFilter(q: Option<string>) returns (conds: seq<Sql>, params: seq<Value>)
    ensures params == (if Present(q) then [Str(NamePattern(q.value))] else []) && ParamCount(conds) == |params|
    ensures conds == When(NameLike, q)
  {
    conds, params := [], [];
    if Present(q) {
      conds, params := FirstCond(NameLike, Str(NamePattern(q.value)));
    }
  }

  /** The name, state and city filters of `search_stations`, in that order. */
  method StationFilters(q: Option<string>, uf: Option<string>, city: Option<string>)
    returns (conds: seq<Sql>, params: seq<Value>)
    ensures params == (if Present(q) then [Str(NamePattern(q.value))] else []) + Opt(uf) + Opt(city)
    ensures conds == When(NameLike, q) + When(UfIs, uf) + When(CityIs, city)
    ensures ParamCount(conds) == |params|
  {
    conds, params := NameFilter(q);
    conds, params := AddPlace(conds, params, 0, uf, city);
  }

  /** An ordering clause ending in `LIMIT ?`. */
  function LimitTail(c: Clause): (t: Sql)
    ensures Placeholders(t) == 1 && t[0] == Fixed(c)
  {
    assert [Fixed(c), Param] == [Fixed(c)] + [Param];
    [Fixed(c), Param]
  }

  /** `search_stations`: name, state and city filters in that order, then `limit`. */
  method SearchStations(cfg: Config, db: Db, q: Option<string>, uf: Option<string>, city: Option<string>, limit: int)
    returns (rows: seq<Row>, issued: seq<Query>)
    ensures |issued| == 1 && Balanced(issued[0]) && rows == db(issued[0])
    ensures issued[0].params == (if Present(q) then [Str(NamePattern(q.value))] else []) + Opt(uf) + Opt(city) + [Int(limit)]
    ensures issued[0].stmt == Stmt(Select(StationsSelect, Gold(cfg)), When(NameLike, q) + When(UfIs, uf) + When(CityIs, city),
                                   LimitTail(StationsTail))
  {
    var conds, params := StationFilters(q, uf, city);
    var query := Query(Stmt(Select(StationsSelect, Gold(cfg)), conds, LimitTail(StationsTail)), params + [Int(limit)]);
    issued := [query];
    rows := db(query);
  }

  /** The station fields of `get_station_detail`, and the fields of one fuel entry. */
  const StationKeys: seq<string> :=
    ["cnpj", "station_name", "city", "uf", "district", "street", "number", "zip_code", "lat", "lng"]
  const FuelKeys: seq<string> :=
    ["fuel_type", "product_desc", "unit", "price_ts", "price_unit", "price_net", "price_gross", "discount"]

  /** `{k: r.get(k) for k in keys}`: a missing column reads as None. */
  function Project(r: Row, keys: seq<string>): (d: Row)
    ensures forall k :: k in d <==> k in keys
    ensures forall k :: k in keys ==> d[k] == (if k in r then r[k] else Null)
  {
    map k | k in keys :: if k in r then r[k] else Null
  }

  /** A station with the prices of every row found for it. */
  datatype StationDetail = StationDetail(station: Row, fuels: seq<Row>)

  /** The statement of `get_station_detail`: every row of one station, newest first. */
  function DetailStmt(table: string): (s: Stmt)
    ensures StmtPlaceholders(s) == 1
  {
    SingleCond(CnpjIs);
    Stmt(Select(DetailSelect, table), [Cond(CnpjIs)], [Fixed(DetailOrder)])
  }

  /** What follows the table name in the detail query. */
  const DetailRest: Sql := [Fixed(Where), Fixed(CnpjIs), Param, Fixed(DetailOrder)]

  lemma DetailFlatten(table: string)
    ensures Flatten(DetailStmt(table)) == Select(DetailSelect, table) + DetailRest
  {
    assert WhereSql([Cond(CnpjIs)]) == [Fixed(Where)] + [Fixed(CnpjIs), Param];
  }

  lemma DetailRestWords()
    ensures Render(DetailRest) == ClauseText(Where) + ClauseText(CnpjIs) + "?" + ClauseText(DetailOrder)
  {
    RenderPair(Fixed(Where), Fixed(CnpjIs));
    RenderPair(Param, Fixed(DetailOrder));
    RenderAppend([Fixed(Where), Fixed(CnpjIs)], [Param, Fixed(DetailOrder)]);
    assert [Fixed(Where), Fixed(CnpjIs)] + [Param, Fixed(DetailOrder)] == DetailRest;
  }

  /** The fixed words of the detail query's condition and ordering. */
  lemma DetailClauses()
    ensures ClauseText(Where) == " WHERE " && ClauseText(CnpjIs) == "cnpj = " && ClauseText(DetailOrder) == " ORDER BY price_ts DESC"
  {
  }

  lemma DetailRestText()
    ensures Render(DetailRest) == " WHERE cnpj = ? ORDER BY price_ts DESC"
  {
    DetailRestWords();
    DetailClauses();
    assert " WHERE " + "cnpj = " == " WHERE cnpj = ";
    assert " WHERE cnpj = " + "?" == " WHERE cnpj = ?";
    assert " WHERE cnpj = ?" + " ORDER BY price_ts DESC" == " WHERE cnpj = ? ORDER BY price_ts DESC";
  }

  /** After the table name the detail query reads `WHERE cnpj = ? ORDER BY
      price_ts DESC`: one station-id placeholder, newest rows first. */
  lemma DetailText(table: string)
    ensures Render(Flatten(DetailStmt(table))) ==
            Render(Select(DetailSelect, table)) + " WHERE cnpj = ? ORDER BY price_ts DESC"
  {
    DetailFlatten(table);
    DetailRestText();
    RenderAppend(Select(DetailSelect, table), DetailRest);
  }

  /** `get_station_detail`: None for an unknown station; otherwise the station
      fields of the first (newest) row and one fuel entry per row, in row order. */
  method GetStationDetail(cfg: Config, db: Db, cnpj: int)
    returns (res: Option<StationDetail>, issued: seq<Query>)
    ensures |issued| == 1 && Balanced(issued[0]) && issued[0].params == [Int(cnpj)]
    ensures issued[0].stmt == DetailStmt(Gold(cfg))
    ensures var rows := db(issued[0]);
      && (res.None? <==> rows == [])
      && (res.Some? ==>
            && res.value.station == Project(rows[0], StationKeys)
            && |res.value.fuels| == |rows|
            && forall i :: 0 <= i < |rows| ==> res.value.fuels[i] == Project(rows[i], FuelKeys))
  {
    var q := Query(DetailStmt(Gold(cfg)), [Int(cnpj)]);
    issued := [q];
    var rows := db(q);
    if rows == [] {
      return None, issued;
    }
    var fuels := ProjectAll(rows, FuelKeys);
    res := Some(StationDetail(Project(rows[0], StationKeys), fuels));
  }

  /** One projection per row, in row order. */
  method ProjectAll(rows: seq<Row>, keys: seq<string>) returns (out: seq<Row>)
    ensures |out| == |rows| && forall i :: 0 <= i < |rows| ==> out[i] == Project(rows[i], keys)
  {
    out := [];
    var i := 0;
    while i < |rows|
      invariant 0 <= i <= |rows|
      invariant |out| == i
      invariant forall k :: 0 <= k < i ==> out[k] == Project(rows[k], keys)
    {
      out := out + [Project(rows[i], keys)];
      i := i + 1;
    }
  }

  const NearbyOrderBy: set<string> := {"price_unit", "distance_km", "price_ts"}

  /** The great-circle distance in km from the given point, by the haversine
      formula; its three placeholders take the latitude twice and the longitude. */
  const DistanceSql: Sql :=
    [Param, Fixed(Haversine1), Param, Fixed(Haversine2), Param, Fixed(Haversine3)]

  /** The select list with the distance column, over the gold table. */
  function NearbyHead(table: string): (q: Sql)
    ensures Placeholders(q) == 3
  {
    assert DistanceSql == [Param] + [Fixed(Haversine1)] + [Param] + [Fixed(Haversine2)] + [Param] + [Fixed(Haversine3)];
    [Fixed(NearbySelect)] + DistanceSql + [Fixed(Haversine4), Fixed(DistanceFrom), Text(table)]
  }

  /** `QUALIFY distance_km <= ? ORDER BY <column> <direction> LIMIT ?` */
  function NearbyTail(orderBy: string, dir: string): (t: Sql)
    ensures Placeholders(t) == 2 && Text(orderBy) in t && Text(dir) in t
  {
    [Fixed(Qualify), Param] + [Fixed(OrderBy), Text(orderBy), Fixed(Space), Text(dir), Fixed(Limit)] + [Param]
  }

  /** The two coordinate conditions every nearby search starts from. */
  const CoordConds: seq<Sql> := [[Fixed(LatNotNull)], [Fixed(LngNotNull)]]

  lemma CoordCondsPlaceholders()
    ensures ParamCount(CoordConds) == 0
  {
    assert CoordConds[..1] == [[Fixed(LatNotNull)]];
    assert ParamCount([[Fixed(LatNotNull)]]) == ParamCount([]) + Placeholders([Fixed(LatNotNull)]);
  }

  /** `get_prices_nearby`: the same kind of checks as the latest prices, with its
      own three-column allow-list; the distance parameters come first, then the
      fuel, the radius and `limit`. */
  method GetPricesNearby(cfg: Config, db: Db, lat: real, lng: real, radiusKm: real, fuelType: Option<string>,
                         limit: int, orderBy: string, orderDir: string)
    returns (res: Result<seq<Row>, QueryError>, issued: seq<Query>)
    ensures orderBy !in NearbyOrderBy ==> res == Err(InvalidOrderBy(NearbyOrderBy)) && issued == []
    ensures orderBy in NearbyOrderBy && !IsDirection(NormalizeDir(orderDir)) ==>
              res == Err(InvalidOrderDir) && issued == []
    ensures orderBy in NearbyOrderBy && IsDirection(NormalizeDir(orderDir)) ==>
              && |issued| == 1 && Balanced(issued[0]) && res == Ok(db(issued[0]))
              && issued[0].params == [Real(lat), Real(lat), Real(lng)] + Opt(fuelType) + [Real(radiusKm), Int(limit)]
              && Text(orderBy) in issued[0].stmt.tail && Text(NormalizeDir(orderDir)) in issued[0].stmt.tail
              && issued[0].stmt == Stmt(NearbyHead(Gold(cfg)), CoordConds + When(FuelIs, fuelType),
                                        NearbyTail(orderBy, NormalizeDir(orderDir)))
  {
    if orderBy !in NearbyOrderBy {
      return Err(InvalidOrderBy(NearbyOrderBy)), [];
    }
    var dir := NormalizeDir(orderDir);
    if !IsDirection(dir) {
      return Err(InvalidOrderDir), [];
    }
    var rows;
    rows, issued := NearbyQuery(cfg, db, lat, lng, radiusKm, fuelType, limit, orderBy, dir);
    res := Ok(rows);
  }

  /** The query of `get_prices_nearby` once its arguments are accepted. */
  method NearbyQuery(cfg: Config, db: Db, lat: real, lng: real, radiusKm: real, fuelType: Option<string>,
                     limit: int, orderBy: string, dir: string)
    returns (rows: seq<Row>, issued: seq<Query>)
    ensures |issued| == 1 && Balanced(issued[0]) && rows == db(issued[0])
    ensures issued[0].params == [Real(lat), Real(lat), Real(lng)] + Opt(fuelType) + [Real(radiusKm), Int(limit)]
    ensures Text(orderBy) in issued[0].stmt.tail && Text(dir) in issued[0].stmt.tail
    ensures issued[0].stmt == Stmt(NearbyHead(Gold(cfg)), CoordConds + When(FuelIs, fuelType), NearbyTail(orderBy, dir))
  {
    var table := Gold(cfg);
    var conds := CoordConds;
    var params: seq<Value> := [Real(lat), Real(lat), Real(lng)];
    CoordCondsPlaceholders();
    conds, params := AddFilter(conds, params, 3, FuelIs, fuelType);
    var q := Query(Stmt(NearbyHead(table), conds, NearbyTail(orderBy, dir)), params + [Real(radiusKm), Int(limit)]);
    issued := [q];
    rows := db(q);
  }

  /** The opening shared by the fuel-scoped builders: the fuel condition, then
      the state and the city when given. */
  method FuelFilters(fuelType: string, uf: Option<string>, city: Option<string>)
    returns (conds: seq<Sql>, params: seq<Value>)
    ensures params == [Str(fuelType)] + Opt(uf) + Opt(city) && ParamCount(conds) == |params|
    ensures conds == [Cond(FuelIs)] + (if Present(uf) then [Cond(UfIs)] else [])
                                    + (if Present(city) then [Cond(CityIs)] else [])
  {
    conds, params := FirstCond(FuelIs, Str(fuelType));
    conds, params := AddPlace(conds, params, 0, uf, city);
  }

  /** `get_best_prices`: the fuel is always a condition, state and city follow
      when given, then `limit`. */
  method GetBestPrices(cfg: Config, db: Db, fuelType: string, uf: Option<string>, city: Option<string>, limit: int)
    returns (rows: seq<Row>, issued: seq<Query>)
    ensures |issued| == 1 && Balanced(issued[0]) && rows == db(issued[0])
    ensures issued[0].params == [Str(fuelType)] + Opt(uf) + Opt(city) + [Int(limit)]
    ensures issued[0].stmt == Stmt(Select(BestSelect, Gold(cfg)), [Cond(FuelIs)] + When(UfIs, uf) + When(CityIs, city),
                                   LimitTail(BestTail))
  {
    var conds, params := FuelFilters(fuelType, uf, city);
    var q := Query(Stmt(Select(BestSelect, Gold(cfg)), conds, LimitTail(BestTail)), params + [Int(limit)]);
    issued := [q];
    rows := db(q);
  }

  /** `get_prices_compare`: the first aggregate row, or a zero-station summary
      for the fuel when nothing matches. */
  method GetPricesCompare(cfg: Config, db: Db, fuelType: string, uf: Option<string>, city: Option<string>)
    returns (res: Row, issued: seq<Query>)
    ensures |issued| == 1 && Balanced(issued[0])
    ensures issued[0].params == [Str(fuelType)] + Opt(uf) + Opt(city)
    ensures issued[0].stmt == Stmt(Select(CompareSelect, Gold(cfg)), [Cond(FuelIs)] + When(UfIs, uf) + When(CityIs, city),
                                   [Fixed(CompareGroup)])
    ensures var rows := db(issued[0]);
      && (rows != [] ==> res == rows[0])
      && (rows == [] ==> res == map["fuel_type" := Str(fuelType), "stations" := Int(0)])
  {
    var conds, params := FuelFilters(fuelType, uf, city);
    var q := Query(Stmt(Select(CompareSelect, Gold(cfg)), conds, [Fixed(CompareGroup)]), params);
    issued := [q];
    var rows := db(q);
    res := if rows != [] then rows[0] else map["fuel_type" := Str(fuelType), "stations" := Int(0)];
  }

  /** The period, state, city and fuel filters of `get_stats_summary`. */
  method StatsFilters(dateFrom: Option<string>, dateTo: Option<string>,
                      uf: Option<string>, city: Option<string>, fuelType: Option<string>)
    returns (conds: seq<Sql>, params: seq<Value>)
    ensures params == Opt(dateFrom) + Opt(dateTo) + Opt(uf) + Opt(city) + Opt(fuelType)
    ensures conds == When(TsFrom, dateFrom) + When(TsTo, dateTo) + When(UfIs, uf) + When(CityIs, city) + When(FuelIs, fuelType)
    ensures ParamCount(conds) == |params|
  {
    conds, params := AddPeriod([], [], dateFrom, dateTo);
    assert [] + When(TsFrom, dateFrom) == When(TsFrom, dateFrom);
    assert [] + Opt(dateFrom) == Opt(dateFrom);
    conds, params := AddPlace(conds, params, 0, uf, city);
    conds, params := AddFilter(conds, params, 0, FuelIs, fuelType);
  }

  /** `get_stats_summary`: period, state, city and fuel filters in that order;
      the single aggregate row, or an empty dict. */
  method GetStatsSummary(cfg: Config, db: Db, dateFrom: Option<string>, dateTo: Option<string>,
                         uf: Option<string>, city: Option<string>, fuelType: Option<string>)
    returns (res: Row, issued: seq<Query>)
    ensures |issued| == 1 && Balanced(issued[0])
    ensures issued[0].params == Opt(dateFrom) + Opt(dateTo) + Opt(uf) + Opt(city) + Opt(fuelType)
    ensures issued[0].stmt ==
              Stmt(Select(StatsSelect, Silver(cfg)),
                   When(TsFrom, dateFrom) + When(TsTo, dateTo) + When(UfIs, uf) + When(CityIs, city) + When(FuelIs, fuelType), [])
    ensures var rows := db(issued[0]);
      (rows != [] ==> res == rows[0]) && (rows == [] ==> res == map[])
  {
    var conds, params := StatsFilters(dateFrom, dateTo, uf, city, fuelType);
    var q := Query(Stmt(Select(StatsSelect, Silver(cfg)), conds, []), params);
    issued := [q];
    var rows := db(q);
    res := if rows != [] then rows[0] else map[];
  }

  /** `get_timeseries_city`: the daily series for one fuel, then state, city and
      period filters in that order. */
  method GetTimeseriesCity(cfg: Config, db: Db, fuelType: string, uf: Option<string>, city: Option<string>,
                           dateFrom: Option<string>, dateTo: Option<string>, page: int, pageSize: int)
    returns (res: Result<Page, QueryError>, issued: seq<Query>)
    ensures PagedRun(db, issued, [Str(fuelType)] + Opt(uf) + Opt(city) + Opt(dateFrom) + Opt(dateTo),
                     page, pageSize, res)
    ensures var conds := [Cond(FuelIs)] + When(UfIs, uf) + When(CityIs, city) + When(TsFrom, dateFrom) + When(TsTo, dateTo);
      && issued[0].stmt == DayCount(Silver(cfg), conds)
      && (|issued| == 2 ==> issued[1].stmt == DaySeries(Silver(cfg), conds))
  {
    var table := Silver(cfg);
    var conds, params := FuelFilters(fuelType, uf, city);
    conds, params := AddPeriod(conds, params, dateFrom, dateTo);
    res, issued := FetchPage(db, DayCount(table, conds), DaySeries(table, conds), params, page, pageSize);
  }

  /** The station id, then fuel, period start and period end when present. */
  method StationHistoryFilters(cnpj: int, fuelType: Option<string>, dateFrom: Option<string>, dateTo: Option<string>)
    returns (conds: seq<Sql>, params: seq<Value>)
    ensures params == [Int(cnpj)] + Opt(fuelType) + Opt(dateFrom) + Opt(dateTo)
    ensures conds == [Cond(CnpjIs)] + When(FuelIs, fuelType) + When(TsFrom, dateFrom) + When(TsTo, dateTo)
    ensures ParamCount(conds) == |params|
  {
    conds, params := FirstCond(CnpjIs, Int(cnpj));
    conds, params := AddFilter(conds, params, 0, FuelIs, fuelType);
    conds, params := AddPeriod(conds, params, dateFrom, dateTo);
  }

  /** `get_timeseries_station`: the price history of one station, newest first,
      optionally for one fuel and one period. */
  method GetTimeseriesStation(cfg: Config, db: Db, cnpj: int, fuelType: Option<string>,
                              dateFrom: Option<string>, dateTo: Option<string>, page: int, pageSize: int)
    returns (res: Result<Page, QueryError>, issued: seq<Query>)
    ensures PagedRun(db, issued, [Int(cnpj)] + Opt(fuelType) + Opt(dateFrom) + Opt(dateTo), page, pageSize, res)
    ensures var conds := [Cond(CnpjIs)] + When(FuelIs, fuelType) + When(TsFrom, dateFrom) + When(TsTo, dateTo);
      && issued[0].stmt == Stmt(Select(CountFrom, Silver(cfg)), conds, [])
      && (|issued| == 2 ==> issued[1].stmt == Stmt(Select(HistorySelect, Silver(cfg)), conds, [Fixed(HistoryTail)] + LimitOffset))
  {
    var table := Silver(cfg);
    var conds, params := StationHistoryFilters(cnpj, fuelType, dateFrom, dateTo);
    LimitOffsetPlaceholders();
    var count := Stmt(Select(CountFrom, table), conds, []);
    var data := Stmt(Select(HistorySelect, table), conds, [Fixed(HistoryTail)] + LimitOffset);
    res, issued := FetchPage(db, count, data, params, page, pageSize);
  }

  /** The last-price and previous-price windows of the drop alerts, written into
      the text as `hours` and `hours * 2`, then the threshold and `LIMIT ?`. */
  function DropWindows(hours: int): (t: Sql)
    ensures Placeholders(t) == 2 && Text(IntText(hours)) in t && Text(IntText(hours * 2)) in t
  {
    var h := Text(IntText(hours));
    [Fixed(DropLast), h, Fixed(DropPrev), h, Fixed(DropPrevStart), Text(IntText(hours * 2)), Fixed(DropSelect)]
      + [Param] + [Fixed(DropTail)] + [Param]
  }

  /** `get_price_drop_alerts`: only the filters, the drop threshold and `limit`
      are parameters; the window length is part of the text. */
  method GetPriceDropAlerts(cfg: Config, db: Db, fuelType: string, uf: Option<string>, city: Option<string>,
                            hours: int, pctDrop: real, limit: int)
    returns (rows: seq<Row>, issued: seq<Query>)
    ensures |issued| == 1 && Balanced(issued[0]) && rows == db(issued[0])
    ensures issued[0].params == [Str(fuelType)] + Opt(uf) + Opt(city) + [Real(pctDrop), Int(limit)]
    ensures Text(IntText(hours)) in issued[0].stmt.tail && Text(IntText(hours * 2)) in issued[0].stmt.tail
    ensures issued[0].stmt == Stmt(Select(DropBase, Silver(cfg)), [Cond(FuelIs)] + When(UfIs, uf) + When(CityIs, city),
                                   DropWindows(hours))
  {
    var conds, params := FuelFilters(fuelType, uf, city);
    var q := Query(Stmt(Select(DropBase, Silver(cfg)), conds, DropWindows(hours)), params + [Real(pctDrop), Int(limit)]);
    issued := [q];
    rows := db(q);
  }

  /** The window of the last `hours` hours, then the z threshold and `LIMIT ?`. */
  function AnomalyWindow(hours: int): (t: Sql)
    ensures Placeholders(t) == 2 && Text(IntText(hours)) in t
  {
    [Fixed(RecentWindow), Text(IntText(hours)), Fixed(ZSelect)] + [Param] + [Fixed(ZTail)] + [Param]
  }

  /** `get_anomalies`: the recent window is written into the text as `hours`;
      the filters, the z threshold and `limit` are parameters. The window is
      joined with a bare AND, which reads correctly because the fuel condition
      always opens a WHERE clause. */
  method GetAnomalies(cfg: Config, db: Db, fuelType: string, uf: Option<string>, city: Option<string>,
                      hours: int, z: real, limit: int)
    returns (rows: seq<Row>, issued: seq<Query>)
    ensures |issued| == 1 && Balanced(issued[0]) && rows == db(issued[0])
    ensures issued[0].params == [Str(fuelType)] + Opt(uf) + Opt(city) + [Real(z), Int(limit)]
    ensures Text(IntText(hours)) in issued[0].stmt.tail
    ensures issued[0].stmt == Stmt(Select(RecentBase, Silver(cfg)), [Cond(FuelIs)] + When(UfIs, uf) + When(CityIs, city),
                                   AnomalyWindow(hours))
  {
    var conds, params := FuelFilters(fuelType, uf, city);
    var q := Query(Stmt(Select(RecentBase, Silver(cfg)), conds, AnomalyWindow(hours)), params + [Real(z), Int(limit)]);
    issued := [q];
    rows := db(q);
  }
}
