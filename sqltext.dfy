/** The SQL text that the query builders of fastapi/dblib/querydb.py assemble,
    modelled as the sequence of fragments that are concatenated: literal words,
    and the `?` placeholders that the driver binds to parameters. Also the two
    string normalisations the builders apply to caller input (`lower`, `strip`). */
module SqlText {

  /** A statement is a sequence of fragments: a fixed clause of one of the
      builders, a word computed at run time (a table name, an allowed column, a
      rendered number), or a `?` placeholder. */
  datatype Frag = Fixed(c: Clause) | Text(s: string) | Param

  /** The fixed clauses the builders concatenate; `ClauseText` gives their words.
      Each statement's words are split at its placeholders and at the points where
      a computed word or the WHERE clause is inserted. */
  datatype Clause =
    | Where | And | Close
    | FuelIs | UfIs | CityIs | CnpjIs | TsFrom | TsTo | NameLike | LatNotNull | LngNotNull
    | CountFrom | OrderBy | Space | Limit | OffsetBy
    | LatestSelect
    | DayCountSelect | DayCountGroup | DaySeriesSelect | DaySeriesTail
    | CitiesSelect | CityNotNull | CitiesEnd
    | StationsSelect | StationsTail
    | DetailSelect | DetailOrder
    | NearbySelect | Haversine1 | Haversine2 | Haversine3 | Haversine4 | DistanceFrom | Qualify
    | BestSelect | BestTail
    | CompareSelect | CompareGroup
    | StatsSelect
    | HistorySelect | HistoryTail
    | DropBase | DropLast | DropPrev | DropPrevStart | DropSelect | DropTail
    | RecentBase | RecentWindow | ZSelect | ZTail

  function ClauseText(c: Clause): string {
    match c
    case Where => " WHERE "
    case And => " AND "
    case Close => ")"
    case FuelIs => "fuel_type = "
    case UfIs => "uf = "
    case CityIs => "city = "
    case CnpjIs => "cnpj = "
    case TsFrom => "price_ts >= TIMESTAMP("
    case TsTo => "price_ts <= TIMESTAMP("
    case NameLike => "LOWER(station_name) LIKE "
    case LatNotNull => "lat IS NOT NULL"
    case LngNotNull => "lng IS NOT NULL"
    case CountFrom => "SELECT COUNT(*) AS total FROM "
    case OrderBy => " ORDER BY "
    case Space => " "
    case Limit => " LIMIT "
    case OffsetBy => " OFFSET "
    case LatestSelect =>
      "SELECT fuel_type, uf, city, station_name, cnpj, product_desc, unit, price_ts, price_unit, " +
      "price_net, price_gross, discount, lat, lng, distance_km FROM "
    case DayCountSelect => "SELECT COUNT(*) AS total FROM (SELECT date_trunc('day', price_ts) AS day FROM "
    case DayCountGroup => " GROUP BY date_trunc('day', price_ts)) t"
    case DaySeriesSelect =>
      "SELECT date_trunc('day', price_ts) AS day, AVG(price_unit) AS avg_price_unit, " +
      "MIN(price_unit) AS min_price_unit, MAX(price_unit) AS max_price_unit, COUNT(*) AS samples FROM "
    case DaySeriesTail => " GROUP BY date_trunc('day', price_ts) ORDER BY day ASC"
    case CitiesSelect => "SELECT DISTINCT uf, city FROM "
    case CityNotNull => " AND city IS NOT NULL"
    case CitiesEnd => " ORDER BY uf, city LIMIT "
    case StationsSelect => "SELECT DISTINCT cnpj, station_name, city, uf, district, street, number, zip_code, lat, lng FROM "
    case StationsTail => " ORDER BY uf, city, station_name LIMIT "
    case DetailSelect =>
      "SELECT cnpj, station_name, city, uf, district, street, number, zip_code, lat, lng, fuel_type, " +
      "product_desc, unit, price_ts, price_unit, price_net, price_gross, discount FROM "
    case DetailOrder => " ORDER BY price_ts DESC"
    case NearbySelect =>
      "SELECT fuel_type, uf, city, station_name, cnpj, product_desc, unit, price_ts, price_unit, " +
      "price_net, price_gross, discount, lat, lng, (6371 * 2 * ASIN(SQRT(POW(SIN(RADIANS(lat - "
    case Haversine1 => ") / 2), 2) + COS(RADIANS("
    case Haversine2 => ")) * COS(RADIANS(lat)) * POW(SIN(RADIANS(lng - "
    case Haversine3 => ") / 2), 2))))"
    case Haversine4 => " AS distance_km"
    case DistanceFrom => " FROM "
    case Qualify => " QUALIFY distance_km <= "
    case BestSelect =>
      "SELECT fuel_type, uf, city, station_name, cnpj, price_ts, price_unit, price_net, price_gross, " +
      "discount, lat, lng FROM "
    case BestTail => " ORDER BY price_unit ASC, price_ts DESC LIMIT "
    case CompareSelect =>
      "SELECT fuel_type, COALESCE(uf, '') AS uf, COALESCE(city, '') AS city, AVG(price_unit) AS avg_price_unit, " +
      "MIN(price_unit) AS min_price_unit, MAX(price_unit) AS max_price_unit, COUNT(*) AS stations, " +
      "MAX(price_ts) AS last_price_ts FROM "
    case CompareGroup => " GROUP BY fuel_type, COALESCE(uf, ''), COALESCE(city, '')"
    case StatsSelect =>
      "SELECT COUNT(*) AS rows, COUNT(DISTINCT cnpj) AS stations, COUNT(DISTINCT city) AS cities, " +
      "COUNT(DISTINCT uf) AS ufs, MIN(price_ts) AS min_price_ts, MAX(price_ts) AS max_price_ts, " +
      "AVG(price_unit) AS avg_price_unit FROM "
    case HistorySelect =>
      "SELECT price_ts, fuel_type, price_unit, price_net, price_gross, discount, station_name, city, uf, " +
      "lat, lng FROM "
    case HistoryTail => " ORDER BY price_ts DESC"
    case DropBase => "WITH base AS (SELECT cnpj, station_name, city, uf, price_ts, price_unit FROM "
    case DropLast =>
      "), last_window AS (SELECT cnpj, AVG(price_unit) AS avg_last FROM base " +
      "WHERE price_ts >= current_timestamp() - INTERVAL "
    case DropPrev =>
      " HOURS GROUP BY cnpj), prev_window AS (SELECT cnpj, AVG(price_unit) AS avg_prev FROM base " +
      "WHERE price_ts < current_timestamp() - INTERVAL "
    case DropPrevStart => " HOURS AND price_ts >= current_timestamp() - INTERVAL "
    case DropSelect =>
      " HOURS GROUP BY cnpj) SELECT b.cnpj, MAX(b.station_name) AS station_name, MAX(b.city) AS city, " +
      "MAX(b.uf) AS uf, l.avg_last, p.avg_prev, ((p.avg_prev - l.avg_last) / p.avg_prev) * 100 AS pct_drop " +
      "FROM base b JOIN last_window l ON b.cnpj = l.cnpj JOIN prev_window p ON b.cnpj = p.cnpj " +
      "GROUP BY b.cnpj, l.avg_last, p.avg_prev HAVING p.avg_prev IS NOT NULL AND l.avg_last IS NOT NULL " +
      "AND ((p.avg_prev - l.avg_last) / p.avg_prev) * 100 >= "
    case DropTail => " ORDER BY pct_drop DESC LIMIT "
    case RecentBase => "WITH recent AS (SELECT * FROM "
    case RecentWindow => " AND price_ts >= current_timestamp() - INTERVAL "
    case ZSelect =>
      " HOURS AND price_unit IS NOT NULL), stats AS (SELECT AVG(price_unit) AS mu, " +
      "STDDEV_SAMP(price_unit) AS sigma FROM recent) SELECT r.price_ts, r.cnpj, r.station_name, r.city, r.uf, " +
      "r.fuel_type, r.price_unit, s.mu, s.sigma, CASE WHEN s.sigma = 0 OR s.sigma IS NULL THEN NULL " +
      "ELSE (r.price_unit - s.mu) / s.sigma END AS zscore FROM recent r CROSS JOIN stats s " +
      "WHERE s.sigma IS NOT NULL AND s.sigma > 0 AND ABS((r.price_unit - s.mu) / s.sigma) >= "
    case ZTail => " ORDER BY ABS((r.price_unit - s.mu) / s.sigma) DESC LIMIT "
  }

  /** The words of one fragment, `?` for a placeholder. */
  function Word(f: Frag): string {
    match f
    case Fixed(c) => ClauseText(c)
    case Text(s) => s
    case Param => "?"
  }

  /** The words of a statement, with `?` for each placeholder. */
  function Render(q: Sql): string
    decreases |q|
  {
    if q == [] then "" else Word(q[0]) + Render(q[1..])
  }

  type Sql = seq<Frag>

  /** The words of two fragments. */
  lemma RenderPair(f: Frag, g: Frag)
    ensures Render([f, g]) == Word(f) + Word(g)
  {
    RenderOne(f);
    RenderOne(g);
    RenderAppend([f], [g]);
    assert [f] + [g] == [f, g];
  }

  /** The words of one fragment. */
  lemma RenderOne(f: Frag)
    ensures Render([f]) == Word(f)
  {
    assert [f][1..] == [];
    assert Word(f) + "" == Word(f);
  }

  /** Rendering distributes over concatenation: the words of `a + b` are the
      words of `a` followed by the words of `b`. */
  lemma {:induction false} RenderAppend(a: Sql, b: Sql)
    ensures Render(a + b) == Render(a) + Render(b)
    decreases |a|
  {
    if a == [] {
      assert a + b == b;
    } else {
      assert (a + b)[0] == a[0] && (a + b)[1..] == a[1..] + b;
      RenderAppend(a[1..], b);
      calc {
        Render(a + b);
        Word(a[0]) + Render(a[1..] + b);
        Word(a[0]) + (Render(a[1..]) + Render(b));
        (Word(a[0]) + Render(a[1..])) + Render(b);
      }
    }
  }

  /** The number of `?` placeholders in a statement. */
  function Placeholders(q: Sql): nat {
    multiset(q)[Param]
  }

  /** `" AND ".join(conds)` */
  function JoinAnd(conds: seq<Sql>): Sql
    decreases |conds|
  {
    if |conds| == 0 then []
    else if |conds| == 1 then conds[0]
    else JoinAnd(conds[..|conds| - 1]) + [Fixed(And)] + conds[|conds| - 1]
  }

  /** `(" WHERE " + " AND ".join(where)) if where else ""` */
  function WhereSql(conds: seq<Sql>): (w: Sql)
    ensures w == [] <==> conds == []
  {
    if conds == [] then [] else [Fixed(Where)] + JoinAnd(conds)
  }

  /** The placeholders of a list of conditions, taken together. */
  function ParamCount(conds: seq<Sql>): nat
    decreases |conds|
  {
    if conds == [] then 0 else ParamCount(conds[..|conds| - 1]) + Placeholders(conds[|conds| - 1])
  }

  lemma ParamCountSnoc(conds: seq<Sql>, c: Sql)
    ensures ParamCount(conds + [c]) == ParamCount(conds) + Placeholders(c)
  {
    assert (conds + [c])[..|conds|] == conds;
  }

  /** Joining conditions neither adds nor drops a placeholder. */
  lemma {:induction false} JoinAndPlaceholders(conds: seq<Sql>)
    ensures Placeholders(JoinAnd(conds)) == ParamCount(conds)
    decreases |conds|
  {
    if |conds| == 1 {
      assert conds == [] + [conds[0]];
      assert ParamCount(conds) == ParamCount([]) + Placeholders(conds[0]);
    } else if |conds| > 1 {
      JoinAndPlaceholders(conds[..|conds| - 1]);
    }
  }

  /** The WHERE clause holds exactly the placeholders of its conditions. */
  lemma WherePlaceholders(conds: seq<Sql>)
    ensures Placeholders(WhereSql(conds)) == ParamCount(conds)
  {
    JoinAndPlaceholders(conds);
  }

  /** A statement as the builders assemble it: a head, the WHERE clause over the
      collected conditions, and a tail (`f"SELECT ... {where_sql} ..."`). */
  datatype Stmt = Stmt(head: Sql, conds: seq<Sql>, tail: Sql)

  /** The statement as one sequence of fragments: `head + where_sql + tail`. */
  function Flatten(s: Stmt): Sql {
    s.head + WhereSql(s.conds) + s.tail
  }

  /** The placeholders of a statement, counted part by part. */
  function StmtPlaceholders(s: Stmt): nat {
    Placeholders(s.head) + ParamCount(s.conds) + Placeholders(s.tail)
  }

  /** Flattening keeps every placeholder of every part, and adds none. */
  lemma FlattenPlaceholders(s: Stmt)
    ensures Placeholders(Flatten(s)) == StmtPlaceholders(s)
  {
    WherePlaceholders(s.conds);
    assert Flatten(s) == s.head + WhereSql(s.conds) + s.tail;
  }

  /** A fragment of the tail is a fragment of the flattened statement. */
  lemma TailInFlatten(s: Stmt, f: Frag)
    requires f in s.tail
    ensures f in Flatten(s)
  {
    var i :| 0 <= i < |s.tail| && s.tail[i] == f;
    var w := WhereSql(s.conds);
    assert Flatten(s)[|s.head| + |w| + i] == f;
  }

  // Caller input normalisation

  /** `str.lower` on one character of the Latin-1 range: ASCII capitals and the
      Latin-1 capitals U+00C0..U+00DE except the multiplication sign. */
  function LowerChar(c: char): (d: char)
    ensures 'A' <= c <= 'Z' ==> d as int == c as int + 32
    ensures !IsUpper(c) ==> d == c
  {
    if IsUpper(c) then (c as int + 32) as char else c
  }

  predicate IsUpper(c: char) {
    ('A' <= c <= 'Z') || (0xC0 <= c as int <= 0xDE && c as int != 0xD7)
  }

  /** `s.lower()` */
  function Lower(s: string): (t: string)
    ensures |t| == |s| && forall i :: 0 <= i < |s| ==> t[i] == LowerChar(s[i])
  {
    seq(|s|, i requires 0 <= i < |s| => LowerChar(s[i]))
  }

  /** Lower-casing twice is lower-casing once. */
  lemma LowerIdempotent(s: string)
    ensures Lower(Lower(s)) == Lower(s)
  {
    forall i | 0 <= i < |s| ensures LowerChar(LowerChar(s[i])) == LowerChar(s[i]) {
      assert !IsUpper(LowerChar(s[i]));
    }
  }

  /** The characters `str.strip()` removes: those for which `str.isspace()` holds. */
  predicate IsSpace(c: char) {
    var n := c as int;
    n == 0x20 || 0x09 <= n <= 0x0D || 0x1C <= n <= 0x1F || n == 0x85 || n == 0xA0 ||
    n == 0x1680 || 0x2000 <= n <= 0x200A || n == 0x2028 || n == 0x2029 || n == 0x202F ||
    n == 0x205F || n == 0x3000
  }

  /** The index of the first non-space character at or after i, or |s|. */
  function SkipFront(s: string, i: nat): (k: nat)
    requires i <= |s|
    ensures i <= k <= |s| && (forall m :: i <= m < k ==> IsSpace(s[m])) && (k < |s| ==> !IsSpace(s[k]))
    decreases |s| - i
  {
    if i < |s| && IsSpace(s[i]) then SkipFront(s, i + 1) else i
  }

  /** The end of s[..j] once the trailing spaces are dropped, not going below lo. */
  function SkipBack(s: string, lo: nat, j: nat): (k: nat)
    requires lo <= j <= |s|
    ensures lo <= k <= j && (forall m :: k <= m < j ==> IsSpace(s[m])) && (k > lo ==> !IsSpace(s[k - 1]))
    decreases j
  {
    if j > lo && IsSpace(s[j - 1]) then SkipBack(s, lo, j - 1) else j
  }

  /** `s.strip()` */
  function Strip(s: string): string {
    var i := SkipFront(s, 0);
    s[i..SkipBack(s, i, |s|)]
  }

  /** The stripped string is a slice of the input with only spaces cut on either
      side, and it neither starts nor ends with a space. */
  lemma StripSpec(s: string)
    ensures var t := Strip(s);
      && (exists i, j :: 0 <= i <= j <= |s| && t == s[i..j] &&
            (forall m :: 0 <= m < i ==> IsSpace(s[m])) && (forall m :: j <= m < |s| ==> IsSpace(s[m])))
      && (t != [] ==> !IsSpace(t[0]) && !IsSpace(t[|t| - 1]))
  {
    var i := SkipFront(s, 0);
    var j := SkipBack(s, i, |s|);
    assert Strip(s) == s[i..j];
  }

  /** Stripping twice is stripping once. */
  lemma StripIdempotent(s: string)
    ensures Strip(Strip(s)) == Strip(s)
  {
    var t := Strip(s);
    StripSpec(s);
    assert SkipFront(t, 0) == 0;
    assert SkipBack(t, 0, |t|) == |t|;
  }

  /** `order_dir.lower().strip()` */
  function NormalizeDir(d: string): string {
    Strip(Lower(d))
  }

  /** The directions the allow-check accepts after normalisation. */
  predicate IsDirection(d: string) {
    d == "asc" || d == "desc"
  }

  /** Surrounding white space and letter case do not matter to the direction. */
  lemma NormalizeDirSpacedUpper()
    ensures NormalizeDir(" DESC\n") == "desc"
  {
    var a := Lower(" DESC\n");
    assert a == " desc\n";
    assert SkipFront(a, 0) == 1;
    assert SkipBack(a, 1, 6) == 5;
  }

  lemma NormalizeDirCapitalised()
    ensures NormalizeDir("Asc") == "asc"
  {
    var b := Lower("Asc");
    assert b == "asc";
    assert SkipFront(b, 0) == 0;
    assert SkipBack(b, 0, 3) == 3;
  }

  /** Only the two words themselves are accepted, not longer spellings. */
  lemma NormalizeDirRejectsLonger()
    ensures !IsDirection(NormalizeDir("ascending"))
  {
    var c := Lower("ascending");
    assert c == "ascending";
    assert SkipFront(c, 0) == 0;
    assert SkipBack(c, 0, 9) == 9;
  }

  /** Lower-cased text has no capitals left. */
  lemma LowerHasNoCapitals(s: string)
    ensures forall k :: 0 <= k < |Lower(s)| ==> !IsUpper(Lower(s)[k])
  {
  }

  /** Text without capitals is its own lower-casing. */
  lemma LowerWithoutCapitals(t: string)
    requires forall k :: 0 <= k < |t| ==> !IsUpper(t[k])
    ensures Lower(t) == t
  {
  }

  /** A normalised direction is already in normal form. */
  lemma NormalizeDirIdempotent(d: string)
    ensures NormalizeDir(NormalizeDir(d)) == NormalizeDir(d)
  {
    var u := Lower(d);
    var t := Strip(u);
    LowerHasNoCapitals(d);
    StripSpec(u);
    var i, j :| 0 <= i <= j <= |u| && t == u[i..j];
    forall k | 0 <= k < |t| ensures !IsUpper(t[k]) {
      assert t[k] == u[i + k];
    }
    LowerWithoutCapitals(t);
    StripIdempotent(u);
  }
}
