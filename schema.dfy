/** Schema introspection and its cache on the tenant row (lib/snowflake.ts:159-261 and the older
    reference-files/lib/snowflake.ts:125-220). The warehouse's catalog answers are oracles: the
    table list, and for each table name its column query and its COUNT(*) query. */
module SchemaCatalog {
  import opened Common
  import opened Records
  import opened TenantConfigs
  import opened Warehouse

  /** A row of INFORMATION_SCHEMA.TABLES; a null COMMENT is None. */
  datatype RawTable = RawTable(name: string, tableType: string, comment: Option<string>)

  /** A row of INFORMATION_SCHEMA.COLUMNS. */
  datatype RawColumn = RawColumn(name: string, dataType: string, isNullable: string, comment: Option<string>)

  /** The COUNT(*) query: it fails, or yields `rows?.[0]?.CNT` (None when absent). */
  datatype CountOutcome = CountFailed | Counted(cnt: Option<int>)

  /** The catalog as the warehouse answers it. */
  datatype Catalog = Catalog(
    tables: Result<seq<RawTable>>,
    columnsOf: string -> Result<seq<RawColumn>>,
    countOf: string -> CountOutcome)

  const ONE_HOUR: int := 60 * 60 * 1000

  /** `x || ""` for a nullable comment. */
  function OrEmpty(c: Option<string>): string {
    if c.Some? then c.value else ""
  }

  /** `rows?.[0]?.CNT || 0` for the count query; a failed count is 0. */
  function RowCountOf(c: CountOutcome): int {
    if c.Counted? && c.cnt.Some? then c.cnt.value else 0
  }

  function ColumnOf(c: RawColumn): ColumnInfo {
    ColumnInfo(c.name, c.dataType, c.isNullable == "YES", OrEmpty(c.comment))
  }

  /** The record pushed for one table whose column query succeeded. */
  function TableOf(t: RawTable, cols: seq<RawColumn>, count: CountOutcome): TableInfo {
    TableInfo(t.name, t.tableType, OrEmpty(t.comment), RowCountOf(count),
              seq(|cols|, i requires 0 <= i < |cols| => ColumnOf(cols[i])))
  }

  /** Index of the first table whose column query fails, or |tables| when none does. */
  function FirstFailure(tables: seq<RawTable>, columnsOf: string -> Result<seq<RawColumn>>): (k: nat)
    ensures k <= |tables|
    ensures forall i :: 0 <= i < k ==> columnsOf(tables[i].name).Ok?
    ensures k < |tables| ==> columnsOf(tables[k].name).Err?
  {
    if tables == [] then 0
    else if columnsOf(tables[0].name).Err? then 0
    else 1 + FirstFailure(tables[1..], columnsOf)
  }

  /** The introspection loop's outcome: the first failing column query aborts everything;
      otherwise one record per table, in order. */
  function Introspect(tables: seq<RawTable>, columnsOf: string -> Result<seq<RawColumn>>,
                      countOf: string -> CountOutcome): Result<seq<TableInfo>>
  {
    var k := FirstFailure(tables, columnsOf);
    if k < |tables| then Err(columnsOf(tables[k].name).error)
    else Ok(seq(|tables|, i requires 0 <= i < |tables| =>
              TableOf(tables[i], columnsOf(tables[i].name).value, countOf(tables[i].name))))
  }

  /** The loop over the table list, pushing one record per table and stopping at the first
      failing column query. */
  method IntrospectTables(tables: seq<RawTable>, columnsOf: string -> Result<seq<RawColumn>>,
                          countOf: string -> CountOutcome) returns (r: Result<seq<TableInfo>>)
    ensures r == Introspect(tables, columnsOf, countOf)
  {
    var tableMetadata: seq<TableInfo> := [];
    var i := 0;
    while i < |tables|
      invariant 0 <= i <= |tables|
      invariant forall k :: 0 <= k < i ==> columnsOf(tables[k].name).Ok?
      invariant |tableMetadata| == i
      invariant forall k :: 0 <= k < i ==>
        tableMetadata[k] == TableOf(tables[k], columnsOf(tables[k].name).value, countOf(tables[k].name))
    {
      var name := tables[i].name;
      var columns := columnsOf(name);
      if columns.Err? {
        assert FirstFailure(tables, columnsOf) == i by { FirstFailureAt(tables, columnsOf, i); }
        return Err(columns.error);
      }
      var rowCount := RowCountOf(countOf(name));
      var cols := seq(|columns.value|, j requires 0 <= j < |columns.value| => ColumnOf(columns.value[j]));
      tableMetadata := tableMetadata + [TableInfo(name, tables[i].tableType, OrEmpty(tables[i].comment), rowCount, cols)];
      i := i + 1;
    }
    assert FirstFailure(tables, columnsOf) == |tables| by { FirstFailureAt(tables, columnsOf, |tables|); }
    assert tableMetadata == Introspect(tables, columnsOf, countOf).value;
    r := Ok(tableMetadata);
  }

  /** The first failure is the `k` before which every column query succeeds and at which one
      fails (or the end). */
  lemma FirstFailureAt(tables: seq<RawTable>, columnsOf: string -> Result<seq<RawColumn>>, k: nat)
    requires k <= |tables|
    requires forall i :: 0 <= i < k ==> columnsOf(tables[i].name).Ok?
    requires k < |tables| ==> columnsOf(tables[k].name).Err?
    ensures FirstFailure(tables, columnsOf) == k
  {
  }

  /** Introspection succeeds exactly when every column query does; then there is one record per
      table in order, nullable exactly when IS_NULLABLE is "YES", null comments become "", a
      failed count becomes 0, and a failed count never aborts. */
  lemma IntrospectSpec(tables: seq<RawTable>, columnsOf: string -> Result<seq<RawColumn>>,
                       countOf: string -> CountOutcome)
    ensures Introspect(tables, columnsOf, countOf).Ok? <==>
      forall i :: 0 <= i < |tables| ==> columnsOf(tables[i].name).Ok?
    ensures var r := Introspect(tables, columnsOf, countOf);
      r.Ok? ==>
        && |r.value| == |tables|
        && forall i :: 0 <= i < |tables| ==>
          var t := r.value[i];
          var cols := columnsOf(tables[i].name).value;
          && t.name == tables[i].name
          && t.comment == (if tables[i].comment.Some? then tables[i].comment.value else "")
          && (countOf(tables[i].name).CountFailed? ==> t.rowCount == 0)
          && |t.columns| == |cols|
          && forall j :: 0 <= j < |cols| ==>
            t.columns[j].name == cols[j].name && (t.columns[j].nullable <==> cols[j].isNullable == "YES")
  {
    var k := FirstFailure(tables, columnsOf);
    if k < |tables| {
      assert columnsOf(tables[k].name).Err?;
    }
  }

  /** Whether the cached schema of a tenant row must be refreshed at time `now`: no cache, no
      timestamp, or older than one hour. */
  predicate IsStale(t: Tenant, now: int) {
    t.schemaCache.NoCache? || t.schemaCachedAt.None? || now - t.schemaCachedAt.value > ONE_HOUR
  }

  /** The error JSON.parse throws on an unparsable cache. */
  const PARSE_ERROR := "Unexpected token in JSON"

  /** What a refresh or a cache lookup leaves behind: the tables or the error, the connection
      pool, and the tenant row as stored afterwards. */
  datatype Outcome = Outcome(result: Result<seq<TableInfo>>, pool: Pool, stored: Option<Tenant>)

  /** The row after the cache write at time `now`. */
  function WithCache(t: Tenant, tables: seq<TableInfo>, now: int): Tenant {
    t.(schemaCache := Cached(tables), schemaCachedAt := Some(now))
  }

  /** The part of a refresh that talks to the warehouse: connect, list the tables and introspect
      them. Yields the tables or the error, and the pool afterwards. */
  function Fetch(pool: Pool, tenantId: string, isUp: Conn -> bool, outcome: ConnectOutcome,
                 catalog: Catalog): (Result<seq<TableInfo>>, Pool)
  {
    var (c, p) := Connect(pool, tenantId, isUp, outcome);
    if c.Err? then (Err(c.error), p)
    else if catalog.tables.Err? then (Err(catalog.tables.error), p)
    else (Introspect(catalog.tables.value, catalog.columnsOf, catalog.countOf), p)
  }

  /** refreshSchemaCache. `record` is the tenant lookup (a failed lookup is no row), `write` the
      cache write's outcome (None on success, else its error), `now` the time of the write. */
  function Refresh(pool: Pool, tenantId: string, record: Option<Tenant>, env: Env, isUp: Conn -> bool,
                   outcome: ConnectOutcome, catalog: Catalog, write: Option<string>, now: int): Outcome
  {
    var config := ResolveConfig(record, env);
    if config.None? then Outcome(Err(CONFIG_ERROR), pool, record)
    else
      var (r, p) := Fetch(pool, tenantId, isUp, outcome, catalog);
      var stored := if r.Ok? && record.Some? && write.None? then Some(WithCache(record.value, r.value, now)) else record;
      Outcome(r, p, stored)
  }

  /** getSchemaContext: with no tenant row always refresh; otherwise reuse a fresh cache. */
  function GetSchemaContext(pool: Pool, tenantId: string, record: Option<Tenant>, env: Env, isUp: Conn -> bool,
                            outcome: ConnectOutcome, catalog: Catalog, write: Option<string>, now: int): Outcome
  {
    if record.None? || IsStale(record.value, now) then
      Refresh(pool, tenantId, record, env, isUp, outcome, catalog, write, now)
    else match record.value.schemaCache
      case Cached(tables) => Outcome(Ok(tables), pool, record)
      case _ => Outcome(Err(PARSE_ERROR), pool, record)
  }

  /** A cache write failure is swallowed: the refreshed tables are still returned, and only the
      stored row differs. The row is written only when it exists. */
  lemma RefreshWriteSwallowed(pool: Pool, tenantId: string, record: Option<Tenant>, env: Env, isUp: Conn -> bool,
                              outcome: ConnectOutcome, catalog: Catalog, msg: string, now: int)
    ensures var ok := Refresh(pool, tenantId, record, env, isUp, outcome, catalog, None, now);
      var failed := Refresh(pool, tenantId, record, env, isUp, outcome, catalog, Some(msg), now);
      && failed.result == ok.result && failed.pool == ok.pool && failed.stored == record
      && (record.None? ==> ok.stored == None)
  {
  }

  /** Without a tenant row the schema is re-introspected on every call. */
  lemma NoRowAlwaysRefreshes(pool: Pool, tenantId: string, env: Env, isUp: Conn -> bool,
                             outcome: ConnectOutcome, catalog: Catalog, write: Option<string>, now: int)
    ensures GetSchemaContext(pool, tenantId, None, env, isUp, outcome, catalog, write, now)
         == Refresh(pool, tenantId, None, env, isUp, outcome, catalog, write, now)
  {
  }

  /** A successful refresh whose write succeeds is reused, unchanged, by every later call within
      one hour (the boundary itself included): no connection and no catalog query. */
  lemma RefreshThenReuse(pool: Pool, tenantId: string, t: Tenant, env: Env, isUp: Conn -> bool,
                         outcome: ConnectOutcome, catalog: Catalog, now: int, later: int,
                         isUp2: Conn -> bool, outcome2: ConnectOutcome, catalog2: Catalog, write2: Option<string>)
    requires Refresh(pool, tenantId, Some(t), env, isUp, outcome, catalog, None, now).result.Ok?
    requires now <= later <= now + ONE_HOUR
    ensures var first := Refresh(pool, tenantId, Some(t), env, isUp, outcome, catalog, None, now);
      var second := GetSchemaContext(first.pool, tenantId, first.stored, env, isUp2, outcome2, catalog2, write2, later);
      second == Outcome(first.result, first.pool, first.stored)
  {
  }

  /** One millisecond past the hour the cache is stale and the next call refreshes. */
  lemma StaleAfterOneHour(t: Tenant, cachedAt: int, now: int)
    requires t.schemaCachedAt == Some(cachedAt) && now > cachedAt + ONE_HOUR
    ensures IsStale(t, now)
  {
  }

  /** The older refreshSchemaCache: the tenant lookup is not guarded, so its failure is thrown
      as it is (nothing is read, so no row is reported); the row must exist (active or not) and
      is the configuration; the cache write is not guarded, so its failure fails the refresh. */
  function RefreshReference(pool: Pool, tenantId: string, lookup: Result<Option<Tenant>>, isUp: Conn -> bool,
                            outcome: ConnectOutcome, catalog: Catalog, write: Option<string>, now: int): Outcome
  {
    if lookup.Err? then Outcome(Err(lookup.error), pool, None)
    else if lookup.value.None? then Outcome(Err(TENANT_NOT_FOUND), pool, None)
    else
      var t := lookup.value.value;
      var (r, p) := Fetch(pool, tenantId, isUp, outcome, catalog);
      if r.Err? then Outcome(r, p, Some(t))
      else if write.Some? then Outcome(Err(write.value), p, Some(t))
      else Outcome(r, p, Some(WithCache(t, r.value, now)))
  }

  /** The older getSchemaContext: the lookup is not guarded either, the row must exist, and a
      fresh cache is reused. A stale row is refreshed by `RefreshReference`, whose own lookup is
      taken to read the same row. */
  function GetSchemaContextReference(pool: Pool, tenantId: string, lookup: Result<Option<Tenant>>, isUp: Conn -> bool,
                                     outcome: ConnectOutcome, catalog: Catalog, write: Option<string>, now: int): Outcome
  {
    if lookup.Err? then Outcome(Err(lookup.error), pool, None)
    else if lookup.value.None? then Outcome(Err(TENANT_NOT_FOUND), pool, None)
    else
      var t := lookup.value.value;
      if IsStale(t, now) then RefreshReference(pool, tenantId, lookup, isUp, outcome, catalog, write, now)
      else match t.schemaCache
        case Cached(tables) => Outcome(Ok(tables), pool, Some(t))
        case _ => Outcome(Err(PARSE_ERROR), pool, Some(t))
  }

  /** In the older version a failed lookup is thrown as it is, a missing row is an error, and a
      failed cache write loses the
      introspected tables; when the write succeeds it agrees with the current version on an
      active row. */
  lemma ReferenceDifferences(pool: Pool, tenantId: string, record: Option<Tenant>, env: Env, isUp: Conn -> bool,
                             outcome: ConnectOutcome, catalog: Catalog, msg: string, now: int)
    ensures GetSchemaContextReference(pool, tenantId, Err(msg), isUp, outcome, catalog, None, now)
         == Outcome(Err(msg), pool, None)
    ensures RefreshReference(pool, tenantId, Err(msg), isUp, outcome, catalog, None, now)
         == Outcome(Err(msg), pool, None)
    ensures GetSchemaContextReference(pool, tenantId, Ok(None), isUp, outcome, catalog, None, now).result
         == Err(TENANT_NOT_FOUND)
    ensures record.Some? && RefreshReference(pool, tenantId, Ok(record), isUp, outcome, catalog, Some(msg), now).result.Ok? ==> false
    ensures record.Some? && record.value.isActive ==>
      RefreshReference(pool, tenantId, Ok(record), isUp, outcome, catalog, None, now)
        == Refresh(pool, tenantId, record, env, isUp, outcome, catalog, None, now)
  {
  }
}
