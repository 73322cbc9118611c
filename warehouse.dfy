/** The per-tenant connection pool and statement execution (lib/snowflake.ts:8, 25-52, 92-154,
    290-296, and the older reference-files/lib/snowflake.ts:8, 25-52, 57-120, 249-255). The
    driver is an oracle: whether a pooled connection is up, what a connect attempt yields and
    what running the statement yields are parameters. */
module Warehouse {
  import opened Common
  import opened Json
  import opened Records
  import opened TenantConfigs
  import opened SqlGuard
  import opened Results

  /** A driver connection object; `id` tells connection objects apart. */
  datatype Conn = Conn(id: nat)

  /** What `conn.connect` reports. */
  datatype ConnectOutcome = Connected(conn: Conn) | ConnectFailed(message: string)

  /** What running the statement reports: the driver error, or the statement's column names
      and rows (each None when the driver gives none). */
  datatype ExecOutcome =
    | ExecFailed(message: string)
    | ExecOk(columns: Option<seq<string>>, rows: Option<seq<Row>>)

  type Pool = map<string, Conn>

  const CONNECT_ERROR := "Snowflake connection failed: "
  const CONFIG_ERROR := "Snowflake configuration not found"
  const QUERY_ERROR := "Query error: "
  const TENANT_NOT_FOUND := "Tenant not found"
  const TENANT_INACTIVE := "Tenant is inactive"

  /** getConnection on a pool: the connection handed out and the pool afterwards. */
  function Connect(pool: Pool, tenantId: string, isUp: Conn -> bool, outcome: ConnectOutcome): (Result<Conn>, Pool) {
    if tenantId in pool && isUp(pool[tenantId]) then (Ok(pool[tenantId]), pool)
    else match outcome
      case Connected(c) => (Ok(c), pool[tenantId := c])
      case ConnectFailed(m) => (Err(CONNECT_ERROR + m), pool)
  }

  /** A live pooled connection is handed back and the pool is unchanged; otherwise a successful
      connect is handed back and stored under the tenant, and a failed one leaves the pool as
      it was. No other tenant's entry ever changes. */
  lemma ConnectSpec(pool: Pool, tenantId: string, isUp: Conn -> bool, outcome: ConnectOutcome)
    ensures var (r, p) := Connect(pool, tenantId, isUp, outcome);
      && (tenantId in pool && isUp(pool[tenantId]) ==> r == Ok(pool[tenantId]) && p == pool)
      && (!(tenantId in pool && isUp(pool[tenantId])) && outcome.Connected? ==>
            r == Ok(outcome.conn) && tenantId in p && p[tenantId] == outcome.conn)
      && (!(tenantId in pool && isUp(pool[tenantId])) && outcome.ConnectFailed? ==>
            r == Err(CONNECT_ERROR + outcome.message) && p == pool)
      && (forall t :: t != tenantId ==> (t in p <==> t in pool) && (t in p ==> p[t] == pool[t]))
      && (r.Ok? ==> tenantId in p && p[tenantId] == r.value)
  {
  }

  /** destroyConnection on a pool. */
  function Destroy(pool: Pool, tenantId: string): Pool {
    pool - {tenantId}
  }

  /** Destroying removes the tenant's entry and nothing else; with no entry it changes
      nothing. */
  lemma DestroySpec(pool: Pool, tenantId: string)
    ensures tenantId !in Destroy(pool, tenantId)
    ensures forall t :: t != tenantId ==> (t in Destroy(pool, tenantId) <==> t in pool)
    ensures forall t :: t in Destroy(pool, tenantId) ==> Destroy(pool, tenantId)[t] == pool[t]
    ensures tenantId !in pool ==> Destroy(pool, tenantId) == pool
  {
  }

  /** The error `sql.trim()` throws when the statement handed in is not a string. */
  function TrimTypeError(sql: Json): string {
    if sql.JNull? then "Cannot read properties of null (reading 'trim')" else "sql.trim is not a function"
  }

  /** The part of executeQuery after the tenant's configuration is known: the type of the
      statement, the filter, the connection, then the statement. */
  function RunStatement(pool: Pool, tenantId: string, sql: Json, config: TenantConfig,
                        isUp: Conn -> bool, outcome: ConnectOutcome, exec: ExecOutcome,
                        iso: int -> string): (Result<QueryResult>, Pool)
  {
    if !sql.JStr? then (Err(TrimTypeError(sql)), pool)
    else match Check(sql.s)
      case Rejected(m) => (Err(m), pool)
      case Allowed =>
        var (c, p) := Connect(pool, tenantId, isUp, outcome);
        if c.Err? then (Err(c.error), p)
        else match exec
          case ExecFailed(m) => (Err(QUERY_ERROR + m), p)
          case ExecOk(cols, rows) => (Ok(Shape(cols, rows, config.maxRowsPerQuery, iso)), p)
  }

  /** executeQuery: the configuration from the tenant row or the environment, then the
      statement. `record` is the tenant lookup's outcome. */
  function Execute(pool: Pool, tenantId: string, sql: Json, record: Option<Tenant>, env: Env,
                   isUp: Conn -> bool, outcome: ConnectOutcome, exec: ExecOutcome,
                   iso: int -> string): (Result<QueryResult>, Pool)
  {
    var config := ResolveConfig(record, env);
    if config.None? then (Err(CONFIG_ERROR), pool)
    else RunStatement(pool, tenantId, sql, config.value, isUp, outcome, exec, iso)
  }

  /** The older executeQuery: the tenant lookup is not guarded, so its failure is thrown as
      it is; the tenant row must exist and be active, and it is the configuration. */
  function ExecuteReference(pool: Pool, tenantId: string, sql: Json, lookup: Result<Option<Tenant>>,
                            isUp: Conn -> bool, outcome: ConnectOutcome, exec: ExecOutcome,
                            iso: int -> string): (Result<QueryResult>, Pool)
  {
    if lookup.Err? then (Err(lookup.error), pool)
    else if lookup.value.None? then (Err(TENANT_NOT_FOUND), pool)
    else if !lookup.value.value.isActive then (Err(TENANT_INACTIVE), pool)
    else RunStatement(pool, tenantId, sql, FromTenant(lookup.value.value), isUp, outcome, exec, iso)
  }

  /** A missing configuration, a statement that is not a string, or one the filter rejects is
      refused before the pool is consulted: the pool is unchanged and the outcome of connecting
      or running plays no part. */
  lemma RefusedBeforePool(pool: Pool, tenantId: string, sql: Json, record: Option<Tenant>, env: Env,
                          isUp: Conn -> bool, outcome: ConnectOutcome, exec: ExecOutcome,
                          iso: int -> string)
    requires ResolveConfig(record, env).None? || !sql.JStr? || Check(sql.s).Rejected?
    ensures var (r, p) := Execute(pool, tenantId, sql, record, env, isUp, outcome, exec, iso);
      && p == pool
      && r == (if ResolveConfig(record, env).None? then Err(CONFIG_ERROR)
               else if !sql.JStr? then Err(TrimTypeError(sql))
               else Err(Check(sql.s).message))
  {
  }

  /** A statement that passes the filter on a tenant with a configuration reaches the pool: a
      live pooled connection is reused and the pool is unchanged, a fresh connection is pooled,
      and a failed connect leaves the pool as it was. */
  lemma AllowedStatementPool(pool: Pool, tenantId: string, sql: string, record: Option<Tenant>, env: Env,
                             isUp: Conn -> bool, outcome: ConnectOutcome, exec: ExecOutcome, iso: int -> string)
    requires ResolveConfig(record, env).Some? && Check(sql) == Allowed
    ensures var live := tenantId in pool && isUp(pool[tenantId]);
      Execute(pool, tenantId, JStr(sql), record, env, isUp, outcome, exec, iso).1
      == if live then pool else if outcome.Connected? then pool[tenantId := outcome.conn] else pool
  {
    var config := ResolveConfig(record, env).value;
    var run := RunStatement(pool, tenantId, JStr(sql), config, isUp, outcome, exec, iso);
    var connected := Connect(pool, tenantId, isUp, outcome);
    assert Execute(pool, tenantId, JStr(sql), record, env, isUp, outcome, exec, iso) == run;
    assert run.1 == connected.1;
    if tenantId in pool && isUp(pool[tenantId]) {
      assert connected.1 == pool;
    } else if outcome.Connected? {
      assert connected.1 == pool[tenantId := outcome.conn];
    } else {
      assert connected.1 == pool;
    }
  }

  /** ... and its result is the connect error, or the driver's error as a query error, or the
      shaped rows under the configured cap. */
  lemma AllowedStatementResult(pool: Pool, tenantId: string, sql: string, record: Option<Tenant>, env: Env,
                               isUp: Conn -> bool, outcome: ConnectOutcome, exec: ExecOutcome, iso: int -> string)
    requires ResolveConfig(record, env).Some? && Check(sql) == Allowed
    ensures var live := tenantId in pool && isUp(pool[tenantId]);
      var r := Execute(pool, tenantId, JStr(sql), record, env, isUp, outcome, exec, iso).0;
      && (!live && outcome.ConnectFailed? ==> r == Err(CONNECT_ERROR + outcome.message))
      && ((live || outcome.Connected?) && exec.ExecFailed? ==> r == Err(QUERY_ERROR + exec.message))
      && ((live || outcome.Connected?) && exec.ExecOk? ==>
            r == Ok(Shape(exec.columns, exec.rows, ResolveConfig(record, env).value.maxRowsPerQuery, iso)))
  {
    var config := ResolveConfig(record, env).value;
    var run := RunStatement(pool, tenantId, JStr(sql), config, isUp, outcome, exec, iso);
    assert Execute(pool, tenantId, JStr(sql), record, env, isUp, outcome, exec, iso) == run;
  }

  /** The older version passes a failed lookup through and refuses a missing or inactive
      tenant before looking at the statement; for an active tenant both versions agree. */
  lemma ReferenceTenantChecks(pool: Pool, tenantId: string, sql: Json, record: Option<Tenant>, env: Env,
                              msg: string, isUp: Conn -> bool, outcome: ConnectOutcome, exec: ExecOutcome,
                              iso: int -> string)
    ensures ExecuteReference(pool, tenantId, sql, Err(msg), isUp, outcome, exec, iso) == (Err(msg), pool)
    ensures record.None? ==>
      ExecuteReference(pool, tenantId, sql, Ok(record), isUp, outcome, exec, iso) == (Err(TENANT_NOT_FOUND), pool)
    ensures record.Some? && !record.value.isActive ==>
      ExecuteReference(pool, tenantId, sql, Ok(record), isUp, outcome, exec, iso) == (Err(TENANT_INACTIVE), pool)
    ensures record.Some? && record.value.isActive ==>
      ExecuteReference(pool, tenantId, sql, Ok(record), isUp, outcome, exec, iso)
        == Execute(pool, tenantId, sql, record, env, isUp, outcome, exec, iso)
  {
  }

  /** The process-wide pool: tenant id to driver connection, updated in place. */
  class ConnectionPool {
    var pool: Pool

    constructor ()
      ensures pool == map[]
    {
      pool := map[];
    }

    /** getConnection. */
    method GetConnection(tenantId: string, isUp: Conn -> bool, outcome: ConnectOutcome) returns (r: Result<Conn>)
      modifies this
      ensures (r, pool) == Connect(old(pool), tenantId, isUp, outcome)
    {
      if tenantId in pool {
        var existing := pool[tenantId];
        if isUp(existing) {
          return Ok(existing);
        }
      }
      match outcome {
        case Connected(c) =>
          pool := pool[tenantId := c];
          r := Ok(c);
        case ConnectFailed(m) =>
          r := Err(CONNECT_ERROR + m);
      }
    }

    /** destroyConnection. */
    method DestroyConnection(tenantId: string)
      modifies this
      ensures pool == Destroy(old(pool), tenantId)
    {
      if tenantId in pool {
        pool := pool - {tenantId};
      }
    }

    /** The shared tail of both executeQuery versions. */
    method Run(tenantId: string, sql: Json, config: TenantConfig, isUp: Conn -> bool,
               outcome: ConnectOutcome, exec: ExecOutcome, iso: int -> string) returns (r: Result<QueryResult>)
      modifies this
      ensures (r, pool) == RunStatement(old(pool), tenantId, sql, config, isUp, outcome, exec, iso)
    {
      if !sql.JStr? {
        return Err(TrimTypeError(sql));
      }
      var verdict := Validate(sql.s);
      if verdict.Rejected? {
        return Err(verdict.message);
      }
      var c := GetConnection(tenantId, isUp, outcome);
      if c.Err? {
        return Err(c.error);
      }
      match exec {
        case ExecFailed(m) =>
          r := Err(QUERY_ERROR + m);
        case ExecOk(cols, rows) =>
          var shaped := ShapeResult(cols, rows, config.maxRowsPerQuery, iso);
          r := Ok(shaped);
      }
    }

    /** executeQuery. */
    method ExecuteQuery(tenantId: string, sql: Json, record: Option<Tenant>, env: Env,
                        isUp: Conn -> bool, outcome: ConnectOutcome, exec: ExecOutcome,
                        iso: int -> string) returns (r: Result<QueryResult>)
      modifies this
      ensures (r, pool) == Execute(old(pool), tenantId, sql, record, env, isUp, outcome, exec, iso)
    {
      var config := ResolveConfig(record, env);
      if config.None? {
        return Err(CONFIG_ERROR);
      }
      r := Run(tenantId, sql, config.value, isUp, outcome, exec, iso);
    }

    /** The older executeQuery. */
    method ExecuteQueryReference(tenantId: string, sql: Json, lookup: Result<Option<Tenant>>,
                                 isUp: Conn -> bool, outcome: ConnectOutcome, exec: ExecOutcome,
                                 iso: int -> string) returns (r: Result<QueryResult>)
      modifies this
      ensures (r, pool) == ExecuteReference(old(pool), tenantId, sql, lookup, isUp, outcome, exec, iso)
    {
      if lookup.Err? {
        return Err(lookup.error);
      }
      var record := lookup.value;
      if record.None? {
        return Err(TENANT_NOT_FOUND);
      }
      if !record.value.isActive {
        return Err(TENANT_INACTIVE);
      }
      r := Run(tenantId, sql, FromTenant(record.value), isUp, outcome, exec, iso);
    }
  }
}
