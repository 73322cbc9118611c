/** The persistent records the pipeline reads: a tenant row and the schema snapshot that
    introspection produces and the tenant row caches. */
module Records {
  import opened Common

  /** One column of an introspected table (lib/snowflake.ts, refreshSchemaCache). */
  datatype ColumnInfo = ColumnInfo(name: string, dataType: string, nullable: bool, comment: string)

  /** One introspected table with its estimated row count. */
  datatype TableInfo = TableInfo(name: string, tableType: string, comment: string, rowCount: int,
                                 columns: seq<ColumnInfo>)

  /** The tenant's `schemaCache` column, seen through `JSON.parse`: absent or the empty string,
      the text of a table list, or text that does not parse. */
  datatype SchemaCache = NoCache | Cached(tables: seq<TableInfo>) | Unparsable

  /** A tenant row. Times are milliseconds since the epoch. */
  datatype Tenant = Tenant(
    id: string, name: string, slug: string,
    sfAccount: string, sfUser: string, sfPassword: string, sfWarehouse: string,
    sfDatabase: string, sfSchema: string, sfRole: string,
    maxRowsPerQuery: int, queryTimeoutSecs: int, dailyQueryLimit: int,
    isActive: bool, schemaCache: SchemaCache, schemaCachedAt: Option<int>)

  /** The process environment: a variable is set when it is present and not empty (`||` and
      `&&` treat "" as false). */
  type Env = map<string, string>

  predicate EnvSet(env: Env, key: string) {
    key in env && env[key] != ""
  }

  /** `process.env[key] || fallback`. */
  function EnvOr(env: Env, key: string, fallback: string): (r: string)
    ensures EnvSet(env, key) ==> r == env[key]
    ensures !EnvSet(env, key) ==> r == fallback
  {
    if EnvSet(env, key) then env[key] else fallback
  }
}
