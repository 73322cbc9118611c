/** Which warehouse credentials and limits a tenant's statements run with
    (lib/snowflake.ts, getTenantConfig): the tenant row when it is active, otherwise the
    process environment when all six connection variables are set, otherwise none. */
module TenantConfigs {
  import opened Common
  import opened Text
  import opened Records

  /** The connection settings and limits; a limit parsed from the environment may be NaN
      (None). */
  datatype TenantConfig = TenantConfig(
    account: string, user: string, password: string, warehouse: string,
    database: string, schema: string, role: string,
    maxRowsPerQuery: Option<int>, queryTimeoutSecs: Option<int>)

  /** The six variables the environment fallback needs, all of them set. */
  predicate AllEnvSet(env: Env) {
    EnvSet(env, "SNOWFLAKE_ACCOUNT") && EnvSet(env, "SNOWFLAKE_USER")
    && EnvSet(env, "SNOWFLAKE_PASSWORD") && EnvSet(env, "SNOWFLAKE_WAREHOUSE")
    && EnvSet(env, "SNOWFLAKE_DATABASE") && EnvSet(env, "SNOWFLAKE_SCHEMA")
  }

  /** The tenant row read as a configuration. */
  function FromTenant(t: Tenant): TenantConfig {
    TenantConfig(t.sfAccount, t.sfUser, t.sfPassword, t.sfWarehouse, t.sfDatabase, t.sfSchema,
                 t.sfRole, Some(t.maxRowsPerQuery), Some(t.queryTimeoutSecs))
  }

  /** The environment read as a configuration, with its defaults. */
  function FromEnv(env: Env): TenantConfig
    requires AllEnvSet(env)
  {
    TenantConfig(env["SNOWFLAKE_ACCOUNT"], env["SNOWFLAKE_USER"], env["SNOWFLAKE_PASSWORD"],
                 env["SNOWFLAKE_WAREHOUSE"], env["SNOWFLAKE_DATABASE"], env["SNOWFLAKE_SCHEMA"],
                 EnvOr(env, "SNOWFLAKE_ROLE", "PUBLIC"),
                 ParseInt(EnvOr(env, "MAX_ROWS_PER_QUERY", "1000")),
                 ParseInt(EnvOr(env, "QUERY_TIMEOUT_SECS", "60")))
  }

  /** getTenantConfig; `record` is the lookup's outcome, a failed lookup counting as no row. */
  function ResolveConfig(record: Option<Tenant>, env: Env): (r: Option<TenantConfig>)
    ensures record.Some? && record.value.isActive ==> r == Some(FromTenant(record.value))
    ensures !(record.Some? && record.value.isActive) && AllEnvSet(env) ==> r == Some(FromEnv(env))
    ensures r.None? <==> !(record.Some? && record.value.isActive) && !AllEnvSet(env)
  {
    if record.Some? && record.value.isActive then Some(FromTenant(record.value))
    else if AllEnvSet(env) then Some(FromEnv(env))
    else None
  }

  /** With none of the optional variables set, the environment fallback uses role PUBLIC, a
      1000-row cap and a 60-second timeout. */
  lemma EnvDefaults(record: Option<Tenant>, env: Env)
    requires !(record.Some? && record.value.isActive) && AllEnvSet(env)
    requires !EnvSet(env, "SNOWFLAKE_ROLE") && !EnvSet(env, "MAX_ROWS_PER_QUERY")
    requires !EnvSet(env, "QUERY_TIMEOUT_SECS")
    ensures var r := ResolveConfig(record, env);
      r.Some? && r.value.role == "PUBLIC"
      && r.value.maxRowsPerQuery == Some(1000) && r.value.queryTimeoutSecs == Some(60)
  {
    assert NatToString(1) == "1";
    assert NatToString(10) == "10";
    assert NatToString(100) == "100";
    assert NatToString(1000) == "1000";
    ParseIntOfIntToString(1000);
    assert NatToString(6) == "6";
    assert NatToString(60) == "60";
    ParseIntOfIntToString(60);
  }

  /** A row cap written in the environment as a decimal number is read back exactly. */
  lemma EnvRowCapRead(record: Option<Tenant>, env: Env, n: int)
    requires !(record.Some? && record.value.isActive) && AllEnvSet(env)
    requires "MAX_ROWS_PER_QUERY" in env && env["MAX_ROWS_PER_QUERY"] == IntToString(n)
    ensures var r := ResolveConfig(record, env); r.Some? && r.value.maxRowsPerQuery == Some(n)
  {
    ParseIntOfIntToString(n);
    assert IntToString(n) != "" by {
      if n < 0 {
      } else {
        assert |NatToString(n)| > 0;
      }
    }
  }
}
