/** The tenant administration route (app/api/tenants/route.ts): the creation schema with its
    bounds and defaults, the listing that strips secrets, and the owner-only creation gate. */
module TenantsRoute {
  import opened Common
  import opened Text
  import opened Json
  import opened Records
  import opened ApiAuth

  /** What TenantCreateSchema.parse returns: the schema's fields only, defaults filled in. */
  datatype TenantCreate = TenantCreate(
    name: string, slug: string,
    sfAccount: string, sfUser: string, sfPassword: string, sfWarehouse: string, sfDatabase: string,
    sfSchema: string, sfRole: string,
    maxRowsPerQuery: int, queryTimeoutSecs: int, dailyQueryLimit: int)

  const VALIDATION_ERROR := "Validation error"
  const FORBIDDEN := "Forbidden"

  /** `^[a-z0-9-]+$` without flags: one or more of the allowed characters, nothing else. */
  predicate SlugChar(c: char) {
    ('a' <= c <= 'z') || ('0' <= c <= '9') || c == '-'
  }

  predicate IsSlug(s: string) {
    |s| >= 1 && forall i :: 0 <= i < |s| ==> SlugChar(s[i])
  }

  /** Everything the schema demands of a parsed value. */
  predicate WellFormed(d: TenantCreate) {
    && 1 <= Utf16Length(d.name) <= 100
    && Utf16Length(d.slug) <= 50 && IsSlug(d.slug)
    && d.sfAccount != "" && d.sfUser != "" && d.sfPassword != "" && d.sfWarehouse != "" && d.sfDatabase != ""
    && 10 <= d.maxRowsPerQuery <= 10000
    && 5 <= d.queryTimeoutSecs <= 120
    && 10 <= d.dailyQueryLimit <= 10000
  }

  /** `z.string().min(lo).max(hi)` on one property; `hi` < 0 means no maximum. */
  function StringField(m: map<string, Json>, key: string, lo: nat, hi: int): Option<string> {
    if key in m && m[key].JStr? && lo <= Utf16Length(m[key].s) && (hi < 0 || Utf16Length(m[key].s) <= hi)
    then Some(m[key].s)
    else None
  }

  /** `z.string().default(fallback)`: absent takes the default, present must be a string. */
  function DefaultedString(m: map<string, Json>, key: string, fallback: string): Option<string> {
    if key !in m then Some(fallback)
    else if m[key].JStr? then Some(m[key].s)
    else None
  }

  /** `z.number().int().min(lo).max(hi).default(fallback)`. */
  function DefaultedInt(m: map<string, Json>, key: string, lo: int, hi: int, fallback: int): Option<int> {
    if key !in m then Some(fallback)
    else if m[key].JNum? && lo <= m[key].n <= hi then Some(m[key].n)
    else None
  }

  /** TenantCreateSchema.parse; an Err is the ZodError. */
  function Validate(body: Json): (r: Result<TenantCreate>)
    ensures r.Err? ==> r.error == VALIDATION_ERROR
  {
    if !body.JObj? then Err(VALIDATION_ERROR)
    else
      var m := body.fields;
      var name := StringField(m, "name", 1, 100);
      var slug := StringField(m, "slug", 1, 50);
      var account := StringField(m, "sfAccount", 1, -1);
      var user := StringField(m, "sfUser", 1, -1);
      var password := StringField(m, "sfPassword", 1, -1);
      var warehouse := StringField(m, "sfWarehouse", 1, -1);
      var database := StringField(m, "sfDatabase", 1, -1);
      var schema := DefaultedString(m, "sfSchema", "PUBLIC");
      var role := DefaultedString(m, "sfRole", "SYSADMIN");
      var rows := DefaultedInt(m, "maxRowsPerQuery", 10, 10000, 500);
      var timeout := DefaultedInt(m, "queryTimeoutSecs", 5, 120, 30);
      var daily := DefaultedInt(m, "dailyQueryLimit", 10, 10000, 200);
      if name.None? || slug.None? || !IsSlug(slug.value) || account.None? || user.None? || password.None?
         || warehouse.None? || database.None? || schema.None? || role.None?
         || rows.None? || timeout.None? || daily.None?
      then Err(VALIDATION_ERROR)
      else Ok(TenantCreate(name.value, slug.value, account.value, user.value, password.value, warehouse.value,
                           database.value, schema.value, role.value, rows.value, timeout.value, daily.value))
  }

  /** A request body carrying every field of a value. */
  function Encode(d: TenantCreate): Json {
    JObj(map[
      "name" := JStr(d.name), "slug" := JStr(d.slug),
      "sfAccount" := JStr(d.sfAccount), "sfUser" := JStr(d.sfUser), "sfPassword" := JStr(d.sfPassword),
      "sfWarehouse" := JStr(d.sfWarehouse), "sfDatabase" := JStr(d.sfDatabase),
      "sfSchema" := JStr(d.sfSchema), "sfRole" := JStr(d.sfRole),
      "maxRowsPerQuery" := JNum(d.maxRowsPerQuery), "queryTimeoutSecs" := JNum(d.queryTimeoutSecs),
      "dailyQueryLimit" := JNum(d.dailyQueryLimit)])
  }

  /** Whatever passes validation is well formed: the bounds, the slug's characters and the
      non-empty credentials hold of every parsed value. */
  lemma ValidatedIsWellFormed(body: Json)
    ensures Validate(body).Ok? ==> WellFormed(Validate(body).value)
  {
  }

  /** Every well-formed value is accepted as it is sent: the bounds are exactly the schema's. */
  lemma ValidateEncode(d: TenantCreate)
    requires WellFormed(d)
    ensures Validate(Encode(d)) == Ok(d)
  {
    EncodedFields(d);
    Utf16LengthAtLeastOne(d.sfAccount);
    Utf16LengthAtLeastOne(d.sfUser);
    Utf16LengthAtLeastOne(d.sfPassword);
    Utf16LengthAtLeastOne(d.sfWarehouse);
    Utf16LengthAtLeastOne(d.sfDatabase);
  }

  lemma EncodedFields(d: TenantCreate)
    ensures var m := Encode(d).fields;
      && "name" in m && m["name"] == JStr(d.name) && "slug" in m && m["slug"] == JStr(d.slug)
      && "sfAccount" in m && m["sfAccount"] == JStr(d.sfAccount) && "sfUser" in m && m["sfUser"] == JStr(d.sfUser)
      && "sfPassword" in m && m["sfPassword"] == JStr(d.sfPassword)
      && "sfWarehouse" in m && m["sfWarehouse"] == JStr(d.sfWarehouse)
      && "sfDatabase" in m && m["sfDatabase"] == JStr(d.sfDatabase)
      && "sfSchema" in m && m["sfSchema"] == JStr(d.sfSchema) && "sfRole" in m && m["sfRole"] == JStr(d.sfRole)
      && "maxRowsPerQuery" in m && m["maxRowsPerQuery"] == JNum(d.maxRowsPerQuery)
      && "queryTimeoutSecs" in m && m["queryTimeoutSecs"] == JNum(d.queryTimeoutSecs)
      && "dailyQueryLimit" in m && m["dailyQueryLimit"] == JNum(d.dailyQueryLimit)
  {
  }

  lemma Utf16LengthAtLeastOne(s: string)
    requires s != ""
    ensures 1 <= Utf16Length(s)
  {
  }

  /** Leaving out the optional fields gives schema PUBLIC, role SYSADMIN, 500 rows, 30 seconds
      and 200 queries a day. */
  lemma DefaultsApply(body: Json)
    requires body.JObj?
    requires "sfSchema" !in body.fields && "sfRole" !in body.fields
    requires "maxRowsPerQuery" !in body.fields && "queryTimeoutSecs" !in body.fields
    requires "dailyQueryLimit" !in body.fields
    ensures var r := Validate(body);
      r.Ok? ==> (r.value.sfSchema == "PUBLIC" && r.value.sfRole == "SYSADMIN" && r.value.maxRowsPerQuery == 500
                 && r.value.queryTimeoutSecs == 30 && r.value.dailyQueryLimit == 200)
  {
  }

  /** A row limit outside 10..10000 is refused, whatever else the body holds. */
  lemma RowLimitOutOfRange(body: Json, n: int)
    requires body.JObj? && "maxRowsPerQuery" in body.fields && body.fields["maxRowsPerQuery"] == JNum(n)
    requires n < 10 || n > 10000
    ensures Validate(body) == Err(VALIDATION_ERROR)
  {
  }

  // ---------------------------------------------------------------- listing

  /** A listed tenant: the row without `sfPassword` and `schemaCache`, with the relation counts
      and `hasSchemaCache`. */
  datatype SafeTenant = SafeTenant(
    id: string, name: string, slug: string,
    sfAccount: string, sfUser: string, sfWarehouse: string,
    sfDatabase: string, sfSchema: string, sfRole: string,
    maxRowsPerQuery: int, queryTimeoutSecs: int, dailyQueryLimit: int,
    isActive: bool, schemaCachedAt: Option<int>,
    userCount: nat, queryLogCount: nat, hasSchemaCache: bool)

  /** A row of findMany with its `_count`. */
  datatype TenantRow = TenantRow(tenant: Tenant, userCount: nat, queryLogCount: nat)

  function Redact(r: TenantRow): SafeTenant {
    var t := r.tenant;
    SafeTenant(t.id, t.name, t.slug, t.sfAccount, t.sfUser, t.sfWarehouse, t.sfDatabase, t.sfSchema, t.sfRole,
               t.maxRowsPerQuery, t.queryTimeoutSecs, t.dailyQueryLimit, t.isActive, t.schemaCachedAt,
               r.userCount, r.queryLogCount, !t.schemaCache.NoCache?)
  }

  /** The two stripped fields put back. */
  function Restore(s: SafeTenant, password: string, cache: SchemaCache): TenantRow {
    TenantRow(Tenant(s.id, s.name, s.slug, s.sfAccount, s.sfUser, password, s.sfWarehouse, s.sfDatabase,
                     s.sfSchema, s.sfRole, s.maxRowsPerQuery, s.queryTimeoutSecs, s.dailyQueryLimit, s.isActive,
                     cache, s.schemaCachedAt),
              s.userCount, s.queryLogCount)
  }

  /** Redaction removes exactly the password and the cache: putting them back restores the
      row, and `hasSchemaCache` says whether there was a cache. */
  lemma RedactRemovesOnlySecrets(r: TenantRow)
    ensures Restore(Redact(r), r.tenant.sfPassword, r.tenant.schemaCache) == r
    ensures Redact(r).hasSchemaCache <==> r.tenant.schemaCache != NoCache
  {
  }

  /** Two rows that differ only in password or cache are listed identically. */
  lemma RedactForgetsSecrets(r: TenantRow, password: string, cache: SchemaCache)
    requires (cache == NoCache) == (r.tenant.schemaCache == NoCache)
    ensures Redact(r.(tenant := r.tenant.(sfPassword := password, schemaCache := cache))) == Redact(r)
  {
  }

  datatype ListResponse = Listing(tenants: seq<SafeTenant>) | ListRefused(status: int, error: string)

  /** GET: only a signed-in OWNER sees the list, each row redacted, in the store's order. */
  function GetTenants(session: Option<SessionUser>, rows: seq<TenantRow>): (r: ListResponse)
    ensures r.ListRefused? <==> session.None? || session.value.role != Owner
    ensures r.ListRefused? ==> r == ListRefused(403, FORBIDDEN)
    ensures r.Listing? ==>
      |r.tenants| == |rows| && forall i :: 0 <= i < |rows| ==> r.tenants[i] == Redact(rows[i])
  {
    if session.None? || session.value.role != Owner then ListRefused(403, FORBIDDEN)
    else Listing(seq(|rows|, i requires 0 <= i < |rows| => Redact(rows[i])))
  }

  // ---------------------------------------------------------------- creation

  datatype CreateResponse =
    | CreatedTenant(id: string, name: string, slug: string)
    | CreateRefused(status: int, error: string)

  /** POST: the OWNER gate before the body is read, then the body (`body` is what req.json
      resolves or throws), validation, and the insert (`created` is the new row's id or the
      store's error). */
  function PostTenant(session: Option<SessionUser>, body: Result<Json>, created: Result<string>): (r: CreateResponse)
    ensures session.None? || session.value.role != Owner ==> r == CreateRefused(403, FORBIDDEN)
    ensures r.CreatedTenant? ==>
      body.Ok? && Validate(body.value).Ok? && created.Ok?
      && r == CreatedTenant(created.value, Validate(body.value).value.name, Validate(body.value).value.slug)
      && WellFormed(Validate(body.value).value)
    ensures session.Some? && session.value.role == Owner && body.Err? ==> r == CreateRefused(500, body.error)
    ensures session.Some? && session.value.role == Owner && body.Ok? && Validate(body.value).Err? ==>
      r == CreateRefused(400, VALIDATION_ERROR)
    ensures session.Some? && session.value.role == Owner && body.Ok? && Validate(body.value).Ok? ==>
      r == if created.Err? then CreateRefused(500, created.error)
           else CreatedTenant(created.value, Validate(body.value).value.name, Validate(body.value).value.slug)
  {
    if session.None? || session.value.role != Owner then CreateRefused(403, FORBIDDEN)
    else if body.Err? then CreateRefused(500, body.error)
    else
      var data := Validate(body.value);
      ValidatedIsWellFormed(body.value);
      if data.Err? then CreateRefused(400, VALIDATION_ERROR)
      else if created.Err? then CreateRefused(500, created.error)
      else CreatedTenant(created.value, data.value.name, data.value.slug)
  }
}
