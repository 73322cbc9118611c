# snowquery query pipeline, modelled in Dafny

snowquery answers a plain-language question about a tenant's Snowflake warehouse. A route
receives the question and checks the caller's daily quota. A translator builds a system prompt
from the tenant's schema and its curated metadata, asks a language model for a JSON answer,
and extracts and validates that answer, retrying once. A read-only filter then vets the
generated statement. It runs on a pooled per-tenant connection, and the rows come back
capped, serialised and wrapped in a JSON envelope. Around this core sit:

- role-based authorisation (`requireAuth`) and the page middleware;
- tenant administration (create and list, with the secrets redacted);
- CRUD over the curated metadata (tables, columns, business glossary).

Both generations of the code are modelled. The current files are `lib/…` and `app/…`. The
older files are under `reference-files/…`. A `…Reference` member models the older version,
and a lemma relates the two.

The model has one module per component:

| module | file | models |
|---|---|---|
| `Common` | common.dfy | `Option` (null/undefined) and `Result` (a value or a thrown message); small lemmas about slicing and concatenating sequences |
| `Text` | text.dfy | the JavaScript string operations used: `trim`, `toUpperCase`, `split`/`join`, `indexOf`, `replace`, `slice`, UTF-16 `length`, `String(n)` and `parseInt` |
| `Json` | json.dfy | JSON values, truthiness, property access, template-literal text |
| `Records` | records.dfy | tenant row, schema snapshot, environment |
| `TenantConfigs` | config.dfy | `getTenantConfig` |
| `SqlGuard` | sql_guard.dfy | the SELECT/WITH prefix rule and the forbidden-keyword loop |
| `Results` | results.dfy | row cap, truncation flag, cell serialisation |
| `Warehouse` | warehouse.dfy | the connection pool (`class ConnectionPool`) and `executeQuery`, both versions |
| `SchemaCatalog` | schema.dfy | `refreshSchemaCache` and `getSchemaContext`, both versions |
| `SchemaPrompt` | schema_prompt.dfy | `formatSchemaForPrompt` |
| `Extraction` | extract.dfy | `extractJson`, and the older single-shot parse |
| `EnrichedContext` | context.dfy | `buildEnrichedContext`, both versions |
| `Prompts` | prompts.dfy | both system prompts and the placeholder replacement |
| `Translator` | translator.dfy | history replay, the two-attempt retry loop, the translators of both versions |
| `QueryRoute` | query_route.dfy | POST `/api/query`, both versions, against the query log (`class QueryLog`) |
| `TenantsRoute` | tenants_route.dfy | GET/POST `/api/tenants` |
| `MetadataRoute` | metadata_route.dfy | GET/POST `/api/metadata` against the metadata store (`class MetadataDb`) |
| `ApiAuth` | auth.dfy | `requireAuth` |
| `PageGate` | middleware.dfy | the page middleware |

Some collaborators cannot be seen or are not deterministic. Each becomes a parameter of the
operation that uses it:

- the language model's replies (`reply`);
- `JSON.parse` (`parse`);
- `toISOString` and `toLocaleString` (`iso`, `fmt`);
- a connection's liveness (`isUp`);
- the outcomes of connecting, of running a statement and of each store read and write;
- the clock (`now`, elapsed time);
- the process environment (`env`).

Some behaviours of the code are easy to misread:

- `DROP TABLE T` is rejected by the prefix rule ("Only SELECT queries are allowed."). The
  keyword loop never sees it.
- The history window is `slice(-6)`, i.e. the last six entries, whatever their roles.
- The schema cache is the tenant row's `schemaCache` column. `getSchemaContext` treats it as
  stale after one hour; the context builder uses it whatever its age.
- `extractJson` is called outside any `try`. When it throws, the translator throws too, and
  the retry does not run.

## Model

| member | source | states |
|---|---|---|
| ApiAuth.Rank | reference-files/lib/api-auth.ts:9-14 | each role's rank lies in 1..4 |
| ApiAuth.RankStrict | reference-files/lib/api-auth.ts:9-14 | OWNER > ADMIN > ANALYST > VIEWER, and two roles share a rank only if they are the same role |
| ApiAuth.RequireAuth | reference-files/lib/api-auth.ts:20-53 | no session is 401 "Unauthorized"; a lower rank is 403 "Forbidden"; no tenant is 403 with the no-tenant message; authorised exactly when all three checks pass, with the session user and their tenant |
| ApiAuth.AuthorizedForLowerRoles | reference-files/lib/api-auth.ts:30-36 | passing for a role means passing for every lower role, with the same user and tenant |
| ApiAuth.OwnerAndDefault | reference-files/lib/api-auth.ts:20 | an OWNER with a tenant passes every minimum; the default minimum (VIEWER) lets through any user with a tenant |
| PageGate.Gate | reference-files/middleware.ts:5-34 | public paths and assets pass; any other path without a user redirects to /login with the callback; /admin for a non-OWNER redirects to /query; everything else passes |
| PageGate.IsPublic | reference-files/middleware.ts:9-19 | the public test: "/" and "/login", the five path prefixes, and the asset suffixes; its properties are those of `PublicPrefixesArePlain` and `AssetsPassBeforeAuth` |
| PageGate.PublicPrefixesArePlain | reference-files/middleware.ts:12-15 | every path extending a public prefix is public, e.g. /api/authors |
| PageGate.AssetsPassBeforeAuth | reference-files/middleware.ts:16-18 | an asset path under /admin passes with no user |
| PageGate.AdminNeedsOwner | reference-files/middleware.ts:29-31 | a non-OWNER is redirected from every non-asset /admin page; an OWNER passes |
| Records.EnvOr | lib/snowflake.ts:80-82 | `env[key] \|\| fallback`: the variable when it is set and non-empty, else the fallback |
| TenantConfigs.ResolveConfig | lib/snowflake.ts:57-87 | an active tenant row is the configuration; otherwise the environment when all six variables are set; otherwise none, in exactly that case |
| TenantConfigs.EnvDefaults | lib/snowflake.ts:80-82 | with the optional variables unset: role PUBLIC, 1000 rows, 60 seconds |
| TenantConfigs.EnvRowCapRead | lib/snowflake.ts:81 | a row cap written in decimal in the environment is read back exactly |
| Text.TrimStart | lib/snowflake.ts:100 | the result is a suffix of the text, starts with non-whitespace, and only whitespace was dropped |
| Text.TrimEnd | lib/snowflake.ts:100 | the result is a prefix of the text, ends with non-whitespace, and only whitespace was dropped |
| Text.TrimEmptyIff | lib/claude-enhanced.ts:23 | a text trims to "" exactly when it is all whitespace |
| Text.TrimEndKeeps | lib/claude-enhanced.ts:31 | trimming keeps every position up to the last non-whitespace character |
| Text.TrimKeepsPrefix | lib/snowflake.ts:100 | a leading non-whitespace word survives trimming |
| Text.ToUpper | lib/snowflake.ts:100 | never shorter than the text: every character becomes its upper case, which is one or more characters |
| Text.ToUpperAppend | lib/snowflake.ts:100 | upper-casing works character by character: the upper case of a concatenation is the concatenation of the upper cases |
| Text.ToUpperAscii | lib/snowflake.ts:100 | on ASCII text upper-casing keeps the length and maps a–z to A–Z, leaving every other character |
| Text.UpperTrimStartsWith | lib/snowflake.ts:100-101 | a text that begins with a word upper-casing to SELECT still starts with SELECT after trim and upper-case |
| Text.IndexOf | lib/claude-enhanced.ts:38-41 | -1 exactly when the character is absent, otherwise the position of its first occurrence |
| Text.LastIndexOf | lib/claude-enhanced.ts:38-41 | -1 exactly when the character is absent, otherwise the position of its last occurrence |
| Text.FindFrom | lib/claude.ts:109-113 | the first position at or after `from` where the pattern occurs, or -1 when there is none |
| Text.ReplaceFirst | lib/claude.ts:109-113 | an absent pattern leaves the text unchanged; otherwise only its first occurrence is replaced |
| Text.Take | lib/claude.ts:140 | `slice(0, n)` in UTF-16 code units: a prefix of the text within n code units, and the longest one, since one more character would exceed n |
| Text.TakeBmp | lib/claude.ts:140 | on text without characters beyond U+FFFF, `slice(0, n)` keeps min(n, length) characters |
| Text.Split | lib/claude-enhanced.ts:29 | at least one part, and no part contains the separator |
| Text.JoinSplit | lib/claude-enhanced.ts:29-34 | joining the parts of a split with the separator gives the text back |
| Text.SplitJoin | lib/claude-enhanced.ts:29-34 | splitting a join of separator-free parts gives the parts back |
| Text.SplitCons | lib/claude-enhanced.ts:29-30 | the first part is the text before the first separator |
| Text.SplitSingleIff | lib/claude-enhanced.ts:29-30 | one part exactly when the text has no separator |
| Text.SplitNoSeparator | lib/claude-enhanced.ts:29-30 | a separator-free text splits into itself |
| Text.Utf16Length | app/api/query/route.ts:19 | the UTF-16 length is between one and two code units per character |
| Text.Utf16LengthAppend | app/api/query/route.ts:19 | the UTF-16 length of a concatenation is the sum of the lengths |
| Text.NatToString | lib/claude.ts:113 | `String(n)` is a non-empty run of decimal digits |
| Text.DecimalValueOfNatToString | lib/claude.ts:113 | the digits of `String(n)` read back as n |
| Text.DigitRun | lib/snowflake.ts:81-82 | the longest prefix of digits: all digits, followed by a non-digit or the end |
| Text.RunValueDecimal | lib/snowflake.ts:81-82 | the decimal run's value agrees with the decimal reading |
| Text.ParseIntOfIntToString | lib/snowflake.ts:81-82 | `parseInt(String(n)) == n` for every integer n |
| Text.DigitRunAll | lib/snowflake.ts:81-82 | an all-digit text is one whole run |
| Json.OrNull | lib/claude-enhanced.ts:54-57 | `v \|\| null`: the value when it is truthy, otherwise null |
| Json.Get | lib/claude-enhanced.ts:325-341 | reading a property throws exactly on null; on an object it is that property or undefined |
| SqlGuard.WordFromIff | lib/snowflake.ts:110-111 | the regex search succeeds exactly when the keyword occurs as a whole word at or after the position |
| SqlGuard.FirstWord | lib/snowflake.ts:109-114 | the keyword returned is the earliest one in list order that occurs; none when none occurs |
| SqlGuard.FindForbiddenKeyword | lib/snowflake.ts:105-114 | the loop, trying the keywords in list order, returns exactly the first that occurs as a whole word (`FirstWord`); the filter runs it on the eleven keywords |
| SqlGuard.Validate | lib/snowflake.ts:99-114 | the filter as run (prefix test, then the loop) gives the specified verdict |
| SqlGuard.Check | lib/snowflake.ts:99-114 | the filter's verdict: the prefix message, or the first keyword found, or allowed; characterised by `CheckAllowedIff` and `CheckNamesFirstKeyword` |
| SqlGuard.CheckAllowedIff | lib/snowflake.ts:99-114 | allowed exactly when the prefix rule passes and no keyword occurs as a whole word |
| SqlGuard.FirstWordIsFirst | lib/snowflake.ts:109-114 | no earlier keyword in list order occurs than the one named |
| SqlGuard.CheckNamesFirstKeyword | lib/snowflake.ts:109-114 | past the prefix rule, the message names the first keyword in list order that occurs |
| SqlGuard.KeywordBetweenSeparatorsFound | lib/snowflake.ts:110-111 | a keyword in any ASCII case between non-word characters is found |
| SqlGuard.InjectedKeywordRejected | lib/snowflake.ts:105-114 | a statement passing the prefix rule but holding a separated keyword is rejected |
| SqlGuard.GluedKeywordNotMatched | lib/snowflake.ts:110 | a keyword glued to a word character, e.g. CREATED_AT, does not match there |
| SqlGuard.PlainPrefixPasses | lib/snowflake.ts:100-101 | any text starting with WITH passes the prefix test, e.g. WITHDRAW |
| SqlGuard.SpecialCasingSelectPasses | lib/snowflake.ts:100-101 | "selec" followed by U+1E97 passes the prefix rule: that character upper-cases to T and a combining diaeresis |
| SqlGuard.SpecialCasingWithPasses | lib/snowflake.ts:100-101 | "wit" followed by U+1E96 passes the prefix rule: that character upper-cases to H and a combining line below |
| SqlGuard.SpecialCasingHead | lib/snowflake.ts:100-101 | an ASCII head ending in a character whose upper case begins with the keyword's last letter passes the prefix test for that keyword |
| SqlGuard.LeadingDropFailsPrefixRule | lib/snowflake.ts:100-103 | a statement starting with DROP fails with the prefix message, not the keyword message |
| Results.Hex | lib/snowflake.ts:137 | two hexadecimal digits per byte |
| Results.FromHexOfHex | lib/snowflake.ts:137 | the hex text gives the bytes back: no two byte strings serialise alike |
| Results.SerializeCellSpec | lib/snowflake.ts:135-138 | every converted cell is JSON-safe; only dates and buffers change; a buffer's bytes can be recovered |
| Results.BuildRecord | lib/snowflake.ts:132-140 | the loop's record maps each column name to its converted cell |
| Results.BuildRecords | lib/snowflake.ts:132-141 | one record per kept row, in order |
| Results.SliceEnd | lib/snowflake.ts:128 | the end of `slice(0, cap)` never passes the row count |
| Results.ShapeResult | lib/snowflake.ts:127-148 | the shaping loop produces the specified result |
| Results.Shape | lib/snowflake.ts:127-148 | the shaped result: the capped rows as records, the row count, the truncation flag and the columns; characterised by `ShapeWithCap` and `OddCaps` |
| Results.ShapeWithCap | lib/snowflake.ts:127-148 | with a cap ≥ 0: the first min(n, cap) rows as records; row count = records; truncated exactly when n ≥ cap; columns default to [] |
| Results.ExactlyCapRowsReportsTruncated | lib/snowflake.ts:129 | exactly `cap` rows are all returned and still reported as truncated |
| Results.OddCaps | lib/snowflake.ts:128-129 | a NaN cap returns nothing and never reports truncation; a negative cap drops rows from the end and always reports it |
| Warehouse.ConnectSpec | lib/snowflake.ts:25-52 | a live pooled connection is reused and the pool is unchanged; otherwise a successful connect is pooled and a failed one leaves the pool as it was; no other tenant's entry changes |
| Warehouse.Connect | lib/snowflake.ts:25-52 | getConnection on the pool; characterised by `ConnectSpec` |
| Warehouse.DestroySpec | lib/snowflake.ts:290-296 | the tenant's entry is removed and nothing else; with no entry nothing changes |
| Warehouse.RefusedBeforePool | lib/snowflake.ts:96-114 | a missing configuration, a non-string statement or a filtered statement throws with its message, and the pool is untouched |
| Warehouse.RunStatement | lib/snowflake.ts:99-153 | the type check, the filter, the connection and the statement, in that order; characterised by `RefusedBeforePool` and the two `AllowedStatement` lemmas |
| Warehouse.Execute | lib/snowflake.ts:92-154 | the configuration, then `RunStatement`; characterised by `RefusedBeforePool` and the two `AllowedStatement` lemmas |
| Warehouse.AllowedStatementPool | lib/snowflake.ts:116-120 | an allowed statement with a configuration reaches the pool: a live pooled connection is reused and the pool is unchanged; a fresh connection is pooled; a failed connect leaves the pool as it was |
| Warehouse.AllowedStatementResult | lib/snowflake.ts:116-148 | the result is the connect error, or the driver's error as "Query error: …", or the shaped rows under the configured cap |
| Warehouse.ReferenceTenantChecks | reference-files/lib/snowflake.ts:57-63 | the older version throws a failed tenant lookup as it is, then refuses a missing or inactive tenant, all before the statement and the pool; for an active tenant both versions agree |
| Warehouse.ExecuteReference | reference-files/lib/snowflake.ts:57-120 | the older executeQuery: a failed tenant lookup is thrown as it is, and the tenant row must exist and be active; characterised by `ReferenceTenantChecks` |
| Warehouse.ConnectionPool.constructor | lib/snowflake.ts:8 | the pool starts empty |
| Warehouse.ConnectionPool.GetConnection | lib/snowflake.ts:25-52 | the pool field becomes exactly what `Connect` gives, and the result is the handed-out connection |
| Warehouse.ConnectionPool.DestroyConnection | lib/snowflake.ts:290-296 | the pool field becomes `Destroy` of the old pool |
| Warehouse.ConnectionPool.Run | lib/snowflake.ts:99-153 | the result and new pool are those of `RunStatement` |
| Warehouse.ConnectionPool.ExecuteQuery | lib/snowflake.ts:92-154 | the result and new pool are those of `Execute` |
| Warehouse.ConnectionPool.ExecuteQueryReference | reference-files/lib/snowflake.ts:57-120 | the result and new pool are those of `ExecuteReference` |
| SchemaCatalog.FirstFailure | lib/snowflake.ts:183-199 | the index of the first table whose column query fails, or the table count |
| SchemaCatalog.FirstFailureAt | lib/snowflake.ts:183-199 | every column query before the first failure succeeds, and the one at it fails |
| SchemaCatalog.IntrospectTables | lib/snowflake.ts:181-223 | the loop yields `Introspect`: the first failure's error, or one record per table |
| SchemaCatalog.IntrospectSpec | lib/snowflake.ts:183-223 | succeeds exactly when every column query does; then one record per table in order, with its columns, comment `\|\| ""` and a count of 0 when the count query fails |
| SchemaCatalog.Introspect | lib/snowflake.ts:181-223 | the introspection: the first failing column query's error, or one record per table; characterised by `IntrospectSpec` |
| SchemaCatalog.Refresh | lib/snowflake.ts:159-237 | refreshSchemaCache: the configuration, the introspection, then the swallowed cache write; characterised by `RefreshWriteSwallowed` |
| SchemaCatalog.GetSchemaContext | lib/snowflake.ts:242-261 | getSchemaContext: no row refreshes, a fresh cache is reused; characterised by `NoRowAlwaysRefreshes`, `RefreshThenReuse` and `StaleAfterOneHour` |
| SchemaCatalog.RefreshWriteSwallowed | lib/snowflake.ts:225-236 | a failed cache write still returns the tables; only the stored row differs; a missing row is never written |
| SchemaCatalog.NoRowAlwaysRefreshes | lib/snowflake.ts:245-248 | without a tenant row every call re-introspects |
| SchemaCatalog.RefreshThenReuse | lib/snowflake.ts:250-260 | a successfully stored refresh is reused unchanged for one hour, the boundary included |
| SchemaCatalog.StaleAfterOneHour | lib/snowflake.ts:250-254 | one millisecond past the hour the cache is stale |
| SchemaCatalog.ReferenceDifferences | reference-files/lib/snowflake.ts:125-220 | in the older version a failed tenant lookup is thrown as it is with the pool unchanged, a missing row is an error and a failed cache write fails the refresh; otherwise it agrees for an active row |
| SchemaPrompt.PushTableLines | lib/snowflake.ts:274-281 | the lines pushed for one table are its specified block |
| SchemaPrompt.FormatSchemaForPrompt | lib/snowflake.ts:266-285 | the text is the header lines and every table's block, joined with newlines |
| SchemaPrompt.TableLinesShape | lib/snowflake.ts:274-281 | heading; a description exactly when the comment is non-empty; one line per column; a closing blank line |
| SchemaPrompt.ColumnLineShape | lib/snowflake.ts:277-279 | a " -- comment" tail exactly when the comment is non-empty; NULL or NOT NULL by the column |
| SchemaPrompt.AllTableLinesAppend | lib/snowflake.ts:273-282 | appending tables appends exactly their lines, in order |
| Extraction.NormalizeSpec | lib/claude-enhanced.ts:43-64 | accepted exactly when the parse is an object with `sql` or `error` and with `explanation` and `assumptions`; fields become `x \|\| null`; non-array assumptions become [] |
| Extraction.Normalize | lib/claude-enhanced.ts:43-64 | the structural test and the `\|\| null` normalisation of a parse; characterised by `NormalizeSpec` |
| Extraction.ExtractJsonAsWritten | lib/claude-enhanced.ts:22-65 | extractJson as written, with its TypeError on a fenced one-liner; characterised by `ExtractAgreement` and `FencedOneLinerThrows` |
| Extraction.ExtractJson | lib/claude-enhanced.ts:22-65 | extractJson with the missing length check added; characterised by `ExtractAgreement` |
| Extraction.BraceSpan | lib/claude-enhanced.ts:38-41 | from the first '{' to the last '}' when a '}' follows the first '{', otherwise the whole text |
| Extraction.GreedyBraceSpan | lib/claude-enhanced.ts:38-41 | the match runs to the last '}', whatever braces lie between |
| Extraction.NoBraceKeptWhole | lib/claude-enhanced.ts:38-41 | text without '{' is parsed as it is |
| Extraction.StripFenceAgreement | lib/claude-enhanced.ts:28-35 | the two fence removals differ exactly when the fenced text has no newline |
| Extraction.ExtractAgreement | lib/claude-enhanced.ts:22-65 | as written and corrected agree on every reply except a fenced one-liner, where the as-written version throws and the corrected one gives null |
| Extraction.FencedOneLinerThrows | lib/claude-enhanced.ts:28-31 | a fenced reply with no newline throws a TypeError instead of returning null |
| Extraction.BlankReplyIsNull | lib/claude-enhanced.ts:23 | a blank reply is null |
| Extraction.LinesAfterFirst | lib/claude-enhanced.ts:29-30 | the lines after a newline-free first line rejoin to the rest of the text |
| Extraction.FenceUnwrapped | lib/claude-enhanced.ts:28-35 | a fenced reply loses its opening line and a closing ``` line; the body in between is joined and trimmed |
| Extraction.StripTrailingFence | reference-files/lib/claude.ts:74 | a trailing ``` with only whitespace after it is removed; other text is unchanged |
| Extraction.ReferenceKeepsSecondLine | reference-files/lib/claude.ts:72-75 | the older rule keeps only the second line of a fenced reply |
| Extraction.ReferenceParse | reference-files/lib/claude.ts:70-84 | the parse, unchecked; or, when the parse fails, the failure object quoting `slice(0, 300)` of the reply (see `Text.Take`) |
| EnrichedContext.LastTableIndex | lib/claude-enhanced.ts:95-102 | `Map.get` after sequential `set`: the last row with that table name, or -1 when there is none |
| EnrichedContext.LastColumnIndex | lib/claude-enhanced.ts:97-100 | the same for a table's columns |
| EnrichedContext.PushTerm | lib/claude-enhanced.ts:120-129 | the lines pushed for one glossary term are its specified lines |
| EnrichedContext.PushGlossary | lib/claude-enhanced.ts:115-131 | the glossary loop gives the specified section |
| EnrichedContext.PushRows | lib/claude-enhanced.ts:193-221 | the column loop gives one specified row per column |
| EnrichedContext.PushExamples | lib/claude-enhanced.ts:223-236 | the example loop gives the specified lines |
| EnrichedContext.PushTables | lib/claude-enhanced.ts:137-239 | the table loop gives every table's block in schema order |
| EnrichedContext.AssembleContext | lib/claude-enhanced.ts:104-241 | the assembled text is the specified lines joined with newlines |
| EnrichedContext.GlossaryOnlyWithTerms | lib/claude-enhanced.ts:115-118 | the glossary section is present exactly when there are terms, and then it opens with its heading |
| EnrichedContext.ColumnDescriptionSpec | lib/claude-enhanced.ts:197-201 | FK prefix, PK prefix, curated description or raw comment, unit, computed logic, in that order |
| EnrichedContext.ColumnDescription | lib/claude-enhanced.ts:197-201 | the description cell of a column row; characterised by `ColumnDescriptionSpec` and `ForeignKeyLeads` |
| EnrichedContext.ForeignKeyLeads | lib/claude-enhanced.ts:200-201 | an FK mark comes before any PK mark; a column without metadata shows its raw comment alone |
| EnrichedContext.ValueMappingFirst | lib/claude-enhanced.ts:208-216 | a set `valueMapping` decides the sample cell even when it does not parse |
| EnrichedContext.MalformedTableOverlayOmitted | lib/claude-enhanced.ts:165-186 | a table field holding unparsable JSON drops only its own lines |
| EnrichedContext.MalformedColumnOverlayOmitted | lib/claude-enhanced.ts:203-216 | unparsable synonyms or samples leave only their own cell empty |
| EnrichedContext.MalformedTermOverlayOmitted | lib/claude-enhanced.ts:123-128 | unparsable related tables drop only the Tables line |
| EnrichedContext.HeadingNames | lib/claude-enhanced.ts:138-142 | the heading shows the curated display name, or the raw name, followed by the raw name |
| EnrichedContext.DescriptionPrecedence | lib/claude-enhanced.ts:145-149 | the curated description beats the raw comment; with neither there is no line |
| EnrichedContext.OneRowPerColumn | lib/claude-enhanced.ts:193-221 | exactly one row per raw column, in order, each naming its column first |
| EnrichedContext.RowsInBlock | lib/claude-enhanced.ts:188-221 | the rows follow the heading, the optional lines and the three table-opening lines |
| EnrichedContext.CacheUsedRegardlessOfAge | lib/claude-enhanced.ts:76-77 | a present cache is used however old |
| EnrichedContext.NoCacheUsesFetched | lib/claude-enhanced.ts:78-82 | without a row or a cache, getSchemaContext's tables are used and its errors propagate |
| EnrichedContext.SchemaFallback | lib/claude-enhanced.ts:105-106 | database and schema fall back to the environment (first comma-separated schema), then to DEV_DB and PUBLIC |
| EnrichedContext.BuildEnrichedContext | lib/claude-enhanced.ts:71-242 | buildEnrichedContext: the schema source, the curated rows, and the assembled text; characterised by `AssembleContext`, `CacheUsedRegardlessOfAge` and `NoCacheUsesFetched` |
| EnrichedContext.BuildEnrichedContextReference | reference-files/lib/claude-enhanced.ts:22-184 | the older builder, whose tenant lookup is not guarded; characterised by `ReferenceAgreesOnCachedTenant` and `ReferenceWithoutCacheHasNoTables` |
| EnrichedContext.ReferenceAgreesOnCachedTenant | reference-files/lib/claude-enhanced.ts:22-184 | a failed tenant lookup is thrown as it is and a missing row is "Tenant not found"; with a row and a parsed cache, the older builder produces the same text as the current one |
| EnrichedContext.ReferenceWithoutCacheHasNoTables | reference-files/lib/claude-enhanced.ts:22-184 | without a cache the older builder lists no tables |
| Prompts.NumberText | lib/claude-enhanced.ts:263 | `${n}` (decimal text, or NaN) never holds a '{', so it cannot form a placeholder |
| Prompts.EnhancedPromptEmbeds | lib/claude-enhanced.ts:247-294 | the prompt starts with the introduction, which is followed verbatim by the context and, after the rules heading, by `database.schemaName` and the qualifier tail |
| Prompts.EnhancedSystemPrompt | lib/claude-enhanced.ts:247-294 | the current system prompt; characterised by `EnhancedPromptEmbeds` and `BodyLayout` |
| Prompts.EnhancedSystemPromptReference | reference-files/lib/claude-enhanced.ts:189-231 | the older system prompt; characterised by `EnhancedVersionsShareBody` |
| Prompts.EnhancedVersionsShareBody | lib/claude-enhanced.ts:247-294 | the current and the older prompt share everything up to the format section: both start with the same body |
| Prompts.BodyLayout | lib/claude-enhanced.ts:253-263 | the positions of the introduction, the context and the qualified name in the prompt |
| Prompts.PromptMaxRowsFallback | lib/claude-enhanced.ts:311 | a tenant cap of 0 falls back like a missing tenant; with nothing set the limit is 1000 |
| Prompts.PromptMaxRows | lib/claude-enhanced.ts:311 | the row limit given to the prompt; characterised by `PromptMaxRowsFallback` |
| Prompts.ReplaceAfterBraceFree | lib/claude.ts:109-113 | a '{'-led pattern after a brace-free part is replaced exactly there |
| Prompts.FillPieces | lib/claude.ts:109-113 | filling brace-free texts puts each where its placeholder stood |
| Prompts.IntroBraceFree | lib/claude.ts:66-100 | the template's introduction has no '{' |
| Prompts.RulesHeadBraceFree | lib/claude.ts:66-100 | the rules text before the qualifier has no '{' |
| Prompts.QualifierTailBraceFree | lib/claude.ts:66-100 | the text between the qualifier and the row limit has no '{' |
| Prompts.FillTemplateSpec | lib/claude.ts:109-113 | with brace-free inputs, each placeholder in the rules is replaced; later repeats, such as those in the example line, remain |
| Prompts.FillTemplate | lib/claude.ts:109-113 | the template with the four placeholders replaced, first occurrence each; characterised by `FillTemplateSpec` and `Captured` |
| Prompts.PlaceholderInContextCaptured | lib/claude.ts:109-113 | a `{database}` inside the schema text is replaced there instead, and the rule keeps its literal placeholder |
| Prompts.Captured | lib/claude.ts:109-113 | after the schema text holding `{database}` is put in, the database replacement lands inside it and the qualifier keeps its placeholder |
| Translator.Window | lib/claude-enhanced.ts:324 | `slice(-6)`: at most six entries, the last ones |
| Translator.BuildMessages | lib/claude-enhanced.ts:321-351 | the loop gives each windowed entry's message, then the question |
| Translator.HistoryMessagesAppend | lib/claude-enhanced.ts:324-348 | replaying a concatenation replays each part in turn |
| Translator.HistoryMessagesBound | lib/claude-enhanced.ts:324-348 | each entry gives at most one message |
| Translator.MessagesShape | lib/claude-enhanced.ts:321-351 | the question is last, after at most six replayed turns; older entries never reach the model |
| Translator.EntryMessagesSpec | lib/claude-enhanced.ts:325-347 | a user text is copied exactly when non-empty; an assistant's error wins over its SQL; neither gives nothing |
| Translator.EntryMessages | lib/claude-enhanced.ts:325-347 | the message one history entry contributes; characterised by `EntryMessagesSpec` |
| Translator.SqlSummaryShape | lib/claude-enhanced.ts:334-341 | starts with the SQL and ends with the row note when the count is defined |
| Translator.RowsNotePlural | lib/claude-enhanced.ts:340 | "row" exactly when the count is one, otherwise "rows" |
| Translator.RetryLoop | lib/claude-enhanced.ts:353-384 | the loop's result and requests are those of `RetrySpec` |
| Translator.Settle | lib/claude-enhanced.ts:366-380 | an attempt's outcome: the extraction's exception, its translation, or, when nothing is extracted, the give-up object on the last attempt and another try before it |
| Translator.RetrySpec | lib/claude-enhanced.ts:353-384 | the two-attempt run: its result and requests; characterised by `RetryRequests`, `RetryReturnsFirstExtracted`, `RetryGivesUp` and `RetryExceptionsPropagate` |
| Translator.RetryRequests | lib/claude-enhanced.ts:356-365 | at most two requests, at temperature 0, with the same messages; the second carries the notice and goes out exactly when the first call returned and its reply extracted to null |
| Translator.RetryReturnsFirstExtracted | lib/claude-enhanced.ts:366-370 | the first reply that extracts to a translation is returned |
| Translator.RetryGivesUp | lib/claude-enhanced.ts:372-380 | two replies that extract to null give no SQL, no explanation and no assumptions, and an error quoting `slice(0, 500)` of the last reply: the longest prefix within 500 UTF-16 code units |
| Translator.GiveUp | lib/claude-enhanced.ts:372-380 | the give-up object; characterised by `RetryGivesUp` |
| Translator.RetryExceptionsPropagate | lib/claude-enhanced.ts:359-367 | a failed call or a throwing extraction is not retried: its error ends the run; every error of a run is one of these |
| Translator.FencedReplyEndsRun | lib/claude-enhanced.ts:366-367 | a first reply of a fence and a one-line body ends the run with the TypeError after one request; the corrected extraction would ask a second time |
| Translator.RetryExtractorsAgree | lib/claude-enhanced.ts:353-381 | where `extractJson` as written does not throw on the replies, it and the corrected extraction give the same run |
| Translator.EnhancedNlToSql | lib/claude-enhanced.ts:299-385 | a context error is thrown before any request; otherwise the prompt uses the fallback database, schema and limit, and the replayed history goes out through the retry with `extractJson` as written |
| Translator.NaturalLanguageToSql | lib/claude.ts:102-147 | the filled template and the question alone go out through the same retry, with `extractJson` as written |
| Translator.PlainTranslatorSendsOnlyQuestion | lib/claude.ts:126 | every attempt of the plain translator sends only the question |
| Translator.SingleShot | reference-files/lib/claude.ts:61-84 | one request carrying the question alone, 2048 tokens and no temperature; it throws exactly when the call fails, otherwise gives the parsed reply or the failure object |
| Translator.ReferenceEnhancedNlToSql | reference-files/lib/claude-enhanced.ts:236-276 | a failed tenant lookup is thrown as it is, and no tenant throws next; the prompt uses the tenant's database, schema and cap; one call |
| Translator.ReferenceNaturalLanguageToSql | reference-files/lib/claude.ts:48-85 | the older filled template, one call carrying the question |
| QueryRoute.QueryLog.constructor | app/api/query/route.ts:59 | the log starts empty |
| QueryRoute.QueryLog.Create | app/api/query/route.ts:59-66 | the row is appended when the store accepts it; otherwise nothing changes and the error is returned |
| QueryRoute.Post | app/api/query/route.ts:8-155 | the response, what is reached and the rows stored are those of `Respond` |
| QueryRoute.Respond | app/api/query/route.ts:8-155 | the current route as a function of its oracles; characterised by the `QueryRoute` lemmas below |
| QueryRoute.ValidQuestionSpec | app/api/query/route.ts:19 | a question passes exactly when it is a non-empty string of at most 2000 UTF-16 units |
| QueryRoute.InputGates | app/api/query/route.ts:19-32 | a bad question or history is 400, before the tenant, translator, executor or log |
| QueryRoute.QuotaGate | app/api/query/route.ts:37-50 | with a tenant, a count at or over the limit is 429; nothing is translated, executed or logged |
| QueryRoute.NoTenantNoLimit | app/api/query/route.ts:35-37 | without a tenant row the count plays no part and nothing is logged |
| QueryRoute.WriteFailuresSwallowed | app/api/query/route.ts:58-66 | a log write's outcome never changes the response or what is reached; at most one row per request |
| QueryRoute.TranslationFailureEnvelope | app/api/query/route.ts:56-80 | a translation error or no SQL gives null SQL and empty results, and logs the error or "No SQL generated" |
| QueryRoute.NoExecution | app/api/query/route.ts:83-94 | `execute` false returns the translation with empty results; nothing is executed or logged |
| QueryRoute.ExecutionEnvelopes | app/api/query/route.ts:96-151 | success carries columns, records, count, flag and elapsed time; an execution error carries its message and empty results |
| QueryRoute.ThrownErrors | app/api/query/route.ts:152-154 | an error thrown outside the log writes is 500 with its message alone |
| QueryRoute.ReferenceTranslated | reference-files/app/api/query/route.ts:59-147 | after the translator: a failure envelope, a no-execution envelope, or execution |
| QueryRoute.ReferenceExecuted | reference-files/app/api/query/route.ts:97-148 | the success row and envelope, or a caught error with its row; a failed error-row write escapes |
| QueryRoute.PostReference | reference-files/app/api/query/route.ts:8-152 | the step-by-step older route gives `RespondReference`'s response and stored rows |
| QueryRoute.RespondReference | reference-files/app/api/query/route.ts:8-152 | the older route as a function of its oracles; characterised by the `Reference…` lemmas |
| QueryRoute.FinishReference | reference-files/app/api/query/route.ts:59-148 | the older route's steps after the translator give `ReferenceTranslated` |
| QueryRoute.ReferenceAuthFirst | reference-files/app/api/query/route.ts:9-10 | an unauthorised request gets requireAuth's response before the body is read |
| QueryRoute.ReferenceTenantGates | reference-files/app/api/query/route.ts:27-44 | no tenant row is 404; a count at or over the limit is 429; neither reaches the translator |
| QueryRoute.ReferenceTranslatesForTenant | reference-files/app/api/query/route.ts:46-57 | the translator gets the schema formatted with the tenant's database and schema, and the tenant's cap, in one call with the question alone |
| QueryRoute.ReferenceReachesTranslator | reference-files/app/api/query/route.ts:46-57 | once sign-in, question, tenant, quota and schema have passed, the requests the route sends are exactly those of the older translator |
| QueryRoute.ReferenceSuccessLogFailure | reference-files/app/api/query/route.ts:101-135 | a failed success-row write is caught as an execution error, and the error row is stored |
| QueryRoute.ReferenceErrorLogFailure | reference-files/app/api/query/route.ts:126-151 | a failed error-row write is 500 with the store's message, and nothing is stored |
| QueryRoute.ReferenceEnvelopesMatch | reference-files/app/api/query/route.ts:59-147 | with every write accepted, the older route answers each of the four cases as the current one does |
| TenantsRoute.Validate | app/api/tenants/route.ts:7-20 | every refusal is the ZodError, answered as "Validation error" |
| TenantsRoute.ValidatedIsWellFormed | app/api/tenants/route.ts:7-20 | whatever passes validation is well formed |
| TenantsRoute.ValidateEncode | app/api/tenants/route.ts:7-20 | every well-formed value is accepted as sent: the bounds are exactly the schema's |
| TenantsRoute.Utf16LengthAtLeastOne | app/api/tenants/route.ts:8-14 | a non-empty string has UTF-16 length at least one |
| TenantsRoute.DefaultsApply | app/api/tenants/route.ts:15-19 | omitted optional fields become PUBLIC, SYSADMIN, 500, 30 and 200 |
| TenantsRoute.RowLimitOutOfRange | app/api/tenants/route.ts:17 | a row limit outside 10..10000 is refused |
| TenantsRoute.RedactRemovesOnlySecrets | app/api/tenants/route.ts:38-42 | redaction drops exactly the password and cache; restoring them gives the row back; `hasSchemaCache` tells whether there was a cache |
| TenantsRoute.Redact | app/api/tenants/route.ts:38-42 | a listed row without the password and cache; characterised by `RedactRemovesOnlySecrets` and `RedactForgetsSecrets` |
| TenantsRoute.RedactForgetsSecrets | app/api/tenants/route.ts:38-42 | rows differing only in password or cache are listed identically |
| TenantsRoute.GetTenants | app/api/tenants/route.ts:23-45 | a non-OWNER is 403; an OWNER gets every row redacted, in the store's order |
| TenantsRoute.PostTenant | app/api/tenants/route.ts:48-71 | a non-OWNER is 403 before the body is read; for an OWNER, an unreadable body is 500 with its error, a refused body is 400 "Validation error", a store error is 500, and otherwise the new id, name and slug come back; a success always has a valid, well-formed body |
| MetadataRoute.ParseSchemaSpec | reference-files/app/api/metadata/route.ts:11-46 | an accepted value fits the schema and is the input cut to the schema's keys; a non-fitting input with only schema keys is refused |
| MetadataRoute.ParseSchema | reference-files/app/api/metadata/route.ts:11-46 | the zod parse of a request schema; characterised by `ParseSchemaSpec`, `ParseFits` and `NullIsRefused` |
| MetadataRoute.ParseFits | reference-files/app/api/metadata/route.ts:11-46 | every fitting map is accepted unchanged |
| MetadataRoute.NullIsRefused | reference-files/app/api/metadata/route.ts:11-46 | a present null is refused, unlike an absent field |
| MetadataRoute.IndexOf | reference-files/app/api/metadata/route.ts:85-87 | a non-negative index points at a row with the key; -1 means no row has it |
| MetadataRoute.UpsertSpec | reference-files/app/api/metadata/route.ts:85-89 | keys and ids stay unique; exactly one row has the key, with the supplied fields over the old ones; no other row changes |
| MetadataRoute.Upsert | reference-files/app/api/metadata/route.ts:85-89 | the store's upsert on a key; characterised by `UpsertSpec` and `UpsertIdempotent` |
| MetadataRoute.UpsertIdempotent | reference-files/app/api/metadata/route.ts:85-89 | repeating an upsert with the same data changes nothing |
| MetadataRoute.Select | reference-files/app/api/metadata/route.ts:135-151 | keeps at most as many rows as it is given |
| MetadataRoute.SelectSpec | reference-files/app/api/metadata/route.ts:135-151 | a row is kept exactly when it is one of the rows and the filter accepts it |
| MetadataRoute.SelectKeeps | reference-files/app/api/metadata/route.ts:135-151 | keeping some rows keeps keys and ids unique |
| MetadataRoute.DeleteWhereSpec | reference-files/app/api/metadata/route.ts:133-153 | exactly the rows that do not match the owner and the name filter are left; the empty filter matches every row of the owner |
| MetadataRoute.DeleteWhere | reference-files/app/api/metadata/route.ts:133-153 | deleteMany on the owner and the name filter; characterised by `DeleteWhereSpec` and `DeleteWhereKeeps` |
| MetadataRoute.DeleteWhereKeeps | reference-files/app/api/metadata/route.ts:133-153 | deleteMany keeps keys and ids unique |
| MetadataRoute.FilterOf | reference-files/app/api/metadata/route.ts:133-153 | an undefined name is the empty filter; a string is `equals`; an object is a StringFilter when every operator is one the model interprets with a value of the right type; null and other values are refused |
| MetadataRoute.SingleOpMatches | reference-files/app/api/metadata/route.ts:133-153 | a filter of one operator matches exactly the names that operator holds of |
| MetadataRoute.DeleteByIdSpec | reference-files/app/api/metadata/route.ts:141-145 | succeeds exactly when some row has the id, then leaves every other row; otherwise the store's not-found error |
| MetadataRoute.DeleteById | reference-files/app/api/metadata/route.ts:141-145 | delete on an id; characterised by `DeleteByIdSpec` |
| MetadataRoute.DeleteWhereIdKeeps | reference-files/app/api/metadata/route.ts:141-145 | deleting by id keeps keys and ids unique |
| MetadataRoute.LexTotal | reference-files/app/api/metadata/route.ts:56-65 | name order is total |
| MetadataRoute.InsertByKey | reference-files/app/api/metadata/route.ts:56-65 | the result holds the rows plus the inserted one, as a multiset |
| MetadataRoute.SortByKey | reference-files/app/api/metadata/route.ts:56-65 | the sorted listing holds the same rows, as a multiset |
| MetadataRoute.InsertSorted | reference-files/app/api/metadata/route.ts:56-65 | inserting into a sorted list keeps it sorted, and the new head is the inserted row or the old head |
| MetadataRoute.SortByKeySpec | reference-files/app/api/metadata/route.ts:56-65 | `orderBy asc` holds the same rows in non-decreasing name order |
| MetadataRoute.MetadataDb.constructor | reference-files/app/api/metadata/route.ts:56-65 | the store starts empty with ids from 0 |
| MetadataRoute.MetadataDb.UpsertTable | reference-files/app/api/metadata/route.ts:85-89 | the store's tables become `Upsert` of the old ones |
| MetadataRoute.MetadataDb.FindTable | reference-files/app/api/metadata/route.ts:99-101 | the table row with that key, or none; nothing changes |
| MetadataRoute.MetadataDb.CreateTable | reference-files/app/api/metadata/route.ts:102-106 | a new table row with no optional field is added under a fresh id |
| MetadataRoute.MetadataDb.UpsertColumn | reference-files/app/api/metadata/route.ts:108-117 | the store's columns become `Upsert` of the old ones |
| MetadataRoute.MetadataDb.UpsertTerm | reference-files/app/api/metadata/route.ts:124-128 | the store's terms become `Upsert` of the old ones |
| MetadataRoute.MetadataDb.DeleteTables | reference-files/app/api/metadata/route.ts:133-139 | a filter the store refuses is an error and the tables are unchanged; otherwise the tables become `DeleteWhere` of the old ones under the filter |
| MetadataRoute.MetadataDb.DeleteTerms | reference-files/app/api/metadata/route.ts:147-153 | a filter the store refuses is an error and the terms are unchanged; otherwise the terms become `DeleteWhere` of the old ones under the filter |
| MetadataRoute.MetadataDb.DeleteColumn | reference-files/app/api/metadata/route.ts:141-145 | the columns become `DeleteById` of the old ones, or the error when none has the id |
| MetadataRoute.ActionNames | reference-files/app/api/metadata/route.ts:81-156 | each of the six action names selects its own case |
| MetadataRoute.Post | reference-files/app/api/metadata/route.ts:72-164 | the response and the new store are those of `Handle` |
| MetadataRoute.Handle | reference-files/app/api/metadata/route.ts:72-164 | the POST handler as a function of the store; characterised by `HandleKeepsValid`, `AdminGateFirst`, `RefusalsChangeNothing` and the delete lemmas |
| MetadataRoute.HandleUpsertColumn | reference-files/app/api/metadata/route.ts:94-119 | upsertColumn as a function of the store; characterised by `UpsertColumnKeepsValid` and `UpsertColumnCreatesParent` |
| MetadataRoute.PostColumn | reference-files/app/api/metadata/route.ts:94-119 | the upsertColumn steps give `HandleUpsertColumn`'s response and store |
| MetadataRoute.HandleKeepsValid | reference-files/app/api/metadata/route.ts:72-164 | every action keeps keys and ids unique |
| MetadataRoute.UpsertColumnKeepsValid | reference-files/app/api/metadata/route.ts:94-119 | upsertColumn keeps keys and ids unique |
| MetadataRoute.IdsBelowMonotone | reference-files/app/api/metadata/route.ts:85-128 | ids below a bound stay below any larger bound |
| MetadataRoute.AdminGateFirst | reference-files/app/api/metadata/route.ts:73-74 | a rejected session gets requireAuth's response and the store is unchanged |
| MetadataRoute.RefusalsChangeNothing | reference-files/app/api/metadata/route.ts:155-160 | an unknown action is 400; refused data is 400 "Validation error"; neither changes the store |
| MetadataRoute.UpsertColumnCreatesParent | reference-files/app/api/metadata/route.ts:99-117 | an unknown parent table is created under the caller's tenant, and the column is filed under it |
| MetadataRoute.DeleteTableWithoutNameWipesTenant | reference-files/app/api/metadata/route.ts:133-138 | deleteTable without a name removes every table row of the tenant and no other tenant's |
| MetadataRoute.DeleteTermByName | reference-files/app/api/metadata/route.ts:147-152 | deleteTerm with a name removes exactly that term of the tenant |
| MetadataRoute.DeleteTermNotKeep | reference-files/app/api/metadata/route.ts:147-152 | `{"not": keep}` deletes every term of the tenant except `keep`, and no other tenant's |
| MetadataRoute.DeleteTermEmptyPrefixWipesTenant | reference-files/app/api/metadata/route.ts:147-152 | `{"startsWith": ""}` deletes every term of the tenant, and no other tenant's |
| MetadataRoute.DeleteWithBadFilterRefused | reference-files/app/api/metadata/route.ts:133-153 | a null name, or a filter object with an operator the store refuses, is 500 and deletes nothing |
| MetadataRoute.DeleteColumnIgnoresTenant | reference-files/app/api/metadata/route.ts:141-144 | deleteColumn removes a column by id whatever tenant owns it |
| MetadataRoute.WithColumns | reference-files/app/api/metadata/route.ts:56-60 | one entry per table, in table order, each holding exactly that table's columns sorted by name |
| MetadataRoute.ListShape | reference-files/app/api/metadata/route.ts:50-68 | refused without a user and a tenant; otherwise the tenant's tables and terms, sorted by name |
| MetadataRoute.OwnedSortedSpec | reference-files/app/api/metadata/route.ts:56-65 | a sorted owner listing holds exactly that owner's rows, in name order |
| MetadataRoute.ListSpec | reference-files/app/api/metadata/route.ts:50-68 | exactly the tenant's tables by name, under each exactly its columns by name, and exactly the tenant's terms by term |
| MetadataRoute.List | reference-files/app/api/metadata/route.ts:50-68 | the GET listing; characterised by `ListShape` and `ListSpec` |
| MetadataRoute.Tables | reference-files/app/api/metadata/route.ts:56-60 | one table per listing entry |

## Left out

- JavaScript's `$` replacement patterns in `String.prototype.replace` are not interpreted (`Text.ReplaceFirst`). A schema text holding `$&` or `$1` would be expanded by the source.
- Text.ReplaceFirst: does not model the `$` patterns of the replacement text; see the line above.
- The error messages of the JavaScript engine and of Prisma are modelled as fixed strings. The wording of the store's invalid-argument error is an approximation.
- Store-generated ids are natural-number counters; Prisma's cuid strings are not modelled.
- The store's collation for `orderBy` is replaced by code-point order.
- MetadataRoute.MetadataDb.DeleteTables: the cascade that removes a deleted table's column rows is not modelled; those column rows stay in the store.
- The `details` of a ZodError response (its issue list) are not modelled; only the status and the "Validation error" text are.
- `JSON.parse`, `JSON.stringify`, `Date.prototype.toISOString` and `Number.prototype.toLocaleString` are parameters of the operations that use them, not definitions.
- The language model is a parameter (`reply`). Prompt text beyond the placeholders is quoted in the templates but not interpreted.
- In the routes, the translator's and the executor's outcomes are parameters. They are connected to `Translator` and `Warehouse` by the lemmas about those modules, not by one composed function.
- The clock (`Date.now`, midnight for the daily count, elapsed time) is a parameter.
- Concurrency: two requests racing on the pool, the schema cache or the quota count are not modelled. The pool has no lock in the source either.
- Numbers in JSON are integers only; floating point is not modelled. `Prompts.NumberText` always prints plain decimal digits, whereas JavaScript's `${n}` prints exponent notation once |n| reaches 1e21.
- Roles are the four of the enum; a session with any other role string is not modelled.
- `lib/prisma.ts`, `lib/auth.ts` (the sign-in providers), the `app/schema` and admin routes, the UI pages and the `scripts/` directory are not part of this model.
- The statement timeout (`ALTER SESSION SET STATEMENT_TIMEOUT_IN_SECONDS`) is sent before the statement, but its outcome is ignored by the source. The model does not represent it.
- Text.ToUpper: only ASCII, Latin-1, U+0131, U+017F and the special casings whose expansion holds a Latin letter (U+00DF, U+0149, U+01F0, U+1E96 to U+1E9A, U+FB00 to U+FB06) are mapped. Every other character (Latin Extended, Greek, Cyrillic, Armenian and the rest) is kept unchanged. None of those upper-cases to an ASCII letter, so the prefix rule's verdict does not depend on them.
- Text.Take: a cut that falls inside a surrogate pair keeps a lone high surrogate in JavaScript. A Dafny string cannot hold one, so the model drops the whole character.
- Extraction.ReferenceParse: the 300-unit quote inherits the surrogate-pair gap of `Text.Take`.
- Translator.RetryGivesUp: the 500-unit quote inherits the surrogate-pair gap of `Text.Take`.
- MetadataRoute.FilterOf: some StringFilter forms the store accepts are refused by the model as a validation error. These are `mode: "insensitive"`, `lt`/`lte`/`gt`/`gte`, a nested `not` object, `in`/`notIn` given a single string, and operators whose value is null. `contains`, `startsWith` and `endsWith` compare code points; the database's collation and its `LIKE` escaping are not modelled.
- MetadataRoute.Post: the StringFilter forms listed on the `MetadataRoute.FilterOf` line are answered with the store's validation error (500) and leave the store unchanged; the store itself would apply them.
- EnrichedContext.JoinLines: a parsed overlay is a typed list of well-formed join hints. A JSON value of another shape cannot be represented. This covers a list holding null, where the source keeps the lines already pushed and swallows the TypeError, and a string, which the source loops over character by character.
- EnrichedContext.ExampleLines: the same holds for the example queries overlay.
- TenantsRoute.GetTenants: the store read is not modelled as failing. The source has no `try` around it, so a failure would escape to the framework.
- MetadataRoute.List: the same holds for the GET listing.
- Translator.SqlSummary: an answer's `row_count` of null is treated as absent. The source tests `!== undefined`, so it would print "Query returned null rows.".
- Translator.ReplyText: a reply always has a first content block. An empty `content` array would make `response.content[0].type` throw.

## Findings

| source | as written | input that shows it | evidently intended | confidence | as-written member | corrected member |
|---|---|---|---|---|---|---|
| lib/claude-enhanced.ts:28-35 (also lib/claude.ts:27-34) | after `lines.shift()` on a fenced reply with no newline, `lines` is empty and `lines[lines.length - 1].trim()` throws a TypeError outside the `try`, so the translator throws instead of retrying (`Translator.FencedReplyEndsRun`) | the reply ```` ```json {"sql": "SELECT 1"}``` ```` | return null, so the second attempt runs | not executed | Extraction.FencedOneLinerThrows | Extraction.ExtractAgreement |
