/** The query endpoint: app/api/query/route.ts (open access, default tenant, enhanced
    translator, swallowed log failures) and reference-files/app/api/query/route.ts (analyst
    sign-in, plain translator, log failures that change the answer). Each route is a pure
    decision over the outcomes of its collaborators, and a method that carries out the same
    steps against a query-log table. */
module QueryRoute {
  import opened Common
  import opened Text
  import opened Json
  import opened Records
  import opened Extraction
  import opened Results
  import opened ApiAuth
  import SchemaPrompt
  import Translator
  import Prompts

  // ---------------------------------------------------------------- responses

  /** The JSON body of a 200 answer. An `Option` field that is None is `undefined` and left out
      of the serialised body. */
  datatype Envelope = Envelope(
    question: string, sql: Json, explanation: Option<Json>, assumptions: Option<Json>,
    error: Option<Json>, columns: seq<string>, data: seq<Record>, rowCount: int, truncated: bool,
    executionTimeMs: Option<int>)

  /** A 200 envelope, or an error status whose body is `{ error }` alone. */
  datatype Response = Answered(envelope: Envelope) | Refused(status: int, error: string)

  /** One queryLog row as the route writes it. */
  datatype LogEntry = LogEntry(
    tenantId: string, userId: string, question: string, generatedSql: Option<Json>,
    explanation: Option<Json>, rowCount: Option<int>, executionMs: Option<int>, error: Option<Json>)

  const INVALID_QUESTION := "Invalid question (must be 1-2000 characters)"
  const HISTORY_NOT_ARRAY := "conversationHistory must be an array"
  const TENANT_NOT_FOUND := "Tenant not found"
  const NO_SQL := "No SQL generated"
  const GUEST_ID := "guest"
  const DEFAULT_TENANT := "default"
  const MAX_QUESTION := 2000
  /** What destructuring a `null` body throws. */
  const NULL_BODY := "Cannot destructure property 'question' of 'body' as it is null."

  function LimitMessage(limit: int): string {
    "Daily query limit reached (" + IntToString(limit) + "). Resets at midnight."
  }

  /** `!question || typeof question !== "string" || question.length > 2000`, negated. */
  predicate ValidQuestion(q: Option<Json>) {
    q.Some? && q.value.JStr? && q.value.s != "" && Utf16Length(q.value.s) <= MAX_QUESTION
  }

  /** `execute = true`: the default applies only to a missing property; then `!execute`. */
  predicate Executes(v: Option<Json>) {
    v.None? || Truthy(v.value)
  }

  /** `conversationHistory = []` followed by `Array.isArray`. */
  predicate HistoryOk(v: Option<Json>) {
    v.None? || v.value.JArr?
  }

  predicate OptTruthy(v: Option<Json>) {
    v.Some? && Truthy(v.value)
  }

  /** The four envelopes both routes build, field for field. */
  function FailureEnvelope(question: string, error: Option<Json>): Envelope {
    Envelope(question, JNull, Some(JNull), Some(JArr([])), error, [], [], 0, false, None)
  }

  function NoExecEnvelope(question: string, sql: Json, explanation: Option<Json>, assumptions: Option<Json>): Envelope {
    Envelope(question, sql, explanation, assumptions, None, [], [], 0, false, None)
  }

  function SuccessEnvelope(question: string, sql: Json, explanation: Option<Json>, assumptions: Option<Json>,
                           result: QueryResult, elapsed: int): Envelope {
    Envelope(question, sql, explanation, assumptions, None, result.columns, result.data, result.rowCount,
             result.truncated, Some(elapsed))
  }

  function ExecErrorEnvelope(question: string, sql: Json, explanation: Option<Json>, assumptions: Option<Json>,
                             message: string): Envelope {
    Envelope(question, sql, explanation, assumptions, Some(JStr(message)), [], [], 0, false, None)
  }

  /** What a request led to: the response, the log rows that were stored, and whether the
      translator and the executor were reached. */
  datatype Outcome = Outcome(response: Response, logged: seq<LogEntry>, translatorCalled: bool, executorCalled: bool)

  // ---------------------------------------------------------------- the query log

  /** The queryLog table, as far as the routes see it: rows are appended by `create`. */
  class QueryLog {
    var entries: seq<LogEntry>

    constructor()
      ensures entries == []
    {
      entries := [];
    }

    /** queryLog.create: `failure` is the store's error for this write, None when it succeeds;
        a failed write stores nothing and is reported to the caller. */
    method Create(entry: LogEntry, failure: Option<string>) returns (err: Option<string>)
      modifies this
      ensures err == failure
      ensures entries == old(entries) + (if failure.None? then [entry] else [])
    {
      if failure.None? {
        entries := entries + [entry];
      }
      err := failure;
    }
  }

  // ---------------------------------------------------------------- app/api/query/route.ts

  /** The row a write stores when the current route writes it: only with a tenant row, and
      only if the store accepts it. */
  function Kept(tenant: Option<Tenant>, entry: LogEntry, failure: Option<string>): seq<LogEntry> {
    if tenant.Some? && failure.None? then [entry] else []
  }

  /** POST of the current route. `body` is what req.json resolved to or threw; `tenant` the
      lookup with its failure read as none; `count` today's log count or the error it threw;
      `translated` what enhancedNlToSql resolved to or threw; `executed` what executeQuery
      resolved to or threw; `elapsed` the clock difference; `write(k)` the store's error for
      the k-th log write of the request, None when it succeeds. */
  function Respond(env: Env, body: Result<Json>, tenant: Option<Tenant>, count: Result<int>,
                   translated: Result<Translation>, executed: Result<QueryResult>, elapsed: int,
                   write: nat -> Option<string>): Outcome
  {
    var tenantId := EnvOr(env, "DEFAULT_TENANT_ID", DEFAULT_TENANT);
    if body.Err? then Outcome(Refused(500, body.error), [], false, false)
    else if body.value == JNull then Outcome(Refused(500, NULL_BODY), [], false, false)
    else
      var question := Get(body.value, "question").value;
      var execute := Get(body.value, "execute").value;
      var history := Get(body.value, "conversationHistory").value;
      if !ValidQuestion(question) then Outcome(Refused(400, INVALID_QUESTION), [], false, false)
      else if !HistoryOk(history) then Outcome(Refused(400, HISTORY_NOT_ARRAY), [], false, false)
      else if tenant.Some? && count.Err? then Outcome(Refused(500, count.error), [], false, false)
      else if tenant.Some? && count.value >= tenant.value.dailyQueryLimit then
        Outcome(Refused(429, LimitMessage(tenant.value.dailyQueryLimit)), [], false, false)
      else if translated.Err? then Outcome(Refused(500, translated.error), [], true, false)
      else
        var q := question.value.s;
        var t := translated.value;
        if Truthy(t.error) || !Truthy(t.sql) then
          var entry := LogEntry(tenantId, GUEST_ID, q, None, None, None, None,
                                Some(if Truthy(t.error) then t.error else JStr(NO_SQL)));
          Outcome(Answered(FailureEnvelope(q, Some(t.error))), Kept(tenant, entry, write(0)), true, false)
        else if !Executes(execute) then
          Outcome(Answered(NoExecEnvelope(q, t.sql, Some(t.explanation), Some(JArr(t.assumptions)))), [], true, false)
        else if executed.Ok? then
          var r := executed.value;
          var entry := LogEntry(tenantId, GUEST_ID, q, Some(t.sql), Some(t.explanation), Some(r.rowCount),
                                Some(elapsed), None);
          Outcome(Answered(SuccessEnvelope(q, t.sql, Some(t.explanation), Some(JArr(t.assumptions)), r, elapsed)),
                  Kept(tenant, entry, write(0)), true, true)
        else
          var entry := LogEntry(tenantId, GUEST_ID, q, Some(t.sql), None, None, None, Some(JStr(executed.error)));
          Outcome(Answered(ExecErrorEnvelope(q, t.sql, Some(t.explanation), Some(JArr(t.assumptions)), executed.error)),
                  Kept(tenant, entry, write(0)), true, true)
  }

  /** The route step by step against the log table; every write's failure is swallowed. */
  method Post(log: QueryLog, env: Env, body: Result<Json>, tenant: Option<Tenant>, count: Result<int>,
              translated: Result<Translation>, executed: Result<QueryResult>, elapsed: int,
              write: nat -> Option<string>)
    returns (response: Response, translatorCalled: bool, executorCalled: bool)
    modifies log
    ensures var o := Respond(env, body, tenant, count, translated, executed, elapsed, write);
      response == o.response && translatorCalled == o.translatorCalled && executorCalled == o.executorCalled
      && log.entries == old(log.entries) + o.logged
  {
    var tenantId := EnvOr(env, "DEFAULT_TENANT_ID", DEFAULT_TENANT);
    translatorCalled, executorCalled := false, false;
    if body.Err? {
      return Refused(500, body.error), false, false;
    }
    if body.value == JNull {
      return Refused(500, NULL_BODY), false, false;
    }
    var question := Get(body.value, "question").value;
    var execute := Get(body.value, "execute").value;
    var history := Get(body.value, "conversationHistory").value;
    if !ValidQuestion(question) {
      return Refused(400, INVALID_QUESTION), false, false;
    }
    if !HistoryOk(history) {
      return Refused(400, HISTORY_NOT_ARRAY), false, false;
    }
    if tenant.Some? {
      if count.Err? {
        return Refused(500, count.error), false, false;
      }
      if count.value >= tenant.value.dailyQueryLimit {
        return Refused(429, LimitMessage(tenant.value.dailyQueryLimit)), false, false;
      }
    }
    translatorCalled := true;
    if translated.Err? {
      return Refused(500, translated.error), true, false;
    }
    var q := question.value.s;
    var t := translated.value;
    if Truthy(t.error) || !Truthy(t.sql) {
      if tenant.Some? {
        var entry := LogEntry(tenantId, GUEST_ID, q, None, None, None, None,
                              Some(if Truthy(t.error) then t.error else JStr(NO_SQL)));
        var _ := log.Create(entry, write(0));
      }
      return Answered(FailureEnvelope(q, Some(t.error))), true, false;
    }
    if !Executes(execute) {
      return Answered(NoExecEnvelope(q, t.sql, Some(t.explanation), Some(JArr(t.assumptions)))), true, false;
    }
    executorCalled := true;
    if executed.Ok? {
      var r := executed.value;
      if tenant.Some? {
        var entry := LogEntry(tenantId, GUEST_ID, q, Some(t.sql), Some(t.explanation), Some(r.rowCount),
                              Some(elapsed), None);
        var _ := log.Create(entry, write(0));
      }
      response := Answered(SuccessEnvelope(q, t.sql, Some(t.explanation), Some(JArr(t.assumptions)), r, elapsed));
    } else {
      if tenant.Some? {
        var entry := LogEntry(tenantId, GUEST_ID, q, Some(t.sql), None, None, None, Some(JStr(executed.error)));
        var _ := log.Create(entry, write(0));
      }
      response := Answered(ExecErrorEnvelope(q, t.sql, Some(t.explanation), Some(JArr(t.assumptions)),
                                             executed.error));
    }
  }

  /** A question passes exactly when it is a non-empty string of at most 2000 UTF-16 code
      units; anything else, missing or not a string, fails. */
  lemma ValidQuestionSpec(q: Option<Json>, s: string)
    ensures ValidQuestion(Some(JStr(s))) <==> 1 <= Utf16Length(s) <= 2000
    ensures q.None? || !q.value.JStr? ==> !ValidQuestion(q)
  {
    if s != [] {
      assert 1 <= |s| <= Utf16Length(s);
    }
  }

  /** A bad question or history is answered 400 before the tenant, the translator, the
      executor or the log is touched. */
  lemma InputGates(env: Env, body: Json, tenant: Option<Tenant>, count: Result<int>,
                   translated: Result<Translation>, executed: Result<QueryResult>, elapsed: int,
                   write: nat -> Option<string>)
    requires body != JNull
    requires !ValidQuestion(Get(body, "question").value) || !HistoryOk(Get(body, "conversationHistory").value)
    ensures var o := Respond(env, Ok(body), tenant, count, translated, executed, elapsed, write);
      o.response.Refused? && o.response.status == 400
      && o.response.error == (if !ValidQuestion(Get(body, "question").value) then INVALID_QUESTION else HISTORY_NOT_ARRAY)
      && o.logged == [] && !o.translatorCalled && !o.executorCalled
  {
  }

  /** With a tenant row, a count at or over the daily limit is answered 429 and nothing is
      translated, executed or logged. */
  lemma QuotaGate(env: Env, body: Json, t: Tenant, c: int,
                  translated: Result<Translation>, executed: Result<QueryResult>, elapsed: int,
                  write: nat -> Option<string>)
    requires body != JNull && ValidQuestion(Get(body, "question").value) && HistoryOk(Get(body, "conversationHistory").value)
    requires c >= t.dailyQueryLimit
    ensures var o := Respond(env, Ok(body), Some(t), Ok(c), translated, executed, elapsed, write);
      o == Outcome(Refused(429, LimitMessage(t.dailyQueryLimit)), [], false, false)
  {
  }

  /** Without a tenant row there is no limit: the count plays no part and nothing is logged. */
  lemma NoTenantNoLimit(env: Env, body: Result<Json>, count1: Result<int>, count2: Result<int>,
                        translated: Result<Translation>, executed: Result<QueryResult>, elapsed: int,
                        write: nat -> Option<string>)
    ensures var o := Respond(env, body, None, count1, translated, executed, elapsed, write);
      o == Respond(env, body, None, count2, translated, executed, elapsed, write)
      && o.logged == [] && !(o.response.Refused? && o.response.status == 429)
  {
  }

  /** The outcome of a log write never changes the response or what is reached, and at most
      one row is stored per request. */
  lemma WriteFailuresSwallowed(env: Env, body: Result<Json>, tenant: Option<Tenant>, count: Result<int>,
                               translated: Result<Translation>, executed: Result<QueryResult>, elapsed: int,
                               write1: nat -> Option<string>, write2: nat -> Option<string>)
    ensures var o1 := Respond(env, body, tenant, count, translated, executed, elapsed, write1);
      var o2 := Respond(env, body, tenant, count, translated, executed, elapsed, write2);
      o1.response == o2.response && o1.translatorCalled == o2.translatorCalled
      && o1.executorCalled == o2.executorCalled && |o1.logged| <= 1
  {
  }

  /** A translation with an error or without SQL gives the failure envelope: null SQL and
      explanation, no assumptions, the translator's error as it is (null included), empty
      results; the log row carries that error or "No SQL generated". */
  lemma TranslationFailureEnvelope(env: Env, body: Json, tenant: Option<Tenant>, count: Result<int>, t: Translation,
                                   executed: Result<QueryResult>, elapsed: int, write: nat -> Option<string>)
    requires body != JNull && ValidQuestion(Get(body, "question").value) && HistoryOk(Get(body, "conversationHistory").value)
    requires tenant.Some? ==> count.Ok? && count.value < tenant.value.dailyQueryLimit
    requires Truthy(t.error) || !Truthy(t.sql)
    ensures var o := Respond(env, Ok(body), tenant, count, Ok(t), executed, elapsed, write);
      var e := o.response.envelope;
      o.response.Answered? && e.sql == JNull && e.explanation == Some(JNull) && e.assumptions == Some(JArr([]))
      && e.error == Some(t.error) && e.columns == [] && e.data == [] && e.rowCount == 0 && !e.truncated
      && e.executionTimeMs.None? && !o.executorCalled
      && (tenant.Some? && write(0).None? ==>
            |o.logged| == 1 && o.logged[0].error == Some(if Truthy(t.error) then t.error else JStr(NO_SQL)))
  {
  }

  /** `execute` false: the SQL, explanation and assumptions with empty results and no error
      field; nothing is executed or logged. */
  lemma NoExecution(env: Env, body: Json, tenant: Option<Tenant>, count: Result<int>, t: Translation,
                    executed: Result<QueryResult>, elapsed: int, write: nat -> Option<string>)
    requires body != JNull && ValidQuestion(Get(body, "question").value) && HistoryOk(Get(body, "conversationHistory").value)
    requires tenant.Some? ==> count.Ok? && count.value < tenant.value.dailyQueryLimit
    requires Truthy(t.sql) && !Truthy(t.error)
    requires !Executes(Get(body, "execute").value)
    ensures var o := Respond(env, Ok(body), tenant, count, Ok(t), executed, elapsed, write);
      o.response == Answered(Envelope(Get(body, "question").value.value.s, t.sql, Some(t.explanation),
                                      Some(JArr(t.assumptions)), None, [], [], 0, false, None))
      && o.logged == [] && o.translatorCalled && !o.executorCalled
  {
  }

  /** An executed statement: its columns, records, count and truncation flag with the elapsed
      time; a failed one keeps the SQL, explanation and assumptions beside the error and has
      empty results. */
  lemma ExecutionEnvelopes(env: Env, body: Json, tenant: Option<Tenant>, count: Result<int>, t: Translation,
                           executed: Result<QueryResult>, elapsed: int, write: nat -> Option<string>)
    requires body != JNull && ValidQuestion(Get(body, "question").value) && HistoryOk(Get(body, "conversationHistory").value)
    requires tenant.Some? ==> count.Ok? && count.value < tenant.value.dailyQueryLimit
    requires Truthy(t.sql) && !Truthy(t.error)
    requires Executes(Get(body, "execute").value)
    ensures var o := Respond(env, Ok(body), tenant, count, Ok(t), executed, elapsed, write);
      var e := o.response.envelope;
      o.response.Answered? && o.executorCalled && e.sql == t.sql && e.explanation == Some(t.explanation)
      && e.assumptions == Some(JArr(t.assumptions))
      && (executed.Ok? ==>
            e.error.None? && e.columns == executed.value.columns && e.data == executed.value.data
            && e.rowCount == executed.value.rowCount && e.truncated == executed.value.truncated
            && e.executionTimeMs == Some(elapsed))
      && (executed.Err? ==>
            e.error == Some(JStr(executed.error)) && e.columns == [] && e.data == [] && e.rowCount == 0
            && !e.truncated && e.executionTimeMs.None?)
  {
  }

  /** A thrown error anywhere outside the log writes is answered 500 with its message alone. */
  lemma ThrownErrors(env: Env, body: Result<Json>, tenant: Option<Tenant>, count: Result<int>,
                     translated: Result<Translation>, executed: Result<QueryResult>, elapsed: int,
                     write: nat -> Option<string>)
    ensures body.Err? ==>
      Respond(env, body, tenant, count, translated, executed, elapsed, write).response == Refused(500, body.error)
    ensures body == Ok(JNull) ==>
      Respond(env, body, tenant, count, translated, executed, elapsed, write).response == Refused(500, NULL_BODY)
    ensures var o := Respond(env, body, tenant, count, translated, executed, elapsed, write);
      o.translatorCalled && translated.Err? ==> o.response == Refused(500, translated.error)
  {
  }

  // ---------------------------------------------------------------- reference-files/app/api/query/route.ts

  /** What the older route leads to; `requests` are the translator's calls (none when it is
      not reached). */
  datatype ReferenceOutcome = ReferenceOutcome(response: Response, logged: seq<LogEntry>,
                                               requests: seq<Translator.Request>, executorCalled: bool)

  /** The schema text the older route hands to the translator. */
  function SchemaText(tables: seq<TableInfo>, t: Tenant, fmt: int -> string): string {
    Join(SchemaPrompt.SchemaLines(tables, t.sfDatabase, t.sfSchema, fmt), "\n")
  }

  /** The older POST. `lookup` is the tenant lookup or what it threw; `tables` what
      getSchemaContext resolved to or threw; `reply` and `parse` the model's answer and
      JSON.parse as the older translator takes them; the rest as in Respond. The log writes are
      not guarded: a failed write throws into the enclosing handler. */
  function RespondReference(session: Option<SessionUser>, body: Result<Json>, lookup: Result<Option<Tenant>>,
                            count: Result<int>, tables: Result<seq<TableInfo>>, fmt: int -> string,
                            reply: Translator.Reply, parse: string -> Option<Json>,
                            executed: Result<QueryResult>, elapsed: int, write: nat -> Option<string>): ReferenceOutcome
  {
    var auth := RequireAuth(session, Analyst);
    if auth.Rejected? then ReferenceOutcome(Refused(auth.status, auth.error), [], [], false)
    else if body.Err? then ReferenceOutcome(Refused(500, body.error), [], [], false)
    else if body.value == JNull then ReferenceOutcome(Refused(500, NULL_BODY), [], [], false)
    else
      var question := Get(body.value, "question").value;
      if !ValidQuestion(question) then ReferenceOutcome(Refused(400, INVALID_QUESTION), [], [], false)
      else if lookup.Err? then ReferenceOutcome(Refused(500, lookup.error), [], [], false)
      else if lookup.value.None? then ReferenceOutcome(Refused(404, TENANT_NOT_FOUND), [], [], false)
      else
        var t := lookup.value.value;
        if count.Err? then ReferenceOutcome(Refused(500, count.error), [], [], false)
        else if count.value >= t.dailyQueryLimit then
          ReferenceOutcome(Refused(429, LimitMessage(t.dailyQueryLimit)), [], [], false)
        else if tables.Err? then ReferenceOutcome(Refused(500, tables.error), [], [], false)
        else
          var q := question.value.s;
          var single := Translator.ReferenceNaturalLanguageToSql(q, SchemaText(tables.value, t, fmt), t.sfDatabase,
                                                                 t.sfSchema, t.maxRowsPerQuery, reply, parse);
          ReferenceTranslated(q, Get(body.value, "execute").value, auth.tenantId, auth.user.id, single,
                              executed, elapsed, write)
  }

  /** The older route once the translator has answered: a failed call or a null reply throws;
      an error or no SQL logs and gives the failure envelope; `execute` false gives the
      envelope without results. */
  function ReferenceTranslated(q: string, execute: Option<Json>, tenantId: string, userId: string,
                               single: Translator.Single, executed: Result<QueryResult>, elapsed: int,
                               write: nat -> Option<string>): (r: ReferenceOutcome)
    ensures r.requests == single.requests
  {
    var sent := single.requests;
    if single.result.Err? then ReferenceOutcome(Refused(500, single.result.error), [], sent, false)
    else
      var nl := single.result.value;
      if nl == JNull then ReferenceOutcome(Refused(500, Get(nl, "error").error), [], sent, false)
      else
        var error := Get(nl, "error").value;
        var sql := Get(nl, "sql").value;
        var explanation := Get(nl, "explanation").value;
        var assumptions := Get(nl, "assumptions").value;
        if OptTruthy(error) || !OptTruthy(sql) then
          var entry := LogEntry(tenantId, userId, q, None, None, None, None,
                                Some(if OptTruthy(error) then error.value else JStr(NO_SQL)));
          if write(0).Some? then ReferenceOutcome(Refused(500, write(0).value), [], sent, false)
          else ReferenceOutcome(Answered(FailureEnvelope(q, error)), [entry], sent, false)
        else if !Executes(execute) then
          ReferenceOutcome(Answered(NoExecEnvelope(q, sql.value, explanation, assumptions)), [], sent, false)
        else
          ReferenceExecuted(q, tenantId, userId, sql.value, explanation, assumptions, sent, executed, elapsed, write)
  }

  /** The older route's try block around the statement and its success row, and the catch
      block that writes the error row; the error row's own failure escapes as a 500. */
  function ReferenceExecuted(q: string, tenantId: string, userId: string, s: Json, explanation: Option<Json>,
                             assumptions: Option<Json>, sent: seq<Translator.Request>,
                             executed: Result<QueryResult>, elapsed: int, write: nat -> Option<string>): (r: ReferenceOutcome)
    ensures r.requests == sent && r.executorCalled
  {
    if executed.Ok? && write(0).None? then
      var r := executed.value;
      var entry := LogEntry(tenantId, userId, q, Some(s), explanation, Some(r.rowCount), Some(elapsed), None);
      ReferenceOutcome(Answered(SuccessEnvelope(q, s, explanation, assumptions, r, elapsed)), [entry], sent, true)
    else
      var failure := if executed.Err? then executed.error else write(0).value;
      var k := if executed.Ok? then 1 else 0;
      var entry := LogEntry(tenantId, userId, q, Some(s), None, None, None, Some(JStr(failure)));
      if write(k).Some? then ReferenceOutcome(Refused(500, write(k).value), [], sent, true)
      else ReferenceOutcome(Answered(ExecErrorEnvelope(q, s, explanation, assumptions, failure)), [entry], sent, true)
  }

  /** The older route step by step against the log table. */
  method PostReference(log: QueryLog, session: Option<SessionUser>, body: Result<Json>,
                       lookup: Result<Option<Tenant>>, count: Result<int>, tables: Result<seq<TableInfo>>,
                       fmt: int -> string, reply: Translator.Reply, parse: string -> Option<Json>,
                       executed: Result<QueryResult>, elapsed: int, write: nat -> Option<string>)
    returns (response: Response, requests: seq<Translator.Request>, executorCalled: bool)
    modifies log
    ensures var o := RespondReference(session, body, lookup, count, tables, fmt, reply, parse, executed, elapsed, write);
      response == o.response && requests == o.requests && executorCalled == o.executorCalled
      && log.entries == old(log.entries) + o.logged
  {
    var auth := RequireAuth(session, Analyst);
    if auth.Rejected? {
      return Refused(auth.status, auth.error), [], false;
    }
    if body.Err? {
      return Refused(500, body.error), [], false;
    }
    if body.value == JNull {
      return Refused(500, NULL_BODY), [], false;
    }
    var question := Get(body.value, "question").value;
    if !ValidQuestion(question) {
      return Refused(400, INVALID_QUESTION), [], false;
    }
    if lookup.Err? {
      return Refused(500, lookup.error), [], false;
    }
    if lookup.value.None? {
      return Refused(404, TENANT_NOT_FOUND), [], false;
    }
    var t := lookup.value.value;
    if count.Err? {
      return Refused(500, count.error), [], false;
    }
    if count.value >= t.dailyQueryLimit {
      return Refused(429, LimitMessage(t.dailyQueryLimit)), [], false;
    }
    if tables.Err? {
      return Refused(500, tables.error), [], false;
    }
    var q := question.value.s;
    var schemaContext := SchemaPrompt.FormatSchemaForPrompt(tables.value, t.sfDatabase, t.sfSchema, fmt);
    var single := Translator.ReferenceNaturalLanguageToSql(q, schemaContext, t.sfDatabase, t.sfSchema,
                                                           t.maxRowsPerQuery, reply, parse);
    response, requests, executorCalled :=
      FinishReference(log, q, Get(body.value, "execute").value, auth.tenantId, auth.user.id, single,
                      executed, elapsed, write);
  }

  /** The older route's steps once the translator has answered. */
  method FinishReference(log: QueryLog, q: string, execute: Option<Json>, tenantId: string, userId: string,
                         single: Translator.Single, executed: Result<QueryResult>, elapsed: int,
                         write: nat -> Option<string>)
    returns (response: Response, requests: seq<Translator.Request>, executorCalled: bool)
    modifies log
    ensures var o := ReferenceTranslated(q, execute, tenantId, userId, single, executed, elapsed, write);
      response == o.response && requests == o.requests && executorCalled == o.executorCalled
      && log.entries == old(log.entries) + o.logged
  {
    requests := single.requests;
    if single.result.Err? {
      return Refused(500, single.result.error), requests, false;
    }
    var nl := single.result.value;
    var errorProp := Get(nl, "error");
    if errorProp.Err? {
      return Refused(500, errorProp.error), requests, false;
    }
    var error := errorProp.value;
    var sql := Get(nl, "sql").value;
    var explanation := Get(nl, "explanation").value;
    var assumptions := Get(nl, "assumptions").value;
    if OptTruthy(error) || !OptTruthy(sql) {
      var entry := LogEntry(tenantId, userId, q, None, None, None, None,
                            Some(if OptTruthy(error) then error.value else JStr(NO_SQL)));
      var err := log.Create(entry, write(0));
      if err.Some? {
        return Refused(500, err.value), requests, false;
      }
      return Answered(FailureEnvelope(q, error)), requests, false;
    }
    if !Executes(execute) {
      return Answered(NoExecEnvelope(q, sql.value, explanation, assumptions)), requests, false;
    }
    executorCalled := true;
    var s := sql.value;
    // The try block: the statement, then the success row; either failure lands in the catch.
    var failure: string;
    var writes := 0;
    if executed.Ok? {
      var r := executed.value;
      var entry := LogEntry(tenantId, userId, q, Some(s), explanation, Some(r.rowCount), Some(elapsed), None);
      var err := log.Create(entry, write(0));
      writes := 1;
      if err.None? {
        return Answered(SuccessEnvelope(q, s, explanation, assumptions, r, elapsed)), requests, true;
      }
      failure := err.value;
    } else {
      failure := executed.error;
    }
    // The catch block: the error row, whose own failure escapes to the outer handler.
    var entry := LogEntry(tenantId, userId, q, Some(s), None, None, None, Some(JStr(failure)));
    var err := log.Create(entry, write(writes));
    if err.Some? {
      return Refused(500, err.value), requests, true;
    }
    response := Answered(ExecErrorEnvelope(q, s, explanation, assumptions, failure));
  }

  /** The older route answers an unauthorised request with requireAuth's own response, before
      the body is read. */
  lemma ReferenceAuthFirst(session: Option<SessionUser>, body: Result<Json>, lookup: Result<Option<Tenant>>,
                           count: Result<int>, tables: Result<seq<TableInfo>>, fmt: int -> string,
                           reply: Translator.Reply, parse: string -> Option<Json>,
                           executed: Result<QueryResult>, elapsed: int, write: nat -> Option<string>)
    requires RequireAuth(session, Analyst).Rejected?
    ensures var o := RespondReference(session, body, lookup, count, tables, fmt, reply, parse, executed, elapsed, write);
      o == ReferenceOutcome(Refused(RequireAuth(session, Analyst).status, RequireAuth(session, Analyst).error),
                            [], [], false)
  {
  }

  /** After sign-in and a valid question: no tenant row is 404, and a count at or over the limit
      is 429 whatever else holds; neither reaches the translator. */
  lemma ReferenceTenantGates(user: SessionUser, body: Json, lookup: Result<Option<Tenant>>,
                             count: Result<int>, tables: Result<seq<TableInfo>>, fmt: int -> string,
                             reply: Translator.Reply, parse: string -> Option<Json>,
                             executed: Result<QueryResult>, elapsed: int, write: nat -> Option<string>)
    requires Rank(user.role) >= Rank(Analyst) && user.tenantId != ""
    requires body != JNull && ValidQuestion(Get(body, "question").value)
    ensures var o := RespondReference(Some(user), Ok(body), lookup, count, tables, fmt, reply, parse, executed, elapsed, write);
      (lookup == Ok(None) ==> o == ReferenceOutcome(Refused(404, TENANT_NOT_FOUND), [], [], false))
      && (lookup.Ok? && lookup.value.Some? && count.Ok? && count.value >= lookup.value.value.dailyQueryLimit ==>
            o == ReferenceOutcome(Refused(429, LimitMessage(lookup.value.value.dailyQueryLimit)), [], [], false))
  {
  }

  /** The translator is given the schema formatted with the tenant's database and schema, and
      the tenant's row cap, in one call carrying the question alone. */
  lemma ReferenceTranslatesForTenant(user: SessionUser, body: Json, t: Tenant, c: int, tables: seq<TableInfo>,
                                     fmt: int -> string, reply: Translator.Reply, parse: string -> Option<Json>,
                                     executed: Result<QueryResult>, elapsed: int, write: nat -> Option<string>)
    requires Rank(user.role) >= Rank(Analyst) && user.tenantId != ""
    requires body != JNull && ValidQuestion(Get(body, "question").value)
    requires c < t.dailyQueryLimit
    ensures var o := RespondReference(Some(user), Ok(body), Ok(Some(t)), Ok(c), Ok(tables), fmt, reply, parse,
                                      executed, elapsed, write);
      Translator.SentOnce(Translator.Single(Ok(JNull), o.requests),
                          Prompts.FillTemplate(false, SchemaText(tables, t, fmt), t.sfDatabase, t.sfSchema,
                                               Some(t.maxRowsPerQuery)),
                          Get(body, "question").value.value.s)
  {
    ReferenceReachesTranslator(user, body, t, c, tables, fmt, reply, parse, executed, elapsed, write);
  }

  /** Past the checks, the older route's outcome is that of the translation stage. */
  lemma ReferenceReachesTranslator(user: SessionUser, body: Json, t: Tenant, c: int, tables: seq<TableInfo>,
                                   fmt: int -> string, reply: Translator.Reply, parse: string -> Option<Json>,
                                   executed: Result<QueryResult>, elapsed: int, write: nat -> Option<string>)
    requires Rank(user.role) >= Rank(Analyst) && user.tenantId != ""
    requires body != JNull && ValidQuestion(Get(body, "question").value)
    requires c < t.dailyQueryLimit
    ensures RespondReference(Some(user), Ok(body), Ok(Some(t)), Ok(c), Ok(tables), fmt, reply, parse,
                             executed, elapsed, write).requests
            == Translator.ReferenceNaturalLanguageToSql(Get(body, "question").value.value.s,
                                                        SchemaText(tables, t, fmt), t.sfDatabase, t.sfSchema,
                                                        t.maxRowsPerQuery, reply, parse).requests
  {
    assert RequireAuth(Some(user), Analyst) == Authorized(user, user.tenantId);
  }

  /** A failed success-log write is caught like an execution error: the answer is the
      execution-error envelope carrying the write's message, and the error row is stored. */
  lemma ReferenceSuccessLogFailure(q: string, tenantId: string, userId: string, s: Json, explanation: Option<Json>,
                                   assumptions: Option<Json>, sent: seq<Translator.Request>, r: QueryResult,
                                   elapsed: int, write: nat -> Option<string>)
    requires write(0).Some? && write(1).None?
    ensures var o := ReferenceExecuted(q, tenantId, userId, s, explanation, assumptions, sent, Ok(r), elapsed, write);
      o.response == Answered(ExecErrorEnvelope(q, s, explanation, assumptions, write(0).value))
      && o.logged == [LogEntry(tenantId, userId, q, Some(s), None, None, None, Some(JStr(write(0).value)))]
  {
  }

  /** A failed write of the error row escapes to the outer handler: 500 with the store's
      message, nothing stored. */
  lemma ReferenceErrorLogFailure(q: string, tenantId: string, userId: string, s: Json, explanation: Option<Json>,
                                 assumptions: Option<Json>, sent: seq<Translator.Request>,
                                 executed: Result<QueryResult>, elapsed: int, write: nat -> Option<string>)
    requires write(0).Some? && (executed.Ok? ==> write(1).Some?)
    ensures var o := ReferenceExecuted(q, tenantId, userId, s, explanation, assumptions, sent, executed, elapsed, write);
      o.response == Refused(500, if executed.Ok? then write(1).value else write(0).value) && o.logged == []
  {
  }

  /** The reply the older translator parses, for a normalised translation. */
  function ReplyObject(t: Translation): Json {
    JObj(map["sql" := t.sql, "explanation" := t.explanation, "assumptions" := JArr(t.assumptions), "error" := t.error])
  }

  /** With every write accepted, the older route answers a translation exactly as the current
      route does: the same envelope in each of the four cases. */
  lemma ReferenceEnvelopesMatch(env: Env, body: Json, tenant: Option<Tenant>, count: Result<int>, t: Translation,
                                tenantId: string, userId: string, sent: seq<Translator.Request>,
                                executed: Result<QueryResult>, elapsed: int, write: nat -> Option<string>)
    requires body != JNull && ValidQuestion(Get(body, "question").value) && HistoryOk(Get(body, "conversationHistory").value)
    requires tenant.Some? ==> count.Ok? && count.value < tenant.value.dailyQueryLimit
    requires write(0).None?
    ensures ReferenceTranslated(Get(body, "question").value.value.s, Get(body, "execute").value, tenantId, userId,
                                Translator.Single(Ok(ReplyObject(t)), sent), executed, elapsed, write).response
            == Respond(env, Ok(body), tenant, count, Ok(t), executed, elapsed, write).response
  {
  }
}
