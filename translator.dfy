/** The translators: the conversation window the enhanced translator replays
    (lib/claude-enhanced.ts:321-351), the bounded retry loop both current translators run
    (lib/claude-enhanced.ts:353-381, lib/claude.ts:115-143), and the older single-shot
    translators (reference-files/lib/claude-enhanced.ts:235-277,
    reference-files/lib/claude.ts:47-84). The language model is an oracle `reply` from the
    attempt number to its answer; JSON.parse is the oracle `parse`. */
module Translator {
  import opened Common
  import opened Text
  import opened Json
  import opened Records
  import opened Extraction
  import opened Prompts
  import EnrichedContext

  datatype Role = User | Assistant

  datatype Message = Message(role: Role, content: string)

  /** What one call to the model sends; `temperature` is None when the call leaves it unset. */
  datatype Request = Request(system: string, messages: seq<Message>, maxTokens: int, temperature: Option<int>)

  /** The model's answer: a text block, a first block of another kind (read as ""), or a failed
      call, which the translators do not catch. */
  datatype Reply = TextReply(text: string) | OtherBlock | CallFailed(error: string)

  /** The translation an assistant entry of the history carries; "" stands for a falsy field. */
  datatype Answer = Answer(sql: string, explanation: string, error: string, rowCount: Option<int>)

  /** An entry of the client's conversation history. */
  datatype HistoryEntry =
    | UserEntry(text: string)
    | AssistantEntry(response: Option<Answer>)
    | OtherEntry

  const HISTORY_WINDOW := 6
  const MAX_ATTEMPTS := 2
  const MAX_TOKENS := 4096
  const REFERENCE_MAX_TOKENS := 2048
  const GIVE_UP_PREFIX := "Failed to parse response after 2 attempts. Last response: "
  const TENANT_NOT_FOUND := "Tenant not found"

  function ReplyText(r: Reply): string
    requires !r.CallFailed?
  {
    if r.TextReply? then r.text else ""
  }

  // ---------------------------------------------------------------- conversation window

  /** `history.slice(-6)`. */
  function Window(history: seq<HistoryEntry>): (w: seq<HistoryEntry>)
    ensures |w| == if |history| < HISTORY_WINDOW then |history| else HISTORY_WINDOW
    ensures history == history[..|history| - |w|] + w
  {
    if |history| > HISTORY_WINDOW then history[|history| - HISTORY_WINDOW..] else history
  }

  /** "Query returned N row(s)." */
  function RowsNote(n: int): string {
    "\n\nQuery returned " + IntToString(n) + " row" + (if n != 1 then "s" else "") + "."
  }

  /** How an earlier SQL answer is summarised: the statement, then its explanation when there
      is one, then the row count when it is defined. */
  function SqlSummary(a: Answer): string {
    "I generated this SQL:\n" + a.sql
    + (if a.explanation != "" then "\n\nExplanation: " + a.explanation else "")
    + (if a.rowCount.Some? then RowsNote(a.rowCount.value) else "")
  }

  /** The assistant turn replayed for an answer: its error when it has one, else its SQL
      summary when it has SQL, else nothing. */
  function Summary(a: Answer): string {
    if a.error != "" then "I encountered an error: " + a.error
    else if a.sql != "" then SqlSummary(a)
    else ""
  }

  /** The messages one history entry contributes (none or one). */
  function EntryMessages(e: HistoryEntry): seq<Message> {
    if e.UserEntry? && e.text != "" then [Message(User, e.text)]
    else if e.AssistantEntry? && e.response.Some? && Summary(e.response.value) != "" then
      [Message(Assistant, Summary(e.response.value))]
    else []
  }

  function HistoryMessages(entries: seq<HistoryEntry>): seq<Message> {
    if entries == [] then []
    else HistoryMessages(entries[..|entries| - 1]) + EntryMessages(entries[|entries| - 1])
  }

  /** The messages of every attempt: the replayed window, then the question. */
  function Messages(history: seq<HistoryEntry>, question: string): seq<Message> {
    HistoryMessages(Window(history)) + [Message(User, question)]
  }

  /** The builder as written: push each entry's summary, then the question. */
  method BuildMessages(history: seq<HistoryEntry>, question: string) returns (messages: seq<Message>)
    ensures messages == Messages(history, question)
  {
    var window := Window(history);
    messages := [];
    var i := 0;
    while i < |window|
      invariant 0 <= i <= |window|
      invariant messages == HistoryMessages(window[..i])
    {
      var entry := window[i];
      if entry.UserEntry? && entry.text != "" {
        messages := messages + [Message(User, entry.text)];
      } else if entry.AssistantEntry? && entry.response.Some? {
        var summary := Summary(entry.response.value);
        if summary != "" {
          messages := messages + [Message(Assistant, summary)];
        }
      }
      assert window[..i + 1][..i] == window[..i];
      i := i + 1;
    }
    assert window[..|window|] == window;
    messages := messages + [Message(User, question)];
  }

  /** Replaying entries one after another replays each in turn. */
  lemma {:induction false} HistoryMessagesAppend(a: seq<HistoryEntry>, b: seq<HistoryEntry>)
    ensures HistoryMessages(a + b) == HistoryMessages(a) + HistoryMessages(b)
    decreases |b|
  {
    if b == [] {
      assert a + b == a;
    } else {
      var init := b[..|b| - 1];
      assert (a + b)[..|a + b| - 1] == a + init;
      assert (a + b)[|a + b| - 1] == b[|b| - 1];
      HistoryMessagesAppend(a, init);
    }
  }

  /** Each entry contributes at most one message. */
  lemma {:induction false} HistoryMessagesBound(entries: seq<HistoryEntry>)
    ensures |HistoryMessages(entries)| <= |entries|
    decreases |entries|
  {
    if entries != [] {
      HistoryMessagesBound(entries[..|entries| - 1]);
    }
  }

  /** The question is always the last message, after at most six replayed turns, and entries
      older than the last six never reach the model. */
  lemma MessagesShape(older: seq<HistoryEntry>, recent: seq<HistoryEntry>, question: string)
    requires |recent| == HISTORY_WINDOW
    ensures var m := Messages(older + recent, question);
      && 1 <= |m| <= HISTORY_WINDOW + 1
      && m[|m| - 1] == Message(User, question)
      && m == HistoryMessages(recent) + [Message(User, question)]
  {
    var h := older + recent;
    assert Window(h) == recent by {
      assert h[|h| - HISTORY_WINDOW..] == recent;
    }
    HistoryMessagesBound(recent);
  }

  /** A user entry is copied verbatim exactly when its text is not empty; an assistant entry's
      error wins over its SQL; an answer with neither contributes nothing. */
  lemma EntryMessagesSpec(e: HistoryEntry)
    ensures e.UserEntry? ==> (EntryMessages(e) == if e.text != "" then [Message(User, e.text)] else [])
    ensures e.AssistantEntry? && e.response.Some? && e.response.value.error != "" ==>
      EntryMessages(e) == [Message(Assistant, "I encountered an error: " + e.response.value.error)]
    ensures e.AssistantEntry? && e.response.Some? && e.response.value.error == "" && e.response.value.sql == "" ==>
      EntryMessages(e) == []
    ensures e.OtherEntry? || (e.AssistantEntry? && e.response.None?) ==> EntryMessages(e) == []
  {
  }

  /** The SQL summary starts with the statement and ends with the row note when the row count
      is defined. */
  lemma SqlSummaryShape(a: Answer)
    ensures StartsWith(SqlSummary(a), "I generated this SQL:\n" + a.sql)
    ensures a.rowCount.Some? ==> EndsWith(SqlSummary(a), RowsNote(a.rowCount.value))
  {
    var head := "I generated this SQL:\n" + a.sql;
    var expl := if a.explanation != "" then "\n\nExplanation: " + a.explanation else "";
    var rows := if a.rowCount.Some? then RowsNote(a.rowCount.value) else "";
    Append3Starts(head, expl, rows);
    AppendEnds(head + expl, rows);
  }

  /** The row note is in the plural exactly when the count is not one. */
  lemma RowsNotePlural(n: int)
    ensures EndsWith(RowsNote(n), " rows.") <==> n != 1
  {
    var digits := "\n\nQuery returned " + IntToString(n);
    var note := RowsNote(n);
    if n != 1 {
      assert note == digits + " rows.";
      assert note[|digits|..] == " rows.";
    } else {
      assert note == digits + " row.";
      assert note[|note| - 2] == 'w';
    }
  }

  // ---------------------------------------------------------------- bounded retry

  /** The request of attempt `attempt`: the second one carries the JSON-only notice. */
  function AttemptRequest(system: string, messages: seq<Message>, attempt: nat): Request {
    Request(if attempt == 1 then system else system + RETRY_NOTICE, messages, MAX_TOKENS, Some(0))
  }

  /** The answer after two replies that do not parse. */
  function GiveUp(text: string): Translation {
    Translation(JNull, JNull, [], JStr(GIVE_UP_PREFIX + Take(text, 500)))
  }

  /** A run of a translator: its result (an Err is an exception) and the requests it sent. */
  datatype Run = Run(result: Result<Translation>, requests: seq<Request>)

  /** What extractJson does with a reply text: throws (Err), finds nothing (Ok(None)) or finds a
      translation. */
  type Extract = string -> Result<Option<Translation>>

  /** The outcome of an attempt whose call returned: the exception of the extraction, its
      translation, the give-up object when it was the last attempt, or Ok(None) to try again. */
  function Settle(text: string, extract: Extract, last: bool): (r: Result<Option<Translation>>)
    ensures r.Err? <==> extract(text).Err?
    ensures r.Err? ==> r.error == extract(text).error
    ensures extract(text).Ok? && extract(text).value.Some? ==> r == extract(text)
    ensures extract(text) == Ok(None) ==> r == if last then Ok(Some(GiveUp(text))) else Ok(None)
  {
    var parsed := extract(text);
    if parsed.Err? then Err(parsed.error)
    else if parsed.value.Some? then parsed
    else if last then Ok(Some(GiveUp(text)))
    else Ok(None)
  }

  /** Two attempts at most: the first reply that extracts is the result, a failed call or a
      throwing extraction ends the run, and two replies that do not extract give up with the
      second one's text. */
  function RetrySpec(system: string, messages: seq<Message>, reply: nat -> Reply, extract: Extract): Run
  {
    var first := AttemptRequest(system, messages, 1);
    if reply(1).CallFailed? then Run(Err(reply(1).error), [first])
    else
      var settled := Settle(ReplyText(reply(1)), extract, false);
      if settled.Err? then Run(Err(settled.error), [first])
      else if settled.value.Some? then Run(Ok(settled.value.value), [first])
      else
        var requests := [first, AttemptRequest(system, messages, 2)];
        if reply(2).CallFailed? then Run(Err(reply(2).error), requests)
        else
          var last := Settle(ReplyText(reply(2)), extract, true);
          if last.Err? then Run(Err(last.error), requests)
          else Run(Ok(last.value.value), requests)
  }

  /** The `while (attempt < maxAttempts)` loop. */
  method RetryLoop(system: string, messages: seq<Message>, reply: nat -> Reply, extract: Extract)
    returns (result: Result<Translation>, requests: seq<Request>)
    ensures Run(result, requests) == RetrySpec(system, messages, reply, extract)
  {
    requests := [];
    var attempt := 0;
    while attempt < MAX_ATTEMPTS
      invariant 0 <= attempt < MAX_ATTEMPTS
      invariant requests == seq(attempt, k requires 0 <= k < attempt => AttemptRequest(system, messages, k + 1))
      invariant attempt == 1 ==> !reply(1).CallFailed? && Settle(ReplyText(reply(1)), extract, false) == Ok(None)
      decreases MAX_ATTEMPTS - attempt
    {
      attempt := attempt + 1;
      requests := requests + [AttemptRequest(system, messages, attempt)];
      var answer := reply(attempt);
      if answer.CallFailed? {
        result := Err(answer.error);
        return;
      }
      var settled := Settle(ReplyText(answer), extract, attempt == MAX_ATTEMPTS);
      if settled.Err? {
        result := Err(settled.error);
        return;
      }
      if settled.value.Some? {
        result := Ok(settled.value.value);
        return;
      }
    }
    assert false;
  }

  /** At most two requests go out, all at temperature 0 with the same messages; only the second
      carries the notice, and it goes out only when the first reply extracted to nothing. */
  lemma RetryRequests(system: string, messages: seq<Message>, reply: nat -> Reply, extract: Extract)
    ensures var run := RetrySpec(system, messages, reply, extract);
      && 1 <= |run.requests| <= MAX_ATTEMPTS
      && run.requests[0].system == system
      && (forall k :: 0 <= k < |run.requests| ==>
            run.requests[k].messages == messages && run.requests[k].temperature == Some(0))
      && (|run.requests| == 2 <==>
            !reply(1).CallFailed? && extract(ReplyText(reply(1))) == Ok(None))
      && (|run.requests| == 2 ==> run.requests[1].system == system + RETRY_NOTICE)
  {
  }

  /** The first reply that extracts is returned as extracted. */
  lemma RetryReturnsFirstExtracted(system: string, messages: seq<Message>, reply: nat -> Reply,
                                   extract: Extract, x: Translation)
    ensures !reply(1).CallFailed? && extract(ReplyText(reply(1))) == Ok(Some(x)) ==>
      RetrySpec(system, messages, reply, extract).result == Ok(x)
    ensures (!reply(1).CallFailed? && extract(ReplyText(reply(1))) == Ok(None)
             && !reply(2).CallFailed? && extract(ReplyText(reply(2))) == Ok(Some(x))) ==>
      RetrySpec(system, messages, reply, extract).result == Ok(x)
  {
  }

  /** After two replies that extract to nothing the result carries no SQL, no assumptions and an
      error quoting the longest prefix of the last reply that fits in 500 UTF-16 code units. */
  lemma RetryGivesUp(system: string, messages: seq<Message>, reply: nat -> Reply, extract: Extract)
    requires !reply(1).CallFailed? && extract(ReplyText(reply(1))) == Ok(None)
    requires !reply(2).CallFailed? && extract(ReplyText(reply(2))) == Ok(None)
    ensures var run := RetrySpec(system, messages, reply, extract);
      var text := ReplyText(reply(2));
      && run.result.Ok?
      && run.result.value.sql == JNull && run.result.value.explanation == JNull
      && run.result.value.assumptions == []
      && run.result.value.error.JStr?
      && var e := run.result.value.error.s;
         StartsWith(e, GIVE_UP_PREFIX)
         && var cut := e[|GIVE_UP_PREFIX|..];
         cut == text[..|cut|] && Utf16Length(cut) <= 500
         && (|cut| < |text| ==> Utf16Length(text[..|cut| + 1]) > 500)
  {
    var text := ReplyText(reply(2));
    var e := GIVE_UP_PREFIX + Take(text, 500);
    assert e[..|GIVE_UP_PREFIX|] == GIVE_UP_PREFIX;
    assert e[|GIVE_UP_PREFIX|..] == Take(text, 500);
  }

  /** Exceptions are not retried: a failed call or a throwing extraction ends the run with its
      error, and every error of a run comes from one of them. */
  lemma RetryExceptionsPropagate(system: string, messages: seq<Message>, reply: nat -> Reply, extract: Extract)
    ensures reply(1).CallFailed? ==>
      RetrySpec(system, messages, reply, extract) == Run(Err(reply(1).error), [AttemptRequest(system, messages, 1)])
    ensures !reply(1).CallFailed? && extract(ReplyText(reply(1))).Err? ==>
      RetrySpec(system, messages, reply, extract)
      == Run(Err(extract(ReplyText(reply(1))).error), [AttemptRequest(system, messages, 1)])
    ensures RetrySpec(system, messages, reply, extract).result.Err? ==>
      var e := RetrySpec(system, messages, reply, extract).result.error;
      (reply(1).CallFailed? && e == reply(1).error)
      || (!reply(1).CallFailed? && extract(ReplyText(reply(1))).Err? && e == extract(ReplyText(reply(1))).error)
      || (reply(2).CallFailed? && e == reply(2).error)
      || (!reply(2).CallFailed? && extract(ReplyText(reply(2))).Err? && e == extract(ReplyText(reply(2))).error)
  {
  }

  // ---------------------------------------------------------------- the current translators

  /** extractJson as written, over the parse oracle, as the retry loop applies it to each reply:
      its exception escapes the loop. */
  function Extractor(parse: string -> Option<Json>): Extract {
    text => ExtractJsonAsWritten(text, parse)
  }

  /** extractJson with the fence check it lacks: it never throws. */
  function CorrectedExtractor(parse: string -> Option<Json>): Extract {
    text => Ok(ExtractJson(text, parse))
  }

  /** A first reply that is a fence and a one-line body, such as "```json {...}```", ends the run
      with the exception of extractJson as written and no retry, where the corrected extraction
      finds nothing and asks again. */
  lemma FencedReplyEndsRun(system: string, messages: seq<Message>, reply: nat -> Reply,
                           parse: string -> Option<Json>, body: string)
    requires reply(1) == TextReply(FENCE + body) && '\n' !in body
    ensures RetrySpec(system, messages, reply, Extractor(parse))
      == Run(Err(UNDEFINED_TRIM), [AttemptRequest(system, messages, 1)])
    ensures |RetrySpec(system, messages, reply, CorrectedExtractor(parse)).requests| == 2
  {
    var text := FENCE + body;
    FencedOneLinerThrows(body, parse);
    assert Extractor(parse)(text) == Err(UNDEFINED_TRIM);
    assert CorrectedExtractor(parse)(text) == Ok(None);
    RetryRequests(system, messages, reply, CorrectedExtractor(parse));
  }

  /** Where extractJson as written does not throw on a reply, the two extractions make the same
      run. */
  lemma RetryExtractorsAgree(system: string, messages: seq<Message>, reply: nat -> Reply,
                             parse: string -> Option<Json>)
    requires !reply(1).CallFailed? ==> ExtractJsonAsWritten(ReplyText(reply(1)), parse).Ok?
    requires !reply(2).CallFailed? ==> ExtractJsonAsWritten(ReplyText(reply(2)), parse).Ok?
    ensures RetrySpec(system, messages, reply, Extractor(parse))
      == RetrySpec(system, messages, reply, CorrectedExtractor(parse))
  {
    forall k | k in {1, 2} && !reply(k).CallFailed?
      ensures Extractor(parse)(ReplyText(reply(k))) == CorrectedExtractor(parse)(ReplyText(reply(k)))
    {
      ExtractAgreement(ReplyText(reply(k)), parse);
    }
  }

  /** The system prompt of enhancedNlToSql: database and schema fall back as in the context
      builder, the row limit as in PromptMaxRows. */
  function EnhancedSystem(record: Option<Tenant>, env: Env, context: string): string {
    EnhancedSystemPrompt(context, EnrichedContext.ContextDatabase(record, env),
                         EnrichedContext.ContextSchema(record, env), PromptMaxRows(record, env))
  }

  /** enhancedNlToSql: `record` is the tenant lookup (a failed lookup reads as none) and
      `context` what buildEnrichedContext returns or throws. */
  method EnhancedNlToSql(question: string, record: Option<Tenant>, env: Env, history: seq<HistoryEntry>,
                         context: Result<string>, reply: nat -> Reply, parse: string -> Option<Json>)
    returns (result: Result<Translation>, requests: seq<Request>)
    ensures context.Err? ==> result == Err(context.error) && requests == []
    ensures context.Ok? ==>
      Run(result, requests)
      == RetrySpec(EnhancedSystem(record, env, context.value), Messages(history, question), reply, Extractor(parse))
  {
    if context.Err? {
      return Err(context.error), [];
    }
    var system := EnhancedSystem(record, env, context.value);
    var messages := BuildMessages(history, question);
    result, requests := RetryLoop(system, messages, reply, Extractor(parse));
  }

  /** naturalLanguageToSql of lib/claude.ts: the filled template and the question as the only
      message, with the same retry. */
  method NaturalLanguageToSql(question: string, schemaContext: string, database: string, schemaName: string,
                              maxRows: int, reply: nat -> Reply, parse: string -> Option<Json>)
    returns (result: Result<Translation>, requests: seq<Request>)
    ensures Run(result, requests)
      == RetrySpec(FillTemplate(true, schemaContext, database, schemaName, Some(maxRows)),
                   [Message(User, question)], reply, Extractor(parse))
  {
    var system := FillTemplate(true, schemaContext, database, schemaName, Some(maxRows));
    result, requests := RetryLoop(system, [Message(User, question)], reply, Extractor(parse));
  }

  /** Every attempt of the plain translator sends only the question, with no history. */
  lemma PlainTranslatorSendsOnlyQuestion(system: string, question: string, reply: nat -> Reply, extract: Extract)
    ensures var run := RetrySpec(system, [Message(User, question)], reply, extract);
      forall k :: 0 <= k < |run.requests| ==> run.requests[k].messages == [Message(User, question)]
  {
    RetryRequests(system, [Message(User, question)], reply, extract);
  }

  // ---------------------------------------------------------------- the older translators

  /** One call, its parsed reply unchecked or the failure object. */
  datatype Single = Single(result: Result<Json>, requests: seq<Request>)

  /** The one request an older translator sends: the prompt, the question alone, the older
      token cap and no temperature. */
  predicate SentOnce(s: Single, system: string, question: string) {
    s.requests == [Request(system, [Message(User, question)], REFERENCE_MAX_TOKENS, None)]
  }

  function SingleShot(system: string, question: string, reply: Reply, parse: string -> Option<Json>,
                      prefix: string): (s: Single)
    ensures SentOnce(s, system, question)
    ensures s.result.Err? <==> reply.CallFailed?
    ensures !reply.CallFailed? ==>
      s.result == Ok(ReferenceParse(ReplyText(reply), parse, prefix))
  {
    var request := Request(system, [Message(User, question)], REFERENCE_MAX_TOKENS, None);
    if reply.CallFailed? then Single(Err(reply.error), [request])
    else Single(Ok(ReferenceParse(ReplyText(reply), parse, prefix)), [request])
  }

  /** The older enhancedNlToSql: its tenant lookup is not guarded, so a failed lookup is thrown
      as it is; no tenant is an error before anything else, the prompt takes the tenant's
      database, schema and row cap, and one call is made. */
  function ReferenceEnhancedNlToSql(question: string, lookup: Result<Option<Tenant>>, context: Result<string>,
                                    reply: Reply, parse: string -> Option<Json>): (s: Single)
    ensures lookup.Err? ==> s == Single(Err(lookup.error), [])
    ensures lookup == Ok(None) ==> s == Single(Err(TENANT_NOT_FOUND), [])
    ensures lookup.Ok? && lookup.value.Some? && context.Err? ==> s == Single(Err(context.error), [])
    ensures lookup.Ok? && lookup.value.Some? && context.Ok? ==>
      SentOnce(s, EnhancedSystemPromptReference(context.value, lookup.value.value.sfDatabase,
                                                lookup.value.value.sfSchema,
                                                Some(lookup.value.value.maxRowsPerQuery)), question)
  {
    if lookup.Err? then Single(Err(lookup.error), [])
    else if lookup.value.None? then Single(Err(TENANT_NOT_FOUND), [])
    else if context.Err? then Single(Err(context.error), [])
    else
      var t := lookup.value.value;
      SingleShot(EnhancedSystemPromptReference(context.value, t.sfDatabase, t.sfSchema, Some(t.maxRowsPerQuery)),
                 question, reply, parse, REFERENCE_PREFIX)
  }

  /** The older naturalLanguageToSql: the filled older template, one call. */
  function ReferenceNaturalLanguageToSql(question: string, schemaContext: string, database: string,
                                         schemaName: string, maxRows: int, reply: Reply,
                                         parse: string -> Option<Json>): (s: Single)
    ensures SentOnce(s, FillTemplate(false, schemaContext, database, schemaName, Some(maxRows)), question)
    ensures !reply.CallFailed? ==> s.result == Ok(ReferenceParse(ReplyText(reply), parse, REFERENCE_CLAUDE_PREFIX))
  {
    SingleShot(FillTemplate(false, schemaContext, database, schemaName, Some(maxRows)),
               question, reply, parse, REFERENCE_CLAUDE_PREFIX)
  }
}
