/** The system prompts the translators send: the template of the enhanced translator with the
    context, the qualified schema name and the row limit interpolated
    (lib/claude-enhanced.ts:247-294, reference-files/lib/claude-enhanced.ts:189-231), and the
    placeholder template of the plain translator filled by four first-occurrence replacements
    (lib/claude.ts:66-113, reference-files/lib/claude.ts:17-59). */
module Prompts {
  import opened Common
  import opened Text
  import opened Records

  // ---------------------------------------------------------------- enhanced translator

  const ENHANCED_INTRO :=
    "You are an expert SQL analyst that translates natural language questions "
    + "into Snowflake SQL queries.\nYou deeply understand the business context "
    + "and data model described below.\n\n"
  const ENHANCED_RULES_HEAD :=
    "\n\n## Rules\n\n1. ONLY generate SELECT statements. Never INSERT, UPDATE, "
    + "DELETE, DROP, CREATE, ALTER, or any DDL/DML.\n2. Always qualify table names: "
  const ENHANCED_QUALIFIER_TAIL :=
    ".\"TABLE_NAME\"\n3. Use double quotes around identifiers.\n4. Limit results "
    + "to "
  const ENHANCED_RULES_TAIL :=
    " rows unless the user specifies otherwise.\n5. Use meaningful column aliases "
    + "for aggregations (e.g. total_cost, member_count).\n6. When the user uses "
    + "business terms or synonyms, map them to the correct columns using the "
    + "metadata above.\n7. Respect the documented table grain \U{2014} don't accidentally "
    + "double-count by ignoring join cardinality.\n8. Apply common filters when "
    + "contextually appropriate (e.g. filter to PAID claims unless user asks "
    + "for all).\n9. Use the documented join paths when combining tables.\n10. "
    + "If a question is ambiguous, use the business glossary and column descriptions "
    + "to make the best interpretation, and note your assumptions.\n11. If you "
    + "genuinely cannot answer with the available schema, explain why.\n\n## Response "
    + "Format\n\n"
  const ENHANCED_FORMAT :=
    "CRITICAL: Respond with ONLY a JSON object. Do not include any text before "
    + "or after the JSON. Do not wrap in markdown code blocks. Do not add explanations "
    + "outside the JSON structure.\n\nFormat for successful queries:\n{\n    \"sql\": "
    + "\"YOUR SQL QUERY\",\n    \"explanation\": \"Brief explanation in plain English\",\n"
    + "    \"assumptions\": [\"any assumptions you made\"],\n    \"error\": null\n}\n\n"
    + "Format when you cannot generate SQL:\n{\n    \"sql\": null,\n    \"explanation\": "
    + "null,\n    \"assumptions\": [],\n    \"error\": \"Why the query cannot be generated\"\n"
    + "}\n\nExample valid response:\n{\"sql\": \"SELECT COUNT(*) as member_count FROM "
    + "DATABASE.SCHEMA.\"MEMBERS\" LIMIT 100\", \"explanation\": \"Counts total members\", "
    + "\"assumptions\": [\"All members in table\"], \"error\": null}"
  const ENHANCED_FORMAT_REFERENCE :=
    "Respond ONLY with valid JSON:\n{\n    \"sql\": \"YOUR SQL QUERY\",\n    \"explanation\": "
    + "\"Brief explanation in plain English\",\n    \"assumptions\": [\"any assumptions "
    + "you made\"],\n    \"error\": null\n}\n\nIf you cannot generate SQL:\n{\n    \"sql\": "
    + "null,\n    \"explanation\": null,\n    \"assumptions\": [],\n    \"error\": \"Why "
    + "the query cannot be generated\"\n}"

  /** `${n}` / `String(n)` of a number; None is NaN. */
  function NumberText(n: Option<int>): (r: string)
    ensures '{' !in r
  {
    if n.None? then "NaN"
    else
      var s := IntToString(n.value);
      assert forall i :: 0 <= i < |s| ==> s[i] == '-' || IsDigit(s[i]);
      s
  }

  /** The rules and format sections up to the format text, which the two versions share. */
  function EnhancedBody(context: string, database: string, schemaName: string, maxRows: Option<int>): string {
    ENHANCED_INTRO + context + ENHANCED_RULES_HEAD + database + "." + schemaName
    + ENHANCED_QUALIFIER_TAIL + NumberText(maxRows) + ENHANCED_RULES_TAIL
  }

  /** buildSystemPrompt of the enhanced translator. */
  function EnhancedSystemPrompt(context: string, database: string, schemaName: string, maxRows: Option<int>): string {
    EnhancedBody(context, database, schemaName, maxRows) + ENHANCED_FORMAT
  }

  /** The older buildSystemPrompt: the same rules, a shorter format section. */
  function EnhancedSystemPromptReference(context: string, database: string, schemaName: string, maxRows: Option<int>): string {
    EnhancedBody(context, database, schemaName, maxRows) + ENHANCED_FORMAT_REFERENCE
  }

  /** `p` starts with `intro`, which is followed by `context` and, after `head`, by `name`. */
  predicate Embeds(p: string, intro: string, context: string, head: string, name: string) {
    var k := |intro|;
    var q := k + |context| + |head|;
    && StartsWith(p, intro)
    && k + |context| <= |p| && p[k..k + |context|] == context
    && q + |name| <= |p| && p[q..q + |name|] == name
  }

  /** The context is embedded verbatim right after the introduction and the qualifying rule
      names `database.schemaName`. */
  lemma EnhancedPromptEmbeds(context: string, database: string, schemaName: string, maxRows: Option<int>)
    ensures Embeds(EnhancedSystemPrompt(context, database, schemaName, maxRows), ENHANCED_INTRO, context,
                   ENHANCED_RULES_HEAD, database + "." + schemaName + ENHANCED_QUALIFIER_TAIL)
  {
    BodyLayout(ENHANCED_INTRO, context, ENHANCED_RULES_HEAD, database, schemaName, ENHANCED_QUALIFIER_TAIL,
               NumberText(maxRows), ENHANCED_RULES_TAIL, ENHANCED_FORMAT);
  }

  /** The two versions of the enhanced prompt differ only after the rules. */
  lemma EnhancedVersionsShareBody(context: string, database: string, schemaName: string, maxRows: Option<int>)
    ensures var b := EnhancedBody(context, database, schemaName, maxRows);
      StartsWith(EnhancedSystemPrompt(context, database, schemaName, maxRows), b)
      && StartsWith(EnhancedSystemPromptReference(context, database, schemaName, maxRows), b)
  {
    var b := EnhancedBody(context, database, schemaName, maxRows);
    AppendEnds(b, ENHANCED_FORMAT);
    AppendEnds(b, ENHANCED_FORMAT_REFERENCE);
  }

  /** Where the introduction, the context and the qualified name sit in an interpolated prompt. */
  lemma BodyLayout(intro: string, context: string, head: string, database: string, schemaName: string,
                   tail: string, rows: string, rulesTail: string, format: string)
    ensures Embeds(intro + context + head + database + "." + schemaName + tail + rows + rulesTail + format,
                   intro, context, head, database + "." + schemaName + tail)
  {
    var p := intro + context + head + database + "." + schemaName + tail + rows + rulesTail + format;
    var name := database + "." + schemaName + tail;
    assert p == intro + context + head + name + (rows + rulesTail + format);
    assert p[..|intro|] == intro;
    assert p[|intro|..|intro| + |context|] == context;
    var q := |intro| + |context| + |head|;
    assert p[q..q + |name|] == name;
  }

  /** The row limit of the enhanced translator: the tenant's cap when truthy, else
      `parseInt(MAX_ROWS_PER_QUERY || "1000")`. */
  function PromptMaxRows(record: Option<Tenant>, env: Env): Option<int> {
    if record.Some? && record.value.maxRowsPerQuery != 0 then Some(record.value.maxRowsPerQuery)
    else ParseInt(EnvOr(env, "MAX_ROWS_PER_QUERY", "1000"))
  }

  /** A tenant cap of 0 is falsy and falls back like a missing tenant; with nothing set the
      limit is 1000. */
  lemma PromptMaxRowsFallback(t: Tenant, env: Env)
    ensures t.maxRowsPerQuery != 0 ==> PromptMaxRows(Some(t), env) == Some(t.maxRowsPerQuery)
    ensures t.maxRowsPerQuery == 0 ==> PromptMaxRows(Some(t), env) == PromptMaxRows(None, env)
    ensures !EnvSet(env, "MAX_ROWS_PER_QUERY") ==> PromptMaxRows(None, env) == Some(1000)
  {
    assert NatToString(1) == "1";
    assert NatToString(10) == "10";
    assert NatToString(100) == "100";
    assert NatToString(1000) == "1000";
    ParseIntOfIntToString(1000);
  }

  // ---------------------------------------------------------------- placeholder template

  const SCHEMA_SLOT := "{schema}"
  const DATABASE_SLOT := "{database}"
  const SCHEMA_NAME_SLOT := "{schema_name}"
  const MAX_ROWS_SLOT := "{max_rows}"

  // The texts before the last placeholder of the rules, in parts short enough for the absence
  // of '{' from each to be checked on its own.
  const INTRO_1 := "You are a SQL expert assistant "
  const INTRO_2 := "that translates natural "
  const INTRO_3 := "language questions into "
  const INTRO_4 := "Snowflake SQL queries.\n"
  const INTRO_5 := "\nYou have access to the "
  const INTRO_6 := "following database schema:\n\n"
  const TEMPLATE_INTRO := INTRO_1 + INTRO_2 + INTRO_3 + INTRO_4 + INTRO_5 + INTRO_6
  const HEAD_1 := "\n\nRules:\n1. ONLY generate "
  const HEAD_2 := "SELECT statements. Never "
  const HEAD_3 := "generate INSERT, UPDATE, "
  const HEAD_4 := "DELETE, DROP, CREATE, ALTER, "
  const HEAD_5 := "or any DDL/DML.\n2. Always "
  const HEAD_6 := "qualify table names with "
  const HEAD_7 := "the database and schema: "
  const TEMPLATE_RULES_HEAD := HEAD_1 + HEAD_2 + HEAD_3 + HEAD_4 + HEAD_5 + HEAD_6 + HEAD_7
  const QUALIFIER_1 := ".\"TABLE_NAME\"\n3. Use "
  const QUALIFIER_2 := "double quotes around table "
  const QUALIFIER_3 := "and column names.\n"
  const QUALIFIER_4 := "4. Limit results to "
  const TEMPLATE_QUALIFIER_TAIL := QUALIFIER_1 + QUALIFIER_2 + QUALIFIER_3 + QUALIFIER_4
  const TEMPLATE_RULES_TAIL :=
    " rows unless the user specifies otherwise.\n5. For aggregations, include "
    + "meaningful column aliases.\n6. If the question is ambiguous, make reasonable "
    + "assumptions and note them.\n7. If you cannot answer the question with the "
    + "available schema, explain why.\n\n"
  const TEMPLATE_FORMAT :=
    "CRITICAL: Respond with ONLY a JSON object. Do not include any text before "
    + "or after the JSON. Do not wrap in markdown code blocks. Do not add explanations "
    + "outside the JSON structure.\n\nFormat for successful queries:\n{\n    \"sql\": "
    + "\"YOUR SQL QUERY HERE\",\n    \"explanation\": \"Brief explanation of what the "
    + "query does\",\n    \"assumptions\": [\"any assumptions made\"],\n    \"error\": "
    + "null\n}\n\nFormat when you cannot generate a valid query:\n{\n    \"sql\": null,\n"
    + "    \"explanation\": null,\n    \"assumptions\": [],\n    \"error\": \"Explanation "
    + "of why\"\n}\n\nExample valid response:\n{\"sql\": \"SELECT * FROM "
  const TEMPLATE_EXAMPLE_MID := ".\"TABLE\" LIMIT "
  const TEMPLATE_EXAMPLE_END :=
    "\", \"explanation\": \"Retrieves all records\", \"assumptions\": [], \"error\": "
    + "null}"
  const TEMPLATE_FORMAT_REFERENCE :=
    "Respond ONLY with a JSON object in this exact format:\n{\n    \"sql\": \"YOUR "
    + "SQL QUERY HERE\",\n    \"explanation\": \"Brief explanation of what the query "
    + "does\",\n    \"assumptions\": [\"any assumptions made\"],\n    \"error\": null\n"
    + "}\n\nIf you cannot generate a valid query:\n{\n    \"sql\": null,\n    \"explanation\": "
    + "null,\n    \"assumptions\": [],\n    \"error\": \"Explanation of why\"\n}"

  /** Everything after the last rule: the format section, whose example line repeats three
      placeholders in the current version. */
  function TemplateTail(current: bool): string {
    if current then
      TEMPLATE_FORMAT + DATABASE_SLOT + "." + SCHEMA_NAME_SLOT + TEMPLATE_EXAMPLE_MID + MAX_ROWS_SLOT
      + TEMPLATE_EXAMPLE_END
    else TEMPLATE_FORMAT_REFERENCE
  }

  /** SYSTEM_PROMPT of lib/claude.ts (`current`) or of the older file. */
  function Template(current: bool): string {
    Pieces(TEMPLATE_INTRO, TEMPLATE_RULES_HEAD, TEMPLATE_QUALIFIER_TAIL, TEMPLATE_RULES_TAIL + TemplateTail(current),
           SCHEMA_SLOT, DATABASE_SLOT, SCHEMA_NAME_SLOT, MAX_ROWS_SLOT)
  }

  /** The layout the template shares with its filled form: four fixed texts around the schema
      text, `database.schema_name` and the row limit (grouped from the right, so that each
      placeholder heads the rest of the text). */
  function Pieces(t0: string, t1: string, t2: string, t3: string,
                  schema: string, database: string, schemaName: string, rows: string): string {
    t0 + (schema + (t1 + (database + ("." + (schemaName + (t2 + (rows + t3)))))))
  }

  /** The four replacements, in the source's order, each on its first occurrence. */
  function FillTemplate(current: bool, context: string, database: string, schemaName: string,
                        maxRows: Option<int>): string {
    Fill(Template(current), context, database, schemaName, NumberText(maxRows))
  }

  function Fill(template: string, context: string, database: string, schemaName: string, rows: string): string {
    var s := ReplaceFirst(template, SCHEMA_SLOT, context);
    var s := ReplaceFirst(s, DATABASE_SLOT, database);
    var s := ReplaceFirst(s, SCHEMA_NAME_SLOT, schemaName);
    ReplaceFirst(s, MAX_ROWS_SLOT, rows)
  }

  /** Replacing a '{'-led pattern in a text whose part before it has no '{' replaces exactly
      that occurrence. */
  lemma ReplaceAfterBraceFree(pre: string, pat: string, post: string, rep: string)
    requires |pat| > 0 && pat[0] == '{' && '{' !in pre
    ensures ReplaceFirst(pre + (pat + post), pat, rep) == pre + (rep + post)
  {
    ReplaceUnderPrefix(pre, pat + post, pat, rep);
    ReplaceAtHead(pat, post, rep);
  }

  /** The schema placeholder after a brace-free introduction. */
  lemma FillSchema(t0: string, r: string, context: string)
    requires '{' !in t0
    ensures ReplaceFirst(t0 + (SCHEMA_SLOT + r), SCHEMA_SLOT, context) == t0 + (context + r)
  {
    ReplaceAfterBraceFree(t0, SCHEMA_SLOT, r, context);
  }

  /** The database placeholder after the introduction, the schema text and the rules head. */
  lemma FillDatabase(t0: string, c: string, t1: string, r: string, database: string)
    requires '{' !in t0 && '{' !in c && '{' !in t1
    ensures ReplaceFirst(t0 + (c + (t1 + (DATABASE_SLOT + r))), DATABASE_SLOT, database)
         == t0 + (c + (t1 + (database + r)))
  {
    ReplaceUnderPrefix(t0, c + (t1 + (DATABASE_SLOT + r)), DATABASE_SLOT, database);
    ReplaceUnderPrefix(c, t1 + (DATABASE_SLOT + r), DATABASE_SLOT, database);
    ReplaceAfterBraceFree(t1, DATABASE_SLOT, r, database);
  }

  /** The schema-name placeholder after the database name and its dot. */
  lemma FillSchemaName(t0: string, c: string, t1: string, d: string, r: string, schemaName: string)
    requires '{' !in t0 && '{' !in c && '{' !in t1 && '{' !in d
    ensures ReplaceFirst(t0 + (c + (t1 + (d + ("." + (SCHEMA_NAME_SLOT + r))))), SCHEMA_NAME_SLOT, schemaName)
         == t0 + (c + (t1 + (d + ("." + (schemaName + r)))))
  {
    var tail := "." + (SCHEMA_NAME_SLOT + r);
    ReplaceUnderPrefix(t0, c + (t1 + (d + tail)), SCHEMA_NAME_SLOT, schemaName);
    ReplaceUnderPrefix(c, t1 + (d + tail), SCHEMA_NAME_SLOT, schemaName);
    ReplaceUnderPrefix(t1, d + tail, SCHEMA_NAME_SLOT, schemaName);
    ReplaceUnderPrefix(d, tail, SCHEMA_NAME_SLOT, schemaName);
    ReplaceAfterBraceFree(".", SCHEMA_NAME_SLOT, r, schemaName);
  }

  /** The row-limit placeholder after the qualifier. */
  lemma FillRows(t0: string, c: string, t1: string, d: string, n: string, t2: string, t3: string, rows: string)
    requires '{' !in t0 && '{' !in c && '{' !in t1 && '{' !in d && '{' !in n && '{' !in t2
    ensures ReplaceFirst(t0 + (c + (t1 + (d + ("." + (n + (t2 + (MAX_ROWS_SLOT + t3))))))), MAX_ROWS_SLOT, rows)
         == t0 + (c + (t1 + (d + ("." + (n + (t2 + (rows + t3)))))))
  {
    var tail := "." + (n + (t2 + (MAX_ROWS_SLOT + t3)));
    ReplaceUnderPrefix(t0, c + (t1 + (d + tail)), MAX_ROWS_SLOT, rows);
    ReplaceUnderPrefix(c, t1 + (d + tail), MAX_ROWS_SLOT, rows);
    ReplaceUnderPrefix(t1, d + tail, MAX_ROWS_SLOT, rows);
    ReplaceUnderPrefix(d, tail, MAX_ROWS_SLOT, rows);
    ReplaceUnderPrefix(".", n + (t2 + (MAX_ROWS_SLOT + t3)), MAX_ROWS_SLOT, rows);
    ReplaceUnderPrefix(n, t2 + (MAX_ROWS_SLOT + t3), MAX_ROWS_SLOT, rows);
    ReplaceAfterBraceFree(t2, MAX_ROWS_SLOT, t3, rows);
  }

  /** Filling a template whose fixed texts before the row limit have no '{', with texts that
      have none either, puts each text where its placeholder stood in the rules. */
  lemma FillPieces(t0: string, t1: string, t2: string, t3: string,
                   context: string, database: string, schemaName: string, rows: string)
    requires '{' !in t0 && '{' !in t1 && '{' !in t2
    requires '{' !in context && '{' !in database && '{' !in schemaName
    ensures Fill(Pieces(t0, t1, t2, t3, SCHEMA_SLOT, DATABASE_SLOT, SCHEMA_NAME_SLOT, MAX_ROWS_SLOT),
                 context, database, schemaName, rows)
            == Pieces(t0, t1, t2, t3, context, database, schemaName, rows)
  {
    var r2 := t2 + (MAX_ROWS_SLOT + t3);
    var r1 := "." + (SCHEMA_NAME_SLOT + r2);
    FillSchema(t0, t1 + (DATABASE_SLOT + r1), context);
    FillDatabase(t0, context, t1, r1, database);
    FillSchemaName(t0, context, t1, database, r2, schemaName);
    FillRows(t0, context, t1, database, schemaName, t2, t3, rows);
  }

  /** A character absent from two texts is absent from their concatenation. */
  lemma NotInAppend(c: char, a: string, b: string)
    requires c !in a && c !in b
    ensures c !in a + b
  {
  }

  lemma Intro1BraceFree()
    ensures '{' !in INTRO_1
  {
  }

  lemma Intro2BraceFree()
    ensures '{' !in INTRO_2
  {
  }

  lemma Intro3BraceFree()
    ensures '{' !in INTRO_3
  {
  }

  lemma Intro4BraceFree()
    ensures '{' !in INTRO_4
  {
  }

  lemma Intro5BraceFree()
    ensures '{' !in INTRO_5
  {
  }

  lemma Intro6BraceFree()
    ensures '{' !in INTRO_6
  {
  }

  lemma IntroBraceFree()
    ensures '{' !in TEMPLATE_INTRO
  {
    Intro1BraceFree();
    var p := INTRO_1;
    Intro2BraceFree();
    NotInAppend('{', p, INTRO_2);
    p := p + INTRO_2;
    Intro3BraceFree();
    NotInAppend('{', p, INTRO_3);
    p := p + INTRO_3;
    Intro4BraceFree();
    NotInAppend('{', p, INTRO_4);
    p := p + INTRO_4;
    Intro5BraceFree();
    NotInAppend('{', p, INTRO_5);
    p := p + INTRO_5;
    Intro6BraceFree();
    NotInAppend('{', p, INTRO_6);
    p := p + INTRO_6;
  }

  lemma Head1BraceFree()
    ensures '{' !in HEAD_1
  {
  }

  lemma Head2BraceFree()
    ensures '{' !in HEAD_2
  {
  }

  lemma Head3BraceFree()
    ensures '{' !in HEAD_3
  {
  }

  lemma Head4BraceFree()
    ensures '{' !in HEAD_4
  {
  }

  lemma Head5BraceFree()
    ensures '{' !in HEAD_5
  {
  }

  lemma Head6BraceFree()
    ensures '{' !in HEAD_6
  {
  }

  lemma Head7BraceFree()
    ensures '{' !in HEAD_7
  {
  }

  lemma RulesHeadBraceFree()
    ensures '{' !in TEMPLATE_RULES_HEAD
  {
    Head1BraceFree();
    var p := HEAD_1;
    Head2BraceFree();
    NotInAppend('{', p, HEAD_2);
    p := p + HEAD_2;
    Head3BraceFree();
    NotInAppend('{', p, HEAD_3);
    p := p + HEAD_3;
    Head4BraceFree();
    NotInAppend('{', p, HEAD_4);
    p := p + HEAD_4;
    Head5BraceFree();
    NotInAppend('{', p, HEAD_5);
    p := p + HEAD_5;
    Head6BraceFree();
    NotInAppend('{', p, HEAD_6);
    p := p + HEAD_6;
    Head7BraceFree();
    NotInAppend('{', p, HEAD_7);
    p := p + HEAD_7;
  }

  lemma Qualifier1BraceFree()
    ensures '{' !in QUALIFIER_1
  {
  }

  lemma Qualifier2BraceFree()
    ensures '{' !in QUALIFIER_2
  {
  }

  lemma Qualifier3BraceFree()
    ensures '{' !in QUALIFIER_3
  {
  }

  lemma Qualifier4BraceFree()
    ensures '{' !in QUALIFIER_4
  {
  }

  lemma QualifierTailBraceFree()
    ensures '{' !in TEMPLATE_QUALIFIER_TAIL
  {
    Qualifier1BraceFree();
    var p := QUALIFIER_1;
    Qualifier2BraceFree();
    NotInAppend('{', p, QUALIFIER_2);
    p := p + QUALIFIER_2;
    Qualifier3BraceFree();
    NotInAppend('{', p, QUALIFIER_3);
    p := p + QUALIFIER_3;
    Qualifier4BraceFree();
    NotInAppend('{', p, QUALIFIER_4);
    p := p + QUALIFIER_4;
  }


  /** With no '{' in the texts filled in, each placeholder is replaced where the rules name it:
      the schema text after the introduction, `database.schema_name` in the qualifying rule
      and the row limit in the limit rule; in the current version the placeholders of the
      example line stay as they are. */
  lemma FillTemplateSpec(current: bool, context: string, database: string, schemaName: string,
                         maxRows: Option<int>)
    requires '{' !in context && '{' !in database && '{' !in schemaName
    ensures FillTemplate(current, context, database, schemaName, maxRows)
      == Pieces(TEMPLATE_INTRO, TEMPLATE_RULES_HEAD, TEMPLATE_QUALIFIER_TAIL, TEMPLATE_RULES_TAIL + TemplateTail(current),
                context, database, schemaName, NumberText(maxRows))
  {
    IntroBraceFree();
    RulesHeadBraceFree();
    QualifierTailBraceFree();
    FillPieces(TEMPLATE_INTRO, TEMPLATE_RULES_HEAD, TEMPLATE_QUALIFIER_TAIL, TEMPLATE_RULES_TAIL + TemplateTail(current),
               context, database, schemaName, NumberText(maxRows));
  }

  /** A placeholder inside the schema text is replaced there instead: with `{database}` in a
      brace-free position of the context, the qualifying rule keeps its literal `{database}`. */
  lemma PlaceholderInContextCaptured(current: bool, before: string, after: string, database: string)
    requires '{' !in before
    ensures var t3 := TEMPLATE_RULES_TAIL + TemplateTail(current);
      var s1 := ReplaceFirst(Template(current), SCHEMA_SLOT, before + DATABASE_SLOT + after);
      ReplaceFirst(s1, DATABASE_SLOT, database)
      == Pieces(TEMPLATE_INTRO, TEMPLATE_RULES_HEAD, TEMPLATE_QUALIFIER_TAIL, t3,
                before + database + after, DATABASE_SLOT, SCHEMA_NAME_SLOT, MAX_ROWS_SLOT)
  {
    var t3 := TEMPLATE_RULES_TAIL + TemplateTail(current);
    IntroBraceFree();
    Captured(TEMPLATE_INTRO, TEMPLATE_RULES_HEAD, TEMPLATE_QUALIFIER_TAIL, t3, before, after, database);
  }

  lemma Captured(t0: string, t1: string, t2: string, t3: string, before: string, after: string, database: string)
    requires '{' !in t0 && '{' !in before
    ensures var s1 := ReplaceFirst(Pieces(t0, t1, t2, t3, SCHEMA_SLOT, DATABASE_SLOT, SCHEMA_NAME_SLOT, MAX_ROWS_SLOT),
                                   SCHEMA_SLOT, before + DATABASE_SLOT + after);
      ReplaceFirst(s1, DATABASE_SLOT, database)
      == Pieces(t0, t1, t2, t3, before + database + after, DATABASE_SLOT, SCHEMA_NAME_SLOT, MAX_ROWS_SLOT)
  {
    var r0 := t1 + (DATABASE_SLOT + ("." + (SCHEMA_NAME_SLOT + (t2 + (MAX_ROWS_SLOT + t3)))));
    FillSchema(t0, r0, before + DATABASE_SLOT + after);
    Regroup(before, DATABASE_SLOT, after, r0);
    AppendAssoc(DATABASE_SLOT, after, r0);
    ReplaceUnderPrefix(t0, before + (DATABASE_SLOT + (after + r0)), DATABASE_SLOT, database);
    ReplaceAfterBraceFree(before, DATABASE_SLOT, after + r0, database);
    Regroup(before, database, after, r0);
    AppendAssoc(database, after, r0);
  }

  /** The notice appended to the system prompt on the second attempt. */
  const RETRY_NOTICE :=
    "\n\nIMPORTANT: Your previous response was not valid JSON. Return ONLY a "
    + "JSON object with no other text, explanations, or markdown formatting."
}
