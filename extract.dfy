/** Reading the language model's reply as a translation: extractJson of the current translators
    (lib/claude-enhanced.ts:22-65, identical at lib/claude.ts:21-64) and the single-shot parse
    of the older ones (reference-files/lib/claude-enhanced.ts:259-275,
    reference-files/lib/claude.ts:68-83). `parse` stands for `JSON.parse`: None is a
    SyntaxError. */
module Extraction {
  import opened Common
  import opened Text
  import opened Json

  /** A validated translation. `sql`, `explanation` and `error` are null or a truthy value. */
  datatype Translation = Translation(sql: Json, explanation: Json, assumptions: seq<Json>, error: Json)

  /** The TypeError of `lines[lines.length - 1].trim()` on an empty array. */
  const UNDEFINED_TRIM := "Cannot read properties of undefined (reading 'trim')"
  const FENCE := "```"

  /** `o.key || null` on a parsed object. */
  function FieldOrNull(m: map<string, Json>, key: string): Json {
    OrNull(if key in m then Some(m[key]) else None)
  }

  /** The structural check and normalisation: an object with `explanation`, `assumptions` and
      at least one of `sql`/`error`; falsy fields become null and a non-array `assumptions`
      becomes empty. Null passes `typeof` but `in` on it throws inside the `try`, so it is
      refused like any other non-object. */
  function Normalize(parsed: Json): Option<Translation> {
    match parsed
    case JObj(m) =>
      if ("sql" in m || "error" in m) && "explanation" in m && "assumptions" in m then
        Some(Translation(FieldOrNull(m, "sql"), FieldOrNull(m, "explanation"),
                         if m["assumptions"].JArr? then m["assumptions"].items else [],
                         FieldOrNull(m, "error")))
      else None
    case _ => None
  }

  /** A parse is accepted exactly when it is an object with the three required keys; each field
      is then the parsed value when truthy and null otherwise, so `sql` and `error` can both be
      null. */
  lemma NormalizeSpec(parsed: Json)
    ensures Normalize(parsed).Some? <==>
      parsed.JObj? && ("sql" in parsed.fields || "error" in parsed.fields)
      && "explanation" in parsed.fields && "assumptions" in parsed.fields
    ensures Normalize(parsed).Some? ==>
      var t := Normalize(parsed).value;
      var m := parsed.fields;
      && (t.sql == JNull || ("sql" in m && t.sql == m["sql"] && Truthy(t.sql)))
      && ("sql" in m && Truthy(m["sql"]) ==> t.sql == m["sql"])
      && (t.error == JNull || ("error" in m && t.error == m["error"] && Truthy(t.error)))
      && ("error" in m && Truthy(m["error"]) ==> t.error == m["error"])
      && (t.explanation == JNull || t.explanation == m["explanation"])
      && (m["assumptions"].JArr? ==> t.assumptions == m["assumptions"].items)
      && (!m["assumptions"].JArr? ==> t.assumptions == [])
  {
  }

  /** `cleaned.match(/\{[\s\S]*\}/)?.[0] ?? cleaned`: from the first '{' to the last '}' when a
      '}' follows the first '{'. */
  function BraceSpan(s: string): (r: string)
    ensures |r| <= |s|
  {
    var f := IndexOf(s, '{');
    var l := LastIndexOf(s, '}');
    if 0 <= f < l then s[f..l + 1] else s
  }

  /** The first '{' of `pre + b`, when `pre` has none and `b` starts with one, is at `|pre|`. */
  lemma FirstOpenBrace(pre: string, b: string)
    requires '{' !in pre && b != [] && b[0] == '{'
    ensures IndexOf(pre + b, '{') == |pre|
  {
    AbsentBefore(pre, b, '{');
    assert (pre + b)[|pre|] == b[0];
    IndexOfIs(pre + b, '{', |pre|);
  }

  /** The last '}' of `a + post`, when `a` ends with one and `post` has none, ends `a`. */
  lemma LastCloseBrace(a: string, post: string)
    requires '}' !in post && a != [] && a[|a| - 1] == '}'
    ensures LastIndexOf(a + post, '}') == |a| - 1
  {
    AbsentAfter(a, post, '}');
    assert (a + post)[|a| - 1] == a[|a| - 1];
    LastIndexOfIs(a + post, '}', |a| - 1);
  }

  /** The slice is greedy: it runs from the first '{' to the last '}', whatever braces lie in
      between, not to the end of the first balanced object. */
  lemma GreedyBraceSpan(pre: string, mid: string, post: string)
    requires '{' !in pre && '}' !in post
    ensures BraceSpan(pre + ("{" + mid + "}") + post) == "{" + mid + "}"
  {
    var m := "{" + mid + "}";
    var s := pre + m + post;
    assert m[0] == '{' && m[|m| - 1] == '}';
    AppendAssoc(pre, m, post);
    FirstOpenBrace(pre, m + post);
    LastCloseBrace(pre + m, post);
    MiddleSlice(pre, m, post);
  }

  /** Text with no '{' is parsed as it is. */
  lemma NoBraceKeptWhole(s: string)
    requires '{' !in s
    ensures BraceSpan(s) == s
  {
  }

  /** The lines after the opening one, without the last when it trims to ```. */
  function DropClosingFence(lines: seq<string>): seq<string>
    requires lines != []
  {
    if Trim(lines[|lines| - 1]) == FENCE then lines[..|lines| - 1] else lines
  }

  /** The fence removal as written: drop the first line, drop the last line when it trims to
      ```, join and trim. With no newline there is no line left after the first, and reading
      the last line throws. */
  function StripFenceAsWritten(cleaned: string): Result<string> {
    var lines := Split(cleaned, '\n')[1..];
    if lines == [] then Err(UNDEFINED_TRIM) else Ok(Trim(Join(DropClosingFence(lines), "\n")))
  }

  /** The fence removal with the missing length check: None when nothing follows the opening
      line (the empty text that is left does not parse). */
  function StripFence(cleaned: string): Option<string> {
    var lines := Split(cleaned, '\n')[1..];
    if lines == [] then None else Some(Trim(Join(DropClosingFence(lines), "\n")))
  }

  /** The brace span of the unfenced text, parsed and checked: null when it does not parse or
      fails the structural check. */
  function ParseSpan(stripped: string, parse: string -> Option<Json>): Option<Translation> {
    match parse(BraceSpan(stripped))
    case None => None
    case Some(v) => Normalize(v)
  }

  /** The fence step as written: a reply starting with ``` loses its fence lines. */
  function UnfenceAsWritten(cleaned: string): Result<string> {
    if StartsWith(cleaned, FENCE) then StripFenceAsWritten(cleaned) else Ok(cleaned)
  }

  /** The fence step with the length check. */
  function Unfence(cleaned: string): Option<string> {
    if StartsWith(cleaned, FENCE) then StripFence(cleaned) else Some(cleaned)
  }

  /** extractJson as written; an Err is the exception it throws. */
  function ExtractJsonAsWritten(text: string, parse: string -> Option<Json>): Result<Option<Translation>> {
    var cleaned := Trim(text);
    if cleaned == [] then Ok(None)
    else
      var stripped := UnfenceAsWritten(cleaned);
      if stripped.Err? then Err(stripped.error) else Ok(ParseSpan(stripped.value, parse))
  }

  /** extractJson with the length check: null when the reply is blank, when nothing follows an
      opening fence line, when the span does not parse, or when the parse fails the structural
      check. */
  function ExtractJson(text: string, parse: string -> Option<Json>): Option<Translation> {
    var cleaned := Trim(text);
    if cleaned == [] then None
    else
      var stripped := Unfence(cleaned);
      if stripped.None? then None else ParseSpan(stripped.value, parse)
  }

  /** The fence removals differ only where nothing follows the opening line, which is exactly
      when the text has no newline. */
  lemma StripFenceAgreement(cleaned: string)
    ensures StripFenceAsWritten(cleaned).Err? <==> '\n' !in cleaned
    ensures StripFenceAsWritten(cleaned).Err? ==> StripFence(cleaned).None?
    ensures StripFenceAsWritten(cleaned).Ok? ==> StripFence(cleaned) == Some(StripFenceAsWritten(cleaned).value)
  {
    SplitSingleIff(cleaned, '\n');
  }

  /** The fence steps differ only on a fenced text with no newline. */
  lemma UnfenceAgreement(cleaned: string)
    ensures UnfenceAsWritten(cleaned).Err? ==>
      StartsWith(cleaned, FENCE) && '\n' !in cleaned && Unfence(cleaned).None?
    ensures UnfenceAsWritten(cleaned).Ok? ==> Unfence(cleaned) == Some(UnfenceAsWritten(cleaned).value)
  {
    if StartsWith(cleaned, FENCE) {
      StripFenceAgreement(cleaned);
    }
  }

  /** The two agree on every reply except a fenced one with no newline, where the version as
      written throws and the corrected one gives null. */
  lemma ExtractAgreement(text: string, parse: string -> Option<Json>)
    ensures ExtractJsonAsWritten(text, parse).Err? ==>
      StartsWith(Trim(text), FENCE) && '\n' !in Trim(text) && ExtractJson(text, parse).None?
    ensures ExtractJsonAsWritten(text, parse).Ok? ==>
      ExtractJsonAsWritten(text, parse).value == ExtractJson(text, parse)
  {
    UnfenceAgreement(Trim(text));
  }

  /** A reply that is a fence followed by anything on the same line, such as
      "```json {\"sql\": \"SELECT 1\"}```", makes extractJson as written throw instead of
      returning null, so the second attempt never runs. */
  lemma FencedOneLinerThrows(body: string, parse: string -> Option<Json>)
    requires '\n' !in body
    ensures ExtractJsonAsWritten(FENCE + body, parse) == Err(UNDEFINED_TRIM)
    ensures ExtractJson(FENCE + body, parse) == None
  {
    var text := FENCE + body;
    TrimKeepsPrefix(text, 3);
    var cleaned := Trim(text);
    assert cleaned[..3] == FENCE;
    assert '\n' !in text;
    assert TrimStart(text) == text;
    assert cleaned == text[..|cleaned|];
    assert '\n' !in cleaned;
    SplitNoSeparator(cleaned, '\n');
  }

  /** A blank reply is null. */
  lemma BlankReplyIsNull(text: string, parse: string -> Option<Json>)
    requires AllWhitespace(text)
    ensures ExtractJson(text, parse) == None
  {
    TrimEmptyIff(text);
  }

  /** The lines after a newline-free first line are the joined lines again. */
  lemma LinesAfterFirst(first: string, lines: seq<string>)
    requires '\n' !in first && |lines| >= 1
    requires forall i :: 0 <= i < |lines| ==> '\n' !in lines[i]
    ensures Split(first + "\n" + Join(lines, "\n"), '\n')[1..] == lines
  {
    SplitCons(first, '\n', Join(lines, "\n"));
    SplitJoin(lines, '\n');
  }

  /** StripFence on a text whose lines after the first are known. */
  lemma StripFenceOfLines(s: string, lines: seq<string>)
    requires Split(s, '\n')[1..] == lines && lines != []
    ensures StripFence(s) == Some(Trim(Join(DropClosingFence(lines), "\n")))
  {
  }

  /** Appending a newline-free line keeps every line newline-free. */
  lemma AppendLineNoNewline(body: seq<string>, close: string)
    requires '\n' !in close && forall i :: 0 <= i < |body| ==> '\n' !in body[i]
    ensures forall i :: 0 <= i < |body + [close]| ==> '\n' !in (body + [close])[i]
  {
  }

  /** A fenced reply: the opening line goes, a closing line that trims to ``` goes, and the
      lines in between are joined and trimmed. */
  lemma FenceUnwrapped(first: string, body: seq<string>, close: string)
    requires '\n' !in first && '\n' !in close
    requires forall i :: 0 <= i < |body| ==> '\n' !in body[i]
    ensures Trim(close) == FENCE ==>
      StripFence(first + "\n" + Join(body + [close], "\n")) == Some(Trim(Join(body, "\n")))
    ensures Trim(close) != FENCE ==>
      StripFence(first + "\n" + Join(body + [close], "\n")) == Some(Trim(Join(body + [close], "\n")))
  {
    var lines := body + [close];
    AppendLineNoNewline(body, close);
    LinesAfterFirst(first, lines);
    assert lines[|lines| - 1] == close && lines[..|lines| - 1] == body;
    StripFenceOfLines(first + "\n" + Join(lines, "\n"), lines);
  }

  /** `s.replace(/```\s*$/, "")`: a fence followed only by whitespace at the very end is
      removed together with that whitespace. */
  function StripTrailingFence(s: string): (r: string)
    ensures EndsWith(TrimEnd(s), FENCE) ==> r == TrimEnd(s)[..|TrimEnd(s)| - 3]
    ensures !EndsWith(TrimEnd(s), FENCE) ==> r == s
  {
    var t := TrimEnd(s);
    if EndsWith(t, FENCE) then s[..|t| - 3] else s
  }

  /** The older fence rule on the trimmed reply: when it starts with ```, keep only the second
      line (or everything when that line is missing or empty), then strip a trailing fence. */
  function ReferenceStrip(cleaned: string): string {
    if StartsWith(cleaned, FENCE) then
      var parts := Split(cleaned, '\n');
      var second := if |parts| >= 2 && parts[1] != "" then parts[1] else cleaned;
      StripTrailingFence(second)
    else cleaned
  }

  /** A fenced reply with a non-empty second line is cut to that line. */
  lemma ReferenceStripSecond(s: string)
    requires StartsWith(s, FENCE)
    requires |Split(s, '\n')| >= 2 && Split(s, '\n')[1] != ""
    ensures ReferenceStrip(s) == StripTrailingFence(Split(s, '\n')[1])
  {
  }

  /** The second line of `first \n second \n rest` is `second`. */
  lemma SecondLineOf(first: string, second: string, rest: string)
    requires '\n' !in first && '\n' !in second
    ensures |Split(first + "\n" + (second + "\n" + rest), '\n')| >= 2
    ensures Split(first + "\n" + (second + "\n" + rest), '\n')[1] == second
  {
    SplitCons(second, '\n', rest);
    SplitCons(first, '\n', second + "\n" + rest);
  }

  /** The older rule cuts a fenced reply to its second line: a JSON object spread over several
      lines is parsed from its first line alone. */
  lemma ReferenceKeepsSecondLine(first: string, second: string, rest: string)
    requires StartsWith(first, FENCE) && '\n' !in first && '\n' !in second && second != ""
    ensures ReferenceStrip(first + "\n" + (second + "\n" + rest)) == StripTrailingFence(second)
  {
    var tail := second + "\n" + rest;
    var s := first + "\n" + tail;
    SecondLineOf(first, second, rest);
    assert s == first + ("\n" + tail);
    StartsWithAppend(first, "\n" + tail, FENCE);
    ReferenceStripSecond(s);
  }

  /** The object the older translators return when the reply does not parse. */
  function FailureObject(message: string): Json {
    JObj(map["sql" := JNull, "explanation" := JNull, "assumptions" := JArr([]), "error" := JStr(message)])
  }

  const REFERENCE_PREFIX := "Failed to parse response: "
  const REFERENCE_CLAUDE_PREFIX := "Failed to parse Claude response: "

  /** The older single-shot parse: whatever JSON.parse returns, unchecked, or the failure object
      with the first 300 characters of the reply after `prefix`. */
  function ReferenceParse(text: string, parse: string -> Option<Json>, prefix: string): (r: Json)
    ensures parse(ReferenceStrip(Trim(text))).Some? ==> r == parse(ReferenceStrip(Trim(text))).value
    ensures parse(ReferenceStrip(Trim(text))).None? ==> r == FailureObject(prefix + Take(text, 300))
  {
    match parse(ReferenceStrip(Trim(text)))
    case Some(v) => v
    case None => FailureObject(prefix + Take(text, 300))
  }
}
