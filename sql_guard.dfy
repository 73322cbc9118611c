/** The read-only filter every statement passes before it reaches a warehouse connection
    (lib/snowflake.ts, executeQuery): a prefix rule on the trimmed, upper-cased text, then a
    whole-word, case-insensitive search for eleven write/DDL keywords in the raw text. */
module SqlGuard {
  import opened Common
  import opened Text

  const PREFIX_ERROR := "Only SELECT queries are allowed."
  const KEYWORD_ERROR := "Query contains forbidden keyword: "

  /** The keywords in the order the filter tries them. */
  const DANGER_KEYWORDS: seq<string> :=
    ["INSERT", "UPDATE", "DELETE", "DROP", "CREATE", "ALTER",
     "TRUNCATE", "EXEC", "EXECUTE", "GRANT", "REVOKE"]

  datatype Verdict = Allowed | Rejected(message: string)

  /** The prefix rule: the trimmed, upper-cased statement starts with SELECT or WITH. */
  predicate PassesPrefixRule(sql: string) {
    var normalized := ToUpper(Trim(sql));
    StartsWith(normalized, "SELECT") || StartsWith(normalized, "WITH")
  }

  /** `\w` of a JavaScript regular expression without the `u` flag. */
  predicate IsWordChar(c: char) {
    'A' <= c <= 'Z' || 'a' <= c <= 'z' || '0' <= c <= '9' || c == '_'
  }

  /** `kw` (an upper-case ASCII word) matches `/\bkw\b/i` at position `i` of `text`. */
  predicate WordAt(text: string, kw: string, i: int) {
    0 <= i && i + |kw| <= |text|
    && (forall j :: 0 <= j < |kw| ==> FoldAscii(text[i + j]) == kw[j])
    && (i == 0 || !IsWordChar(text[i - 1]))
    && (i + |kw| == |text| || !IsWordChar(text[i + |kw|]))
  }

  /** `/\bkw\b/i.test(text)`. */
  ghost predicate ContainsWord(text: string, kw: string) {
    exists i :: WordAt(text, kw, i)
  }

  /** The regular-expression search from position `i` onwards. */
  predicate WordFrom(text: string, kw: string, i: nat)
    decreases |text| - i
  {
    i + |kw| <= |text| && (WordAt(text, kw, i) || WordFrom(text, kw, i + 1))
  }

  lemma {:induction false} WordFromIff(text: string, kw: string, i: nat)
    ensures WordFrom(text, kw, i) <==> exists j :: i <= j && WordAt(text, kw, j)
    decreases |text| - i
  {
    if i + |kw| <= |text| {
      WordFromIff(text, kw, i + 1);
      if exists j :: i <= j && WordAt(text, kw, j) {
        var j :| i <= j && WordAt(text, kw, j);
        assert j == i || (i + 1 <= j && WordAt(text, kw, j));
      }
    }
  }

  /** The first keyword of `kws` that occurs in `text` as a whole word. */
  function FirstWord(text: string, kws: seq<string>): (r: Option<string>)
    ensures r.Some? ==> r.value in kws && ContainsWord(text, r.value)
    ensures r.None? <==> forall k :: 0 <= k < |kws| ==> !ContainsWord(text, kws[k])
  {
    if kws == [] then None
    else if WordFrom(text, kws[0], 0) then (WordFromIff(text, kws[0], 0); Some(kws[0]))
    else (WordFromIff(text, kws[0], 0); FirstWord(text, kws[1..]))
  }

  /** The verdict of the filter, as a specification. */
  function Check(sql: string): Verdict {
    if !PassesPrefixRule(sql) then Rejected(PREFIX_ERROR)
    else match FirstWord(sql, DANGER_KEYWORDS)
      case None => Allowed
      case Some(kw) => Rejected(KEYWORD_ERROR + kw)
  }

  /** The keyword loop: tries each keyword in list order and stops at the first one whose
      whole-word pattern matches (the filter passes DANGER_KEYWORDS). */
  method FindForbiddenKeyword(sql: string, keywords: seq<string>) returns (found: Option<string>)
    ensures found == FirstWord(sql, keywords)
  {
    var k := 0;
    assert keywords[0..] == keywords;
    while k < |keywords|
      invariant 0 <= k <= |keywords|
      invariant FirstWord(sql, keywords) == FirstWord(sql, keywords[k..])
    {
      var kw := keywords[k];
      if WordFrom(sql, kw, 0) {
        return Some(kw);
      }
      assert keywords[k..][1..] == keywords[k + 1..];
      k := k + 1;
    }
    return None;
  }

  /** The filter as the source runs it: the prefix test, then the keyword loop. */
  method Validate(sql: string) returns (v: Verdict)
    ensures v == Check(sql)
  {
    var normalized := ToUpper(Trim(sql));
    if !StartsWith(normalized, "SELECT") && !StartsWith(normalized, "WITH") {
      return Rejected(PREFIX_ERROR);
    }
    var found := FindForbiddenKeyword(sql, DANGER_KEYWORDS);
    if found.Some? {
      return Rejected(KEYWORD_ERROR + found.value);
    }
    return Allowed;
  }

  /** A statement is allowed exactly when it passes the prefix rule and none of the eleven
      keywords occurs in it as a whole word. */
  lemma CheckAllowedIff(sql: string)
    ensures Check(sql) == Allowed <==>
      PassesPrefixRule(sql) && forall k :: 0 <= k < |DANGER_KEYWORDS| ==> !ContainsWord(sql, DANGER_KEYWORDS[k])
  {
  }

  /** The keyword a rejection names is the first one, in list order, that occurs. */
  lemma {:induction false} FirstWordIsFirst(text: string, kws: seq<string>, k: nat)
    requires k < |kws| && ContainsWord(text, kws[k])
    requires forall e :: 0 <= e < k ==> !ContainsWord(text, kws[e])
    ensures FirstWord(text, kws) == Some(kws[k])
  {
    WordFromIff(text, kws[0], 0);
    if k > 0 {
      assert forall e :: 0 <= e < k - 1 ==> kws[1..][e] == kws[e + 1];
      FirstWordIsFirst(text, kws[1..], k - 1);
    }
  }

  /** Once the prefix rule passes, the message names the first keyword in list order that
      occurs as a whole word. */
  lemma CheckNamesFirstKeyword(sql: string, k: nat)
    requires PassesPrefixRule(sql)
    requires k < |DANGER_KEYWORDS| && ContainsWord(sql, DANGER_KEYWORDS[k])
    requires forall e :: 0 <= e < k ==> !ContainsWord(sql, DANGER_KEYWORDS[e])
    ensures Check(sql) == Rejected(KEYWORD_ERROR + DANGER_KEYWORDS[k])
  {
    FirstWordIsFirst(sql, DANGER_KEYWORDS, k);
  }

  /** A keyword, in any ASCII letter case, between two non-word neighbours (or the ends of the
      text) is found: "'x'; delete from t" and "\"UPDATE\"" are caught. */
  lemma {:induction false} KeywordBetweenSeparatorsFound(before: string, w: string, after: string, kw: string)
    requires |w| == |kw| && forall j :: 0 <= j < |w| ==> FoldAscii(w[j]) == kw[j]
    requires before == [] || !IsWordChar(before[|before| - 1])
    requires after == [] || !IsWordChar(after[0])
    ensures ContainsWord(before + w + after, kw)
  {
    var text := before + w + after;
    assert forall j :: 0 <= j < |w| ==> text[|before| + j] == w[j];
    assert WordAt(text, kw, |before|);
  }

  /** A statement that passes the prefix rule but holds a keyword between separators is
      rejected. */
  lemma InjectedKeywordRejected(before: string, w: string, after: string, k: nat)
    requires k < |DANGER_KEYWORDS|
    requires |w| == |DANGER_KEYWORDS[k]| && forall j :: 0 <= j < |w| ==> FoldAscii(w[j]) == DANGER_KEYWORDS[k][j]
    requires before == [] || !IsWordChar(before[|before| - 1])
    requires after == [] || !IsWordChar(after[0])
    ensures Check(before + w + after).Rejected?
  {
    KeywordBetweenSeparatorsFound(before, w, after, DANGER_KEYWORDS[k]);
  }

  /** A keyword glued to a word character on either side (CREATE_DATE, DESCRIPTION-like
      identifiers) is not a match at that position. */
  lemma GluedKeywordNotMatched(text: string, kw: string, i: int)
    requires |kw| > 0 && 0 <= i && i + |kw| <= |text|
    requires (0 < i && IsWordChar(text[i - 1])) || (i + |kw| < |text| && IsWordChar(text[i + |kw|]))
    ensures !WordAt(text, kw, i)
  {
  }

  /** The prefix test is a plain prefix test: any text starting with WITH passes it, so
      "WITHDRAW ..." does too. */
  lemma PlainPrefixPasses(sql: string)
    requires |sql| >= 4 && sql[..4] == "WITH"
    ensures PassesPrefixRule(sql)
  {
    ToUpperAscii(sql[..4]);
    UpperTrimStartsWith(sql, 4, "WITH");
  }

  /** Upper-casing can lengthen the text: U+1E97 (t with diaeresis) upper-cases to T and a
      combining diaeresis, so "selec\U{1E97} ..." passes the prefix rule. */
  lemma SpecialCasingSelectPasses(rest: string)
    ensures PassesPrefixRule("selec\U{1E97}" + rest)
  {
    SpecialCasingHead("selec\U{1E97}", rest, "SELECT");
  }

  /** The same for WITH: "wit\U{1E96}" upper-cases to WITH followed by a combining line below. */
  lemma SpecialCasingWithPasses(rest: string)
    ensures PassesPrefixRule("wit\U{1E96}" + rest)
  {
    SpecialCasingHead("wit\U{1E96}", rest, "WITH");
  }

  /** A head `h` of ASCII characters ending in one character whose upper case supplies the last
      letter of `kw` passes the prefix test for `kw`. */
  lemma SpecialCasingHead(h: string, rest: string, kw: string)
    requires |h| == |kw| > 0
    requires |UpperChar(h[|h| - 1])| > 0 && UpperChar(h[|h| - 1])[0] == kw[|h| - 1] && !IsWhitespace(h[|h| - 1])
    requires forall i :: 0 <= i < |h| - 1 ==> h[i] < '\U{80}' && FoldAscii(h[i]) == kw[i] && !IsWhitespace(h[i])
    ensures StartsWith(ToUpper(Trim(h + rest)), kw)
  {
    var w, c := h[..|h| - 1], h[|h| - 1];
    assert h == w + [c];
    assert (h + rest)[..|h|] == h;
    ToUpperAscii(w);
    ToUpperOne(c);
    ToUpperAppend(w, [c]);
    var u := ToUpper(h);
    assert forall i :: 0 <= i < |kw| ==> u[i] == kw[i];
    assert u[..|kw|] == kw;
    UpperTrimStartsWith(h + rest, |h|, kw);
  }

  /** A statement that starts with a keyword is rejected by the prefix rule, before any keyword
      is looked for: "DROP TABLE T" is reported as not a SELECT. */
  lemma LeadingDropFailsPrefixRule(sql: string)
    requires |sql| >= 4 && sql[..4] == "DROP"
    ensures Check(sql) == Rejected(PREFIX_ERROR)
  {
    LeadingDropNotSelect(sql);
  }

  lemma LeadingDropNotSelect(sql: string)
    requires |sql| >= 4 && sql[..4] == "DROP"
    ensures !PassesPrefixRule(sql)
  {
    ToUpperAscii(sql[..1]);
    UpperTrimStartsWith(sql, 1, "D");
  }
}
