/** String operations of the JavaScript runtime that the query pipeline relies on:
    trim, upper-casing, split/join on a separator, substring search and replacement,
    slicing, UTF-16 length and integer <-> decimal text. */
module Text {
  import opened Common

  /** The characters JavaScript's `trim` removes: WhiteSpace and LineTerminator code points. */
  predicate IsWhitespace(c: char) {
    c == ' ' || c == '\t' || c == '\n' || c == '\r' || c == '\U{B}' || c == '\U{C}'
    || c == '\U{A0}' || c == '\U{FEFF}' || c == '\U{1680}' || ('\U{2000}' <= c <= '\U{200A}')
    || c == '\U{2028}' || c == '\U{2029}' || c == '\U{202F}' || c == '\U{205F}' || c == '\U{3000}'
  }

  predicate AllWhitespace(s: string) {
    forall i :: 0 <= i < |s| ==> IsWhitespace(s[i])
  }

  /** `s.trimStart()`: the suffix left after dropping leading whitespace. */
  function TrimStart(s: string): (r: string)
    ensures |r| <= |s| && r == s[|s| - |r|..]
    ensures r == [] || !IsWhitespace(r[0])
    ensures AllWhitespace(s[..|s| - |r|])
  {
    if s != [] && IsWhitespace(s[0]) then TrimStart(s[1..]) else s
  }

  /** `s.trimEnd()`: the prefix left after dropping trailing whitespace. */
  function TrimEnd(s: string): (r: string)
    ensures |r| <= |s| && r == s[..|r|]
    ensures r == [] || !IsWhitespace(r[|r| - 1])
    ensures AllWhitespace(s[|r|..])
  {
    if s != [] && IsWhitespace(s[|s| - 1]) then TrimEnd(s[..|s| - 1]) else s
  }

  /** `s.trim()`. */
  function Trim(s: string): string {
    TrimEnd(TrimStart(s))
  }

  /** A text trims to the empty string exactly when it is all whitespace. */
  lemma TrimEmptyIff(s: string)
    ensures Trim(s) == [] <==> AllWhitespace(s)
  {
    var t := TrimStart(s);
    if Trim(s) == [] {
      assert s == s[..|s| - |t|] + t;
      assert AllWhitespace(t[|TrimEnd(t)|..]);
    }
  }

  /** Trimming keeps every position that holds a non-whitespace character. */
  lemma TrimEndKeeps(s: string, i: nat)
    requires i < |s| && !IsWhitespace(s[i])
    ensures i < |TrimEnd(s)|
  {
    var r := TrimEnd(s);
    assert forall j :: |r| <= j < |s| ==> IsWhitespace(s[j]) by {
      forall j | |r| <= j < |s| ensures IsWhitespace(s[j]) {
        assert s[|r|..][j - |r|] == s[j];
      }
    }
  }

  /** A text that starts with a non-whitespace word keeps that word at the front when trimmed. */
  lemma TrimKeepsPrefix(s: string, n: nat)
    requires 0 < n <= |s| && forall j :: 0 <= j < n ==> !IsWhitespace(s[j])
    ensures n <= |Trim(s)| && Trim(s)[..n] == s[..n]
  {
    assert TrimStart(s) == s;
    TrimEndKeeps(s, n - 1);
  }

  /** Upper case of one character as JavaScript's `toUpperCase` gives it, for ASCII, Latin-1,
      U+0131 (dotless i), U+017F (long s) and the special casings whose expansion starts with
      a Latin letter (ß, ŉ, ǰ, U+1E96 to U+1E9A and the ligatures U+FB00 to U+FB06). Every
      other character is kept. */
  function UpperChar(c: char): (r: string)
    ensures |r| >= 1
  {
    if 'a' <= c <= 'z' || ('\U{E0}' <= c <= '\U{FE}' && c != '\U{F7}') then [(c as int - 32) as char]
    else if c == '\U{B5}' then "\U{39C}"
    else if c == '\U{FF}' then "\U{178}"
    else if c == '\U{DF}' then "SS"
    else if c == '\U{131}' then "I"
    else if c == '\U{17F}' then "S"
    else if c == '\U{149}' then "\U{2BC}N"
    else if c == '\U{1F0}' then "J\U{30C}"
    else if c == '\U{1E96}' then "H\U{331}"
    else if c == '\U{1E97}' then "T\U{308}"
    else if c == '\U{1E98}' then "W\U{30A}"
    else if c == '\U{1E99}' then "Y\U{30A}"
    else if c == '\U{1E9A}' then "A\U{2BE}"
    else if c == '\U{FB00}' then "FF"
    else if c == '\U{FB01}' then "FI"
    else if c == '\U{FB02}' then "FL"
    else if c == '\U{FB03}' then "FFI"
    else if c == '\U{FB04}' then "FFL"
    else if c == '\U{FB05}' || c == '\U{FB06}' then "ST"
    else [c]
  }

  /** `s.toUpperCase()`: each character's upper case, in order. */
  function ToUpper(s: string): (r: string)
    ensures |r| >= |s|
  {
    if s == [] then [] else UpperChar(s[0]) + ToUpper(s[1..])
  }

  /** Upper-casing distributes over concatenation. */
  lemma {:induction false} ToUpperAppend(a: string, b: string)
    ensures ToUpper(a + b) == ToUpper(a) + ToUpper(b)
    decreases |a|
  {
    if a != [] {
      assert (a + b)[0] == a[0];
      assert (a + b)[1..] == a[1..] + b;
      ToUpperAppend(a[1..], b);
      AppendAssoc(UpperChar(a[0]), ToUpper(a[1..]), ToUpper(b));
    } else {
      assert a + b == b;
    }
  }

  /** On ASCII text, upper-casing folds each character on its own and keeps the length. */
  lemma {:induction false} ToUpperAscii(s: string)
    requires forall i :: 0 <= i < |s| ==> s[i] < '\U{80}'
    ensures |ToUpper(s)| == |s|
    ensures forall i :: 0 <= i < |s| ==> ToUpper(s)[i] == FoldAscii(s[i])
    decreases |s|
  {
    if s != [] {
      ToUpperAscii(s[1..]);
      assert UpperChar(s[0]) == [FoldAscii(s[0])];
      assert forall i :: 1 <= i < |s| ==> s[1..][i - 1] == s[i];
    }
  }

  /** Upper-casing a single character is that character's upper case. */
  lemma ToUpperOne(c: char)
    ensures ToUpper([c]) == UpperChar(c)
  {
    assert [c][1..] == [];
  }

  /** A text whose first `k` characters are non-whitespace and upper-case to a text starting
      with `p` still starts with `p` after trimming and upper-casing. */
  lemma UpperTrimStartsWith(s: string, k: nat, p: string)
    requires 0 < k <= |s| && forall j :: 0 <= j < k ==> !IsWhitespace(s[j])
    requires StartsWith(ToUpper(s[..k]), p)
    ensures StartsWith(ToUpper(Trim(s)), p)
  {
    TrimKeepsPrefix(s, k);
    var t := Trim(s);
    TakeThenDrop(t, s[..k], k);
    ToUpperAppend(s[..k], t[k..]);
    StartsWithAppend(ToUpper(s[..k]), ToUpper(t[k..]), p);
  }

  /** ASCII-only upper case: the case folding of a JavaScript regular expression with the
      `i` flag and without the `u` flag, which never maps a non-ASCII character to ASCII. */
  function FoldAscii(c: char): char {
    if 'a' <= c <= 'z' then (c as int - 32) as char else c
  }

  predicate StartsWith(s: string, prefix: string) {
    |prefix| <= |s| && s[..|prefix|] == prefix
  }

  predicate EndsWith(s: string, suffix: string) {
    |suffix| <= |s| && s[|s| - |suffix|..] == suffix
  }

  /** A concatenation starts with its first part and ends with its second. */
  lemma AppendEnds(a: string, b: string)
    ensures StartsWith(a + b, a) && EndsWith(a + b, b)
  {
    assert (a + b)[..|a|] == a;
    assert (a + b)[|a + b| - |b|..] == b;
  }

  /** Appending keeps a prefix. */
  lemma StartsWithAppend(a: string, b: string, p: string)
    requires StartsWith(a, p)
    ensures StartsWith(a + b, p)
  {
    assert (a + b)[..|p|] == a[..|p|];
  }

  /** A prefix and three parts regroup around the prefix. */
  lemma Regroup(x: string, a: string, b: string, c: string)
    ensures x + a + b + c == x + (a + b + c)
  {
    AppendAssoc(x, a, b);
    AppendAssoc(x, a + b, c);
  }

  /** A three-part concatenation starts with its first part. */
  lemma Append3Starts(a: string, b: string, c: string)
    ensures StartsWith(a + b + c, a)
  {
    assert (a + b + c)[..|a|] == (a + b)[..|a|];
    assert (a + b)[..|a|] == a;
  }

  /** `s.indexOf(c)` for one character: -1 when absent. */
  function IndexOf(s: string, c: char): (k: int)
    ensures -1 <= k < |s|
    ensures k == -1 <==> c !in s
    ensures 0 <= k ==> s[k] == c
    ensures forall j :: 0 <= j < k ==> s[j] != c
  {
    if s == [] then -1
    else if s[0] == c then 0
    else
      var k := IndexOf(s[1..], c);
      if k == -1 then -1 else k + 1
  }

  /** `s.lastIndexOf(c)` for one character: -1 when absent. */
  function LastIndexOf(s: string, c: char): (k: int)
    ensures -1 <= k < |s|
    ensures k == -1 <==> c !in s
    ensures 0 <= k ==> s[k] == c
    ensures forall j :: k < j < |s| ==> s[j] != c
  {
    if s == [] then -1
    else if s[|s| - 1] == c then |s| - 1
    else LastIndexOf(s[..|s| - 1], c)
  }

  /** The first occurrence is the position before which the character does not occur. */
  lemma IndexOfIs(s: string, c: char, k: nat)
    requires k < |s| && s[k] == c && forall j :: 0 <= j < k ==> s[j] != c
    ensures IndexOf(s, c) == k
  {
  }

  /** The last occurrence is the position after which the character does not occur. */
  lemma LastIndexOfIs(s: string, c: char, k: nat)
    requires k < |s| && s[k] == c && forall j :: k < j < |s| ==> s[j] != c
    ensures LastIndexOf(s, c) == k
  {
  }

  /** A character missing from the first part does not occur before the second. */
  lemma AbsentBefore(pre: string, rest: string, c: char)
    requires c !in pre
    ensures forall j :: 0 <= j < |pre| ==> (pre + rest)[j] != c
  {
    forall j | 0 <= j < |pre| ensures (pre + rest)[j] != c {
      assert (pre + rest)[j] == pre[j];
    }
  }

  /** A character missing from the second part does not occur after the first. */
  lemma AbsentAfter(a: string, post: string, c: char)
    requires c !in post
    ensures forall j :: |a| <= j < |a + post| ==> (a + post)[j] != c
  {
    forall j | |a| <= j < |a + post| ensures (a + post)[j] != c {
      assert (a + post)[j] == post[j - |a|];
    }
  }

  /** `pat` occurs in `s` at position `j`. */
  predicate MatchAt(s: string, pat: string, j: int) {
    0 <= j && j + |pat| <= |s| && s[j..j + |pat|] == pat
  }

  /** Position of the first occurrence of `pat` in `s` at or after `from`, or -1. */
  function FindFrom(s: string, pat: string, from: nat): (k: int)
    requires from <= |s|
    ensures k == -1 || from <= k <= |s| - |pat|
    ensures 0 <= k ==> MatchAt(s, pat, k)
    decreases |s| - from
  {
    if |s| - from < |pat| then -1
    else if s[from..from + |pat|] == pat then from
    else if from == |s| then -1
    else FindFrom(s, pat, from + 1)
  }

  /** No match starts between `from` and the one FindFrom reports (or the end). */
  lemma {:induction false} FindFromFirst(s: string, pat: string, from: nat)
    requires from <= |s|
    ensures var k := FindFrom(s, pat, from);
      forall j :: from <= j && (k == -1 || j < k) ==> !MatchAt(s, pat, j)
    decreases |s| - from
  {
    if |s| - from >= |pat| && s[from..from + |pat|] != pat && from < |s| {
      FindFromFirst(s, pat, from + 1);
    }
  }

  /** `s.indexOf(pat)`. */
  function Find(s: string, pat: string): int {
    FindFrom(s, pat, 0)
  }

  /** The first match is the position before which there is none. */
  lemma FindIs(s: string, pat: string, k: nat)
    requires MatchAt(s, pat, k) && forall j :: 0 <= j < k ==> !MatchAt(s, pat, j)
    ensures Find(s, pat) == k
  {
    FindFromFirst(s, pat, 0);
  }

  /** Without any match, Find gives -1. */
  lemma FindNone(s: string, pat: string)
    requires forall j :: 0 <= j <= |s| ==> !MatchAt(s, pat, j)
    ensures Find(s, pat) == -1
  {
    FindFromFirst(s, pat, 0);
  }

  /** `s.replace(pat, rep)` with a string pattern: the first occurrence only (the `$` patterns
      of JavaScript's replacement text are not interpreted). */
  function ReplaceFirst(s: string, pat: string, rep: string): (r: string)
    ensures Find(s, pat) == -1 ==> r == s
    ensures 0 <= Find(s, pat) ==>
      r == s[..Find(s, pat)] + rep + s[Find(s, pat) + |pat|..]
  {
    var k := Find(s, pat);
    if k == -1 then s else s[..k] + rep + s[k + |pat|..]
  }

  /** A pattern is replaced where the text starts with it. */
  lemma ReplaceAtHead(pat: string, post: string, rep: string)
    requires |pat| > 0
    ensures ReplaceFirst(pat + post, pat, rep) == rep + post
  {
    var s := pat + post;
    assert s[0..|pat|] == pat;
    FindIs(s, pat, 0);
    assert s[|pat|..] == post;
    assert s[..0] == [];
  }

  /** No match starts inside a prefix that lacks the pattern's first character. */
  lemma NoMatchInPrefix(x: string, s: string, pat: string)
    requires |pat| > 0 && pat[0] !in x
    ensures forall j :: 0 <= j < |x| ==> !MatchAt(x + s, pat, j)
  {
    forall j | 0 <= j < |x| ensures !MatchAt(x + s, pat, j) {
      assert (x + s)[j] == x[j];
    }
  }

  /** Past a prefix, matches are those of the rest, shifted. */
  lemma MatchShift(x: string, s: string, pat: string, j: nat)
    ensures MatchAt(x + s, pat, |x| + j) <==> MatchAt(s, pat, j)
  {
    if j + |pat| <= |s| {
      assert (x + s)[|x| + j..|x| + j + |pat|] == s[j..j + |pat|];
    }
  }

  /** Matches in `x + s` before `|x| + k`, none in `x` and none in `s` before `k`. */
  lemma NoMatchBefore(x: string, s: string, pat: string, k: nat)
    requires |pat| > 0 && pat[0] !in x
    requires forall j :: 0 <= j < k ==> !MatchAt(s, pat, j)
    ensures forall j :: 0 <= j < |x| + k ==> !MatchAt(x + s, pat, j)
  {
    NoMatchInPrefix(x, s, pat);
    forall j | |x| <= j < |x| + k ensures !MatchAt(x + s, pat, j) {
      MatchShift(x, s, pat, j - |x|);
    }
  }

  /** Replacing a pattern whose first character a prefix lacks leaves the prefix alone. */
  lemma ReplaceUnderPrefix(x: string, s: string, pat: string, rep: string)
    requires |pat| > 0 && pat[0] !in x
    ensures ReplaceFirst(x + s, pat, rep) == x + ReplaceFirst(s, pat, rep)
  {
    var k := Find(s, pat);
    if k == -1 {
      ReplaceUnderPrefixNone(x, s, pat, rep);
    } else {
      ReplaceUnderPrefixAt(x, s, pat, rep, k);
    }
  }

  /** Cutting `x + s` past the prefix cuts `s`. */
  lemma SlicesPastPrefix(x: string, s: string, k: nat, m: nat)
    requires k + m <= |s|
    ensures (x + s)[..|x| + k] == x + s[..k]
    ensures (x + s)[|x| + k + m..] == s[k + m..]
  {
  }

  /** The first match in `x + s` is the first match in `s`, shifted past the prefix. */
  lemma FindPastPrefix(x: string, s: string, pat: string, k: nat)
    requires |pat| > 0 && pat[0] !in x && Find(s, pat) == k
    ensures Find(x + s, pat) == |x| + k
  {
    FindFromFirst(s, pat, 0);
    NoMatchBefore(x, s, pat, k);
    MatchShift(x, s, pat, k);
    FindIs(x + s, pat, |x| + k);
  }

  lemma ReplaceUnderPrefixNone(x: string, s: string, pat: string, rep: string)
    requires |pat| > 0 && pat[0] !in x && Find(s, pat) == -1
    ensures ReplaceFirst(x + s, pat, rep) == x + ReplaceFirst(s, pat, rep)
  {
    FindFromFirst(s, pat, 0);
    NoMatchBefore(x, s, pat, |s| + 1);
    FindNone(x + s, pat);
  }

  /** Where the first match is known, the replacement cuts there. */
  lemma ReplaceAtFound(t: string, pat: string, rep: string, i: nat)
    requires Find(t, pat) == i
    ensures i + |pat| <= |t|
    ensures ReplaceFirst(t, pat, rep) == t[..i] + rep + t[i + |pat|..]
  {
  }

  /** The replacement in `x + s` cuts `s` where its own first match is. */
  lemma ReplacedPastPrefix(x: string, s: string, pat: string, rep: string, k: nat)
    requires |pat| > 0 && pat[0] !in x && Find(s, pat) == k
    ensures k + |pat| <= |s|
    ensures ReplaceFirst(x + s, pat, rep) == x + s[..k] + rep + s[k + |pat|..]
  {
    FindPastPrefix(x, s, pat, k);
    ReplaceAtFound(x + s, pat, rep, |x| + k);
    SlicesPastPrefix(x, s, k, |pat|);
  }

  lemma ReplaceUnderPrefixAt(x: string, s: string, pat: string, rep: string, k: nat)
    requires |pat| > 0 && pat[0] !in x && Find(s, pat) == k
    ensures ReplaceFirst(x + s, pat, rep) == x + ReplaceFirst(s, pat, rep)
  {
    ReplacedPastPrefix(x, s, pat, rep, k);
    Regroup(x, s[..k], rep, s[k + |pat|..]);
  }

  /** `s.slice(0, n)` for n >= 0, counted in UTF-16 code units: the longest prefix that fits
      in n units. */
  function Take(s: string, n: nat): (r: string)
    ensures |r| <= |s| && r == s[..|r|]
    ensures Utf16Length(r) <= n
    ensures |r| < |s| ==> Utf16Length(s[..|r| + 1]) > n
  {
    if s == [] then []
    else
      var w := Utf16Length([s[0]]);
      if w > n then []
      else
        var rest := Take(s[1..], n - w);
        assert s == [s[0]] + s[1..];
        TakeStep(s[0], s[1..], n - w, rest);
        [s[0]] + rest
  }

  /** A maximal cut of the tail, behind the first character `c`, is a maximal cut of the text. */
  lemma TakeStep(c: char, t: string, m: nat, rest: string)
    requires |rest| <= |t| && rest == t[..|rest|]
    requires |rest| < |t| ==> Utf16Length(t[..|rest| + 1]) > m
    ensures ([c] + t)[..|rest| + 1] == [c] + rest
    ensures Utf16Length([c] + rest) == Utf16Length([c]) + Utf16Length(rest)
    ensures |rest| < |t| ==> Utf16Length(([c] + t)[..|rest| + 2]) > Utf16Length([c]) + m
  {
    ConsTake(c, t, |rest|);
    Utf16LengthAppend([c], rest);
    if |rest| < |t| {
      ConsTake(c, t, |rest| + 1);
      Utf16LengthAppend([c], t[..|rest| + 1]);
    }
  }

  /** On text without characters outside the Basic Multilingual Plane, code units and
      characters coincide: `slice(0, n)` keeps min(n, length) characters. */
  lemma TakeBmp(s: string, n: nat)
    requires forall i :: 0 <= i < |s| ==> s[i] as int <= 0xFFFF
    ensures |Take(s, n)| == if n < |s| then n else |s|
  {
    var r := Take(s, n);
    BmpLength(s, |r|);
    if |r| < |s| {
      BmpLength(s, |r| + 1);
    }
  }

  /** `s.split(sep)` for a one-character separator. */
  function Split(s: string, sep: char): (parts: seq<string>)
    ensures |parts| >= 1
    ensures forall i :: 0 <= i < |parts| ==> sep !in parts[i]
    decreases |s|
  {
    var k := IndexOf(s, sep);
    if k == -1 then [s] else [s[..k]] + Split(s[k + 1..], sep)
  }

  /** `parts.join(sep)`. */
  function Join(parts: seq<string>, sep: string): string {
    if parts == [] then ""
    else if |parts| == 1 then parts[0]
    else parts[0] + sep + Join(parts[1..], sep)
  }

  /** Joining the pieces of a split with the same separator gives the text back. */
  lemma {:induction false} JoinSplit(s: string, sep: char)
    ensures Join(Split(s, sep), [sep]) == s
    decreases |s|
  {
    var k := IndexOf(s, sep);
    if k != -1 {
      var rest := Split(s[k + 1..], sep);
      var parts := [s[..k]] + rest;
      assert Split(s, sep) == parts;
      assert parts[1..] == rest;
      assert Join(parts, [sep]) == s[..k] + [sep] + Join(rest, [sep]);
      JoinSplit(s[k + 1..], sep);
      assert s == s[..k] + [sep] + s[k + 1..];
    }
  }

  /** Splitting the join of separator-free pieces gives the pieces back. */
  lemma {:induction false} SplitJoin(parts: seq<string>, sep: char)
    requires |parts| >= 1 && forall i :: 0 <= i < |parts| ==> sep !in parts[i]
    ensures Split(Join(parts, [sep]), sep) == parts
    decreases |parts|
  {
    if |parts| == 1 {
      SplitNoSeparator(parts[0], sep);
    } else {
      var p0 := parts[0];
      assert Join(parts, [sep]) == p0 + [sep] + Join(parts[1..], [sep]);
      SplitCons(p0, sep, Join(parts[1..], [sep]));
      SplitJoin(parts[1..], sep);
      assert parts == [p0] + parts[1..];
    }
  }

  /** A separator-free piece, the separator, then the rest: the piece is the first part. */
  lemma SplitCons(p: string, sep: char, rest: string)
    requires sep !in p
    ensures Split(p + [sep] + rest, sep) == [p] + Split(rest, sep)
  {
    var s := p + [sep] + rest;
    assert forall j :: 0 <= j < |p| ==> s[j] == p[j];
    assert s[|p|] == sep;
    assert IndexOf(s, sep) == |p|;
    assert s[..|p|] == p;
    assert s[|p| + 1..] == rest;
  }

  /** A text splits into a single part exactly when it has no separator. */
  lemma SplitSingleIff(s: string, sep: char)
    ensures |Split(s, sep)| == 1 <==> sep !in s
  {
    if sep in s {
      var k := IndexOf(s, sep);
      assert Split(s, sep) == [s[..k]] + Split(s[k + 1..], sep);
    }
  }

  /** A text without the separator splits into itself alone. */
  lemma SplitNoSeparator(s: string, sep: char)
    requires sep !in s
    ensures Split(s, sep) == [s]
  {
  }

  /** Number of UTF-16 code units of `s` (JavaScript's `length`). */
  function Utf16Length(s: string): (n: nat)
    ensures |s| <= n <= 2 * |s|
  {
    if s == [] then 0 else (if s[0] as int > 0xFFFF then 2 else 1) + Utf16Length(s[1..])
  }

  /** A prefix of a text without characters outside the Basic Multilingual Plane has one code
      unit per character. */
  lemma {:induction false} BmpLength(s: string, k: nat)
    requires k <= |s| && forall i :: 0 <= i < |s| ==> s[i] as int <= 0xFFFF
    ensures Utf16Length(s[..k]) == k
    decreases k
  {
    if k > 0 {
      assert s[..k][1..] == s[1..][..k - 1];
      BmpLength(s[1..], k - 1);
    }
  }

  lemma {:induction false} Utf16LengthAppend(a: string, b: string)
    ensures Utf16Length(a + b) == Utf16Length(a) + Utf16Length(b)
    decreases |a|
  {
    if a != [] {
      assert (a + b)[0] == a[0];
      assert (a + b)[1..] == a[1..] + b;
      Utf16LengthAppend(a[1..], b);
    } else {
      assert a + b == b;
    }
  }

  function DigitChar(d: nat): char
    requires d < 10
  {
    ('0' as int + d) as char
  }

  predicate IsDigit(c: char) {
    '0' <= c <= '9'
  }

  function DigitValue(c: char): nat
    requires IsDigit(c)
  {
    c as int - '0' as int
  }

  /** Decimal text of a natural number, as `String(n)` writes it. */
  function NatToString(n: nat): (s: string)
    ensures s != [] && forall i :: 0 <= i < |s| ==> IsDigit(s[i])
  {
    if n < 10 then [DigitChar(n)] else NatToString(n / 10) + [DigitChar(n % 10)]
  }

  /** Decimal text of an integer, with a leading '-' when negative. */
  function IntToString(n: int): string {
    if n < 0 then "-" + NatToString(-n) else NatToString(n)
  }

  /** The value of a run of decimal digits. */
  function DecimalValue(s: string): nat
    requires forall i :: 0 <= i < |s| ==> IsDigit(s[i])
  {
    if s == [] then 0 else 10 * DecimalValue(s[..|s| - 1]) + DigitValue(s[|s| - 1])
  }

  lemma {:induction false} DecimalValueOfNatToString(n: nat)
    ensures DecimalValue(NatToString(n)) == n
  {
    if n >= 10 {
      var s := NatToString(n);
      assert s[..|s| - 1] == NatToString(n / 10);
      DecimalValueOfNatToString(n / 10);
    }
  }

  predicate IsHexDigit(c: char) {
    IsDigit(c) || 'a' <= c <= 'f' || 'A' <= c <= 'F'
  }

  function HexDigitValue(c: char): nat
    requires IsHexDigit(c)
  {
    if IsDigit(c) then DigitValue(c)
    else if 'a' <= c <= 'f' then c as int - 'a' as int + 10
    else c as int - 'A' as int + 10
  }

  /** Length of the longest prefix of `s` made of digits of the given radix (10 or 16). */
  function DigitRun(s: string, hex: bool): (n: nat)
    ensures n <= |s|
    ensures forall i :: 0 <= i < n ==> if hex then IsHexDigit(s[i]) else IsDigit(s[i])
    ensures n < |s| ==> !(if hex then IsHexDigit(s[n]) else IsDigit(s[n]))
  {
    if s != [] && (if hex then IsHexDigit(s[0]) else IsDigit(s[0])) then 1 + DigitRun(s[1..], hex) else 0
  }

  function RunValue(s: string, hex: bool): nat
    requires forall i :: 0 <= i < |s| ==> if hex then IsHexDigit(s[i]) else IsDigit(s[i])
  {
    if s == [] then 0
    else
      var last := s[|s| - 1];
      (if hex then 16 else 10) * RunValue(s[..|s| - 1], hex)
        + (if hex then HexDigitValue(last) else DigitValue(last))
  }

  /** The part of `parseInt` after the sign: an optional "0x"/"0X" prefix selecting base 16,
      then the longest run of digits; None when that run is empty. */
  function ParseMagnitude(u: string): Option<nat> {
    var hex := |u| >= 2 && u[0] == '0' && (u[1] == 'x' || u[1] == 'X');
    var digits := if hex then u[2..] else u;
    var n := DigitRun(digits, hex);
    if n == 0 then None else Some(RunValue(digits[..n], hex))
  }

  /** `parseInt(s)` with no radix: leading whitespace, an optional sign, then the magnitude;
      None stands for NaN. */
  function ParseInt(s: string): Option<int> {
    var t := TrimStart(s);
    var neg := t != [] && t[0] == '-';
    var u := if t != [] && (t[0] == '-' || t[0] == '+') then t[1..] else t;
    match ParseMagnitude(u)
    case None => None
    case Some(v) => var x: int := v; Some(if neg then -x else x)
  }

  lemma RunValueDecimal(s: string)
    requires forall i :: 0 <= i < |s| ==> IsDigit(s[i])
    ensures RunValue(s, false) == DecimalValue(s)
  {
  }

  /** A non-empty run of decimal digits is read in base 10, whole. */
  lemma MagnitudeOfDigits(d: string)
    requires d != [] && forall i :: 0 <= i < |d| ==> IsDigit(d[i])
    ensures ParseMagnitude(d) == Some(DecimalValue(d))
  {
    assert !(|d| >= 2 && (d[1] == 'x' || d[1] == 'X'));
    DigitRunAll(d);
    assert d[..|d|] == d;
    RunValueDecimal(d);
  }

  /** A string that starts with a non-blank character is its own TrimStart. */
  lemma TrimStartNoop(s: string)
    requires s != [] && !IsWhitespace(s[0])
    ensures TrimStart(s) == s
  {
  }

  /** A string that starts with a digit is read as its magnitude. */
  lemma ParseIntUnsigned(u: string, v: nat)
    requires u != [] && IsDigit(u[0]) && ParseMagnitude(u) == Some(v)
    ensures ParseInt(u) == Some(v as int)
  {
    TrimStartNoop(u);
  }

  /** '-' followed by a string is read as the negated magnitude of that string. */
  lemma ParseIntNegated(u: string, v: nat)
    requires ParseMagnitude(u) == Some(v)
    ensures ParseInt("-" + u) == Some(-(v as int))
  {
    var m := "-" + u;
    assert m[1..] == u;
    TrimStartNoop(m);
  }

  /** `parseInt` reads back what `String(n)` writes. */
  lemma ParseIntOfIntToString(n: int)
    ensures ParseInt(IntToString(n)) == Some(n)
  {
    var m: nat := if n < 0 then -n else n;
    var d := NatToString(m);
    DecimalValueOfNatToString(m);
    MagnitudeOfDigits(d);
    if n < 0 {
      ParseIntNegated(d, m);
    } else {
      ParseIntUnsigned(d, m);
    }
  }

  lemma {:induction false} DigitRunAll(s: string)
    requires forall i :: 0 <= i < |s| ==> IsDigit(s[i])
    ensures DigitRun(s, false) == |s|
  {
    if s != [] {
      DigitRunAll(s[1..]);
    }
  }
}
